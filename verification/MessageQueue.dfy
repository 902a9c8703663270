/** The bounded FIFO that the message queue has to implement. */
module BoundedFifo {
  import opened Basics

  datatype Op = Push(data: Bytes) | Pop | Stamp(header: Bytes)

  /** One operation on the queued payloads; the flag is the operation's result. */
  function Apply(fifo: seq<Bytes>, capacity: nat, op: Op): (seq<Bytes>, bool) {
    match op
    case Push(data) => if |fifo| < capacity then (fifo + [data], true) else (fifo, false)
    case Pop => if fifo == [] then (fifo, false) else (fifo[1..], true)
    case Stamp(_) => (fifo, fifo != [])
  }

  function Run(fifo: seq<Bytes>, capacity: nat, ops: seq<Op>): (seq<Bytes>, seq<bool>) {
    if ops == [] then (fifo, [])
    else
      var (before, flags) := Run(fifo, capacity, ops[..|ops| - 1]);
      var (after, flag) := Apply(before, capacity, ops[|ops| - 1]);
      (after, flags + [flag])
  }
}

/**
 * The message queue: a pool of preallocated buffers, a LIFO free list and a
 * FIFO of buffer references. Buffers are written in place and never copied.
 */
module MessageQueues {
  import opened Basics
  import opened BoundedFifo

  /** Every element of the pool is in exactly one of the two lists, once. */
  ghost predicate Partition<T>(pool: seq<T>, free: seq<T>, queue: seq<T>) {
    && |pool| == |free| + |queue|
    && Distinct(free + queue)
    && (forall b | b in free :: b in pool)
    && (forall b | b in queue :: b in pool)
    && (forall b | b in pool :: b in free || b in queue)
  }

  lemma PushKeepsPartition<T>(pool: seq<T>, free: seq<T>, queue: seq<T>)
    requires Partition(pool, free, queue) && free != []
    ensures Partition(pool, free[1..], queue + [free[0]]) && free[0] in pool && free[0] !in queue
  {
    var all, now := free + queue, free[1..] + (queue + [free[0]]);
    assert forall i | 0 <= i < |queue| :: queue[i] == all[|free| + i] != all[0];
    assert forall i | 0 <= i < |now| :: now[i] == all[if i < |now| - 1 then i + 1 else 0];
    assert free == [free[0]] + free[1..];
  }

  lemma PopKeepsPartition<T>(pool: seq<T>, free: seq<T>, queue: seq<T>)
    requires Partition(pool, free, queue) && queue != []
    ensures Partition(pool, [queue[0]] + free, queue[1..])
  {
    var all, now := free + queue, [queue[0]] + free + queue[1..];
    assert forall i | 0 <= i < |now| :: now[i] == all[if i == 0 then |free| else if i <= |free| then i - 1 else i];
    assert queue == [queue[0]] + queue[1..];
    assert [queue[0]] + free + queue[1..] == ([queue[0]] + free) + queue[1..];
  }

  /** Contents of a list of buffers from offset `skip` on. */
  ghost function Contents(list: seq<array<byte>>, skip: nat): (c: seq<Bytes>)
    requires forall b | b in list :: skip <= b.Length
    reads list
    ensures |c| == |list|
    ensures forall i | 0 <= i < |list| :: c[i] == list[i][skip..]
  {
    if list == [] then [] else [list[0][skip..]] + Contents(list[1..], skip)
  }

  /** `memcpy` into a buffer. */
  method CopyInto(target: array<byte>, at: nat, source: Bytes)
    requires at + |source| <= target.Length
    modifies target
    ensures target[at..at + |source|] == source
    ensures target[..at] == old(target[..at]) && target[at + |source|..] == old(target[at + |source|..])
  {
    var i := 0;
    while i < |source|
      invariant 0 <= i <= |source|
      invariant target[..at] == old(target[..at]) && target[at + |source|..] == old(target[at + |source|..])
      invariant target[at..at + i] == source[..i]
    {
      target[at + i] := source[i];
      i := i + 1;
    }
  }

  /** The two copies of a push; without header data the header region keeps its stale bytes. */
  method Fill(buffer: array<byte>, data: Bytes, header: Option<Bytes>, headerSize: nat)
    requires headerSize + |data| == buffer.Length && (header.Some? ==> |header.value| == headerSize)
    modifies buffer
    ensures buffer[headerSize..] == data
    ensures buffer[..headerSize] == if header.Some? then header.value else old(buffer[..headerSize])
  {
    if header.Some? {
      CopyInto(buffer, 0, header.value);
    }
    CopyInto(buffer, headerSize, data);
    assert buffer[headerSize..] == buffer[headerSize..headerSize + |data|] == data;
  }

  class MessageQueue {
    const messageSize: nat
    const capacity: nat
    var buffers: seq<array<byte>>
    var free: seq<array<byte>>
    var queue: seq<array<byte>>

    /** Free list and queue partition the pool without duplicates. */
    ghost predicate Valid()
      reads this
    {
      && |buffers| == capacity
      && Partition(buffers, free, queue)
      && (forall b | b in buffers :: b.Length == messageSize)
    }

    ghost function Repr(): set<object>
      reads this
    {
      {this as object} + set b | b in buffers
    }

    /** The queued payloads, oldest first, behind a header region of `skip` bytes. */
    ghost function Payloads(skip: nat): (p: seq<Bytes>)
      requires Valid() && skip <= messageSize
      reads this, queue
      ensures |p| == |queue|
      ensures forall i | 0 <= i < |queue| :: p[i] == queue[i][skip..]
    {
      Contents(queue, skip)
    }

    constructor (messageSize: nat, capacity: nat)
      ensures Valid() && fresh(Repr())
      ensures this.messageSize == messageSize && this.capacity == capacity
      ensures queue == [] && free == buffers
    {
      this.messageSize := messageSize;
      this.capacity := capacity;
      var pool: seq<array<byte>>, list: seq<array<byte>> := [], [];
      var i := 0;
      while i < capacity
        invariant 0 <= i <= capacity && |pool| == i
        invariant list == pool
        invariant Distinct(pool)
        invariant forall b | b in pool :: b.Length == messageSize && fresh(b)
      {
        var buffer := new byte[messageSize](_ => 0);
        pool := pool + [buffer];
        list := list + [buffer];
        i := i + 1;
      }
      buffers, free, queue := pool, list, [];
      new;
      assert free + queue == free;
    }

    method Empty() returns (r: bool)
      ensures r <==> queue == []
    {
      r := |queue| == 0;
    }

    method Full() returns (r: bool)
      requires Valid()
      ensures r <==> |queue| == capacity
    {
      r := |free| == 0;
    }

    method Size() returns (n: nat)
      ensures n == |queue|
    {
      n := |queue|;
    }

    /** The oldest buffer itself, which the caller may write. */
    method Get() returns (front: array?<byte>)
      requires Valid()
      ensures front == null <==> queue == []
      ensures front != null ==> front == queue[0] && front in buffers && front.Length == messageSize
    {
      if |queue| == 0 {
        return null;
      }
      front := queue[0];
      assert front in queue;
    }

    method Pop() returns (r: bool)
      requires Valid()
      modifies this
      ensures Valid() && buffers == old(buffers)
      ensures r <==> old(queue) != []
      ensures !r ==> free == old(free) && queue == old(queue)
      ensures r ==> free == [old(queue)[0]] + old(free) && queue == old(queue)[1..]
      ensures forall skip: nat | skip <= messageSize ::
                Payloads(skip) == if r then old(Payloads(skip))[1..] else old(Payloads(skip))
    {
      if |queue| == 0 {
        return false;
      }
      PopKeepsPartition(buffers, free, queue);
      free := [queue[0]] + free;
      queue := queue[1..];
      return true;
    }

    /** Pushes into the most recently freed buffer; without header data the header region keeps its stale bytes. */
    method Push(data: Bytes, header: Option<Bytes>, headerSize: nat) returns (r: bool)
      requires Valid() && headerSize <= messageSize && |data| == messageSize - headerSize
      requires header.Some? ==> |header.value| == headerSize
      modifies this, buffers
      ensures Valid() && buffers == old(buffers)
      ensures r <==> old(|queue|) < capacity
      ensures !r ==> queue == old(queue) && free == old(free) && forall b | b in buffers :: b[..] == old(b[..])
      ensures r ==> free == old(free)[1..] && queue == old(queue) + [old(free)[0]]
      ensures r ==> queue[|queue| - 1][headerSize..] == data
      ensures r && header.Some? ==> queue[|queue| - 1][..headerSize] == header.value
      ensures forall i | 0 <= i < |old(queue)| :: queue[i][..] == old(queue[i][..])
      ensures Payloads(headerSize) == if r then old(Payloads(headerSize)) + [data] else old(Payloads(headerSize))
    {
      if |free| == 0 {
        return false;
      }
      var buffer := free[0];
      ghost var before := Payloads(headerSize);
      PushKeepsPartition(buffers, free, queue);
      free := free[1..];
      Fill(buffer, data, header, headerSize);
      queue := queue + [buffer];
      ghost var after := Payloads(headerSize);
      forall i | 0 <= i < |before| ensures queue[i][..] == old(queue[i][..]) && after[i] == before[i] {
        assert queue[i] == old(queue)[i] != buffer;
      }
      assert after == before + [data];
      return true;
    }

    /** Writes a header into the front buffer in place, as sending does. */
    method Stamp(header: Bytes) returns (r: bool)
      requires Valid() && |header| <= messageSize
      modifies buffers
      ensures Valid()
      ensures r <==> queue != []
      ensures r ==> queue[0][..] == header + old(queue[0][|header|..])
      ensures Payloads(|header|) == old(Payloads(|header|))
    {
      var front := Get();
      if front == null {
        return false;
      }
      CopyInto(front, 0, header);
      assert front[..] == front[..|header|] + front[|header|..];
      assert forall k | 0 <= k < |queue| :: queue[k][|header|..] == old(queue[k][|header|..]) by {
        forall k | 0 <= k < |queue| ensures queue[k][|header|..] == old(queue[k][|header|..]) {
          assert queue[k] in queue;
          if queue[k] != front {
            assert queue[k][|header|..] == queue[k][..][|header|..];
          }
        }
      }
      return true;
    }

    /** One operation behaves as on a bounded FIFO of payloads. */
    method Perform(op: Op, headerSize: nat) returns (r: bool)
      requires Valid() && headerSize <= messageSize
      requires (op.Push? ==> |op.data| == messageSize - headerSize) && (op.Stamp? ==> |op.header| == headerSize)
      modifies this, buffers
      ensures Valid() && buffers == old(buffers)
      ensures (Payloads(headerSize), r) == Apply(old(Payloads(headerSize)), capacity, op)
    {
      match op {
        case Push(data) => r := Push(data, None, headerSize);
        case Pop => r := Pop();
        case Stamp(header) => r := Stamp(header);
      }
    }

    /** Every sequence of operations behaves as on a bounded FIFO of payloads. */
    method Execute(ops: seq<Op>, headerSize: nat) returns (results: seq<bool>)
      requires Valid() && headerSize <= messageSize
      requires forall op | op in ops ::
                 (op.Push? ==> |op.data| == messageSize - headerSize) && (op.Stamp? ==> |op.header| == headerSize)
      modifies this, buffers
      ensures Valid() && buffers == old(buffers)
      ensures (Payloads(headerSize), results) == Run(old(Payloads(headerSize)), capacity, ops)
    {
      results := [];
      var i := 0;
      ghost var start := Payloads(headerSize);
      while i < |ops|
        invariant 0 <= i <= |ops|
        invariant Valid() && buffers == old(buffers)
        invariant (Payloads(headerSize), results) == Run(start, capacity, ops[..i])
      {
        assert ops[i] in ops;
        var r := Perform(ops[i], headerSize);
        assert ops[..i + 1][..i] == ops[..i];
        results := results + [r];
        i := i + 1;
      }
      assert ops[..|ops|] == ops;
    }
  }
}
