/** Publishers and subscribers as objects around a message queue. */
module Endpoints {
  import opened Basics
  import opened NodeModel
  import opened MessageQueues
  import Codec

  class Publisher {
    const topicName: string
    const typeName: string
    const messageSize: nat
    const priority: int
    const queue: MessageQueue
    var topicId: nat
    var typeId: nat

    ghost predicate Valid()
      reads this, queue
    {
      queue.Valid() && queue.messageSize == Codec.PAYLOAD + messageSize && queue.capacity == CAPACITY
    }

    ghost function Repr(): set<object>
      reads this, queue
    {
      {this as object} + queue.Repr()
    }

    ghost function Abs(): (p: Pub<Bytes>)
      requires Valid()
      reads this, queue, queue.queue
    {
      Pub(topicName, typeName, messageSize, priority, topicId, typeId, queue.Payloads(Codec.PAYLOAD))
    }

    constructor (topicName: string, typeName: string, messageSize: nat, priority: int)
      ensures Valid() && fresh(Repr())
      ensures Abs() == Pub(topicName, typeName, messageSize, priority, 0, 0, [])
    {
      this.topicName, this.typeName, this.messageSize, this.priority := topicName, typeName, messageSize, priority;
      queue := new MessageQueue(Codec.PAYLOAD + messageSize, CAPACITY);
      topicId, typeId := 0, 0;
    }

    /** Copies the message behind the header region of a free buffer. */
    method Publish(data: Bytes) returns (r: bool)
      requires Valid() && |data| == messageSize
      modifies queue, queue.buffers
      ensures Valid() && queue.buffers == old(queue.buffers)
      ensures r <==> old(|Abs().queue|) < 10
      ensures Abs() == old(Abs()).(queue := Enqueue(old(Abs().queue), data))
    {
      r := queue.Push(data, None, Codec.PAYLOAD);
    }

    /** The front message as a packet: its header region is filled in place. */
    method FillHeader(counter: uint32) returns (packet: Bytes)
      requires Valid() && Abs().queue != []
      modifies queue.buffers
      ensures Valid() && Abs() == old(Abs())
      ensures packet == Codec.EncodeData(counter, topicId, typeId, Abs().queue[0])
    {
      ghost var before := Abs();
      var front := queue.Get();
      Codec.FillDataHeader(front, counter, topicId, typeId, messageSize);
      packet := front[..];
      ghost var q := queue.queue;
      assert front[Codec.PAYLOAD..] == packet[Codec.PAYLOAD..];
      forall k | 0 <= k < |q| ensures q[k][Codec.PAYLOAD..] == before.queue[k] {
        assert q[k] in q;
      }
      assert Abs().queue == before.queue;
    }

    method PopMessage() returns (r: bool)
      requires Valid()
      modifies queue
      ensures Valid() && queue.buffers == old(queue.buffers)
      ensures r <==> old(Abs().queue) != []
      ensures Abs() == if r then old(Abs()).(queue := old(Abs().queue)[1..]) else old(Abs())
    {
      r := queue.Pop();
    }

    method SetTypeId(id: nat)
      requires Valid()
      modifies this`typeId
      ensures Valid() && Abs() == old(Abs()).(typeId := id)
    {
      typeId := id;
    }

    method SetTopicId(id: nat)
      requires Valid()
      modifies this`topicId
      ensures Valid() && Abs() == old(Abs()).(topicId := id)
    {
      topicId := id;
    }
  }

  class Subscriber {
    const topicName: string
    const typeName: string
    const messageSize: nat
    const queue: MessageQueue
    var priority: int
    var topicId: nat
    var typeId: nat

    ghost predicate Valid()
      reads this, queue
    {
      queue.Valid() && queue.messageSize == messageSize && queue.capacity == CAPACITY
    }

    ghost function Repr(): set<object>
      reads this, queue
    {
      {this as object} + queue.Repr()
    }

    ghost function Abs(): (p: Sub<Bytes>)
      requires Valid()
      reads this, queue, queue.queue
    {
      Sub(topicName, typeName, messageSize, priority, topicId, typeId, queue.Payloads(0))
    }

    constructor (topicName: string, typeName: string, messageSize: nat, priority: int)
      ensures Valid() && fresh(Repr())
      ensures Abs() == Sub(topicName, typeName, messageSize, priority, 0, 0, [])
    {
      this.topicName, this.typeName, this.messageSize := topicName, typeName, messageSize;
      this.priority := priority;
      queue := new MessageQueue(messageSize, CAPACITY);
      topicId, typeId := 0, 0;
    }

    method QueueMessage(data: Bytes) returns (r: bool)
      requires Valid() && |data| == messageSize
      modifies queue, queue.buffers
      ensures Valid() && queue.buffers == old(queue.buffers)
      ensures r <==> old(|Abs().queue|) < 10
      ensures Abs() == old(Abs()).(queue := Enqueue(old(Abs().queue), data))
    {
      r := queue.Push(data, None, 0);
    }

    /** First half of `run_callback`: the message handed to the callback. */
    method FrontMessage() returns (data: Bytes)
      requires Valid() && Abs().queue != []
      ensures data == Abs().queue[0]
    {
      var front := queue.Get();
      data := front[0..];
    }

    /** Second half of `run_callback`. */
    method PopMessage() returns (r: bool)
      requires Valid()
      modifies queue
      ensures Valid() && queue.buffers == old(queue.buffers)
      ensures r <==> old(Abs().queue) != []
      ensures Abs() == if r then old(Abs()).(queue := old(Abs().queue)[1..]) else old(Abs())
    {
      r := queue.Pop();
    }
  }
}
