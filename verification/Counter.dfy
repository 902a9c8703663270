/**
 * The broker's per-client packet counter: a packet is accepted when its client
 * is new or when it carries the 32-bit successor of the last accepted counter.
 */
module Counter {
  import opened Basics

  predicate Accepts(stored: Option<uint32>, counter: uint32) {
    stored.None? || Wrap(stored.value + 1) == counter
  }

  function Update(stored: Option<uint32>, counter: uint32): Option<uint32> {
    if Accepts(stored, counter) then Some(counter) else stored
  }

  /** Stored counter after a sequence of arrivals. */
  function Stored(stored: Option<uint32>, arrivals: seq<uint32>): Option<uint32> {
    if arrivals == [] then stored
    else Update(Stored(stored, arrivals[..|arrivals| - 1]), arrivals[|arrivals| - 1])
  }

  lemma StoredAppend(stored: Option<uint32>, arrivals: seq<uint32>, counter: uint32)
    ensures Stored(stored, arrivals + [counter]) == Update(Stored(stored, arrivals), counter)
  {
  }

  /** Verdict on the arrival at position `i`. */
  predicate Verdict(stored: Option<uint32>, arrivals: seq<uint32>, i: nat)
    requires i < |arrivals|
  {
    Accepts(Stored(stored, arrivals[..i]), arrivals[i])
  }

  /** `n` consecutive counters that skip `gap` values after `c`. */
  function Stream(c: uint32, gap: nat, n: nat): (s: seq<uint32>)
    ensures |s| == n
    ensures forall i | 0 <= i < n :: s[i] == Wrap(c + 1 + gap + i)
  {
    if n == 0 then [] else Stream(c, gap, n - 1) + [Wrap(c + gap + n)]
  }

  lemma StreamPrefix(c: uint32, gap: nat, n: nat, i: nat)
    requires i <= n
    ensures Stream(c, gap, n)[..i] == Stream(c, gap, i)
  {
  }

  /** Counter the broker holds after `n` packets of the stream. */
  function HeldAfter(c: uint32, gap: nat, n: nat): uint32 {
    if gap == 0 || n > WORD - gap then Wrap(c + gap + n) else c
  }

  lemma StreamVerdict(c: uint32, gap: nat, n: nat)
    requires gap < WORD
    ensures Wrap(HeldAfter(c, gap, n) + 1) == Wrap(c + 1 + gap + n) <==> gap == 0 || n >= WORD - gap
  {
    if gap == 0 || n > WORD - gap {
      WrapSucc(c + gap + n);
    } else if n == WORD - gap {
      assert c + 1 + gap + n == c + 1 + WORD;
    } else {
      WrapDiffers(c + 1, 0, gap + n);
    }
  }

  lemma StreamUpdate(c: uint32, gap: nat, n: nat)
    requires gap < WORD
    ensures Update(Some(HeldAfter(c, gap, n)), Wrap(c + gap + (n + 1))) == Some(HeldAfter(c, gap, n + 1))
  {
    StreamVerdict(c, gap, n);
  }

  lemma StreamStep(c: uint32, gap: nat, n: nat)
    requires gap < WORD && Stored(Some(c), Stream(c, gap, n)) == Some(HeldAfter(c, gap, n))
    ensures Stored(Some(c), Stream(c, gap, n + 1)) == Some(HeldAfter(c, gap, n + 1))
  {
    StoredAppend(Some(c), Stream(c, gap, n), Wrap(c + gap + (n + 1)));
    StreamUpdate(c, gap, n);
  }

  lemma {:induction false} StreamStored(c: uint32, gap: nat, n: nat)
    requires gap < WORD
    ensures Stored(Some(c), Stream(c, gap, n)) == Some(HeldAfter(c, gap, n))
  {
    if n == 0 {
      assert Stream(c, gap, n) == [];
    } else {
      StreamStored(c, gap, n - 1);
      StreamStep(c, gap, n - 1);
    }
  }

  /**
   * After `gap` lost packets, exactly the next `WORD - gap` packets are
   * rejected and every later one is accepted; without a gap all are accepted,
   * across the wrap from `WORD - 1` to 0 too.
   */
  lemma GapRejects(c: uint32, gap: nat, n: nat, i: nat)
    requires gap < WORD && i < n
    ensures Verdict(Some(c), Stream(c, gap, n), i) <==> gap == 0 || i >= WORD - gap
  {
    StreamPrefix(c, gap, n, i);
    StreamStored(c, gap, i);
    StreamVerdict(c, gap, i);
  }

  /** Counter of the packet with index `i` from a sender that starts counting after `start`. */
  function CounterOf(start: uint32, i: nat): uint32 {
    Wrap(start + 1 + i)
  }

  /**
   * Indices of the accepted packets when the packets with indices `arrivals`
   * reach a broker that does not know the sender.
   */
  function Accepted(start: uint32, arrivals: seq<nat>): (acc: seq<nat>)
    ensures |acc| <= |arrivals|
  {
    if arrivals == [] then []
    else Extend(start, Accepted(start, arrivals[..|arrivals| - 1]), arrivals[|arrivals| - 1])
  }

  function Extend(start: uint32, acc: seq<nat>, i: nat): seq<nat> {
    var stored := if acc == [] then None else Some(CounterOf(start, acc[|acc| - 1]));
    if Accepts(stored, CounterOf(start, i)) then acc + [i] else acc
  }

  lemma AcceptedAppend(start: uint32, arrivals: seq<nat>, i: nat)
    ensures Accepted(start, arrivals + [i]) == Extend(start, Accepted(start, arrivals), i)
  {
  }

  function Iota(m: nat): (s: seq<nat>)
    ensures |s| == m
    ensures forall i | 0 <= i < m :: s[i] == i
  {
    if m == 0 then [] else Iota(m - 1) + [m - 1]
  }

  /**
   * Loss, duplication and reordering of `total` packets never make the broker
   * accept anything but each packet of a prefix once and in order, provided
   * that packet 0 arrives before any other.
   */
  ghost predicate PrefixOnly(total: nat) {
    forall start: uint32, arrivals: seq<nat> ::
      (forall k | 0 <= k < |arrivals| :: arrivals[k] < total) && (arrivals != [] ==> arrivals[0] == 0)
      ==> Accepted(start, arrivals) == Iota(|Accepted(start, arrivals)|)
  }

  /** The only packet that extends an accepted prefix is the next one. */
  lemma ExtendPrefix(start: uint32, m: nat, i: nat)
    requires m < WORD && i < WORD && (m == 0 ==> i == 0)
    ensures Extend(start, Iota(m), i) == if i == m then Iota(m + 1) else Iota(m)
  {
    if m > 0 {
      WrapSucc(start + m);
      if Wrap(start + 1 + m) == Wrap(start + 1 + i) {
        WrapInjective(start + 1, m, i);
      }
    }
  }

  /** Length of the accepted prefix. */
  lemma {:induction false} PrefixLength(start: uint32, arrivals: seq<nat>, total: nat) returns (m: nat)
    requires total < WORD
    requires forall k | 0 <= k < |arrivals| :: arrivals[k] < total
    requires arrivals != [] ==> arrivals[0] == 0
    ensures m <= total && Accepted(start, arrivals) == Iota(m) && (arrivals != [] ==> m > 0)
  {
    if arrivals == [] {
      m := 0;
    } else {
      var n := |arrivals| - 1;
      m := PrefixLength(start, arrivals[..n], total);
      ExtendPrefix(start, m, arrivals[n]);
      m := if arrivals[n] == m then m + 1 else m;
    }
  }

  lemma AcceptedIsPrefix(start: uint32, arrivals: seq<nat>, total: nat)
    requires total < WORD
    requires forall k | 0 <= k < |arrivals| :: arrivals[k] < total
    requires arrivals != [] ==> arrivals[0] == 0
    ensures exists m :: 0 <= m <= total && Accepted(start, arrivals) == Iota(m) && (arrivals != [] ==> m > 0)
  {
    var m := PrefixLength(start, arrivals, total);
  }

  lemma ExtendNext(start: uint32, acc: seq<nat>)
    requires acc == [] || acc[|acc| - 1] == |acc| - 1
    ensures Extend(start, acc, |acc|) == acc + [|acc|]
  {
    if acc != [] {
      WrapSucc(start + |acc|);
    }
  }

  /** In-order delivery without loss is accepted entirely, whatever the number of packets. */
  lemma {:induction false} InOrderAccepted(start: uint32, m: nat)
    ensures Accepted(start, Iota(m)) == Iota(m)
  {
    if m > 0 {
      InOrderAccepted(start, m - 1);
      AcceptedAppend(start, Iota(m - 1), m - 1);
      ExtendNext(start, Iota(m - 1));
    }
  }

  /** Once the counter space is used up, a duplicate of packet 0 passes for a new packet. */
  lemma StaleDuplicateAccepted(start: uint32)
    ensures Accepted(start, Iota(WORD) + [0]) == Iota(WORD) + [0]
  {
    InOrderAccepted(start, WORD);
    AcceptedAppend(start, Iota(WORD), 0);
    WrapSucc(start + WORD);
    assert Wrap(start + 1 + WORD) == Wrap(start + 1);
  }

  /** Prefix acceptance holds exactly for fewer than 2^32 packets. */
  lemma PrefixOnlyIff(total: nat)
    ensures PrefixOnly(total) <==> total < WORD
  {
    if total < WORD {
      forall start: uint32, arrivals: seq<nat> |
        (forall k | 0 <= k < |arrivals| :: arrivals[k] < total) && (arrivals != [] ==> arrivals[0] == 0)
        ensures Accepted(start, arrivals) == Iota(|Accepted(start, arrivals)|)
      {
        AcceptedIsPrefix(start, arrivals, total);
      }
    } else {
      var arrivals := Iota(WORD) + [0];
      StaleDuplicateAccepted(0);
      assert Accepted(0, arrivals)[WORD] == 0;
      assert Iota(WORD + 1)[WORD] == WORD;
    }
  }

  /** Why packet 0 has to come first: an unknown sender's first packet is accepted whatever its counter. */
  lemma UnknownSenderAccepted(start: uint32, i: nat)
    ensures Accepted(start, [i]) == [i]
  {
  }
}
