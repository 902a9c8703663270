/** Types and sequence facts shared by every part of the model. */
module Basics {

  /** Number of values of a `uint32_t`; all counters wrap here. */
  const WORD: nat := 0x1_0000_0000

  /** Size of every receive buffer; no datagram is larger. */
  const BUFFER_SIZE: nat := 65536

  type byte = x: int | 0 <= x < 256 witness 0
  type uint32 = x: int | 0 <= x < WORD witness 0
  type Bytes = seq<byte>

  datatype Option<+T> = None | Some(value: T)

  /** `xs` without the element at position `i`. */
  function RemoveAt<T>(xs: seq<T>, i: nat): (ys: seq<T>)
    requires i < |xs|
    ensures |ys| == |xs| - 1
  {
    xs[..i] + xs[i + 1..]
  }

  ghost predicate Distinct<T>(xs: seq<T>) {
    forall i, j | 0 <= i < j < |xs| :: xs[i] != xs[j]
  }

  /** Truncation to `uint32_t`, that is, the residue modulo `WORD` (see `WrapIsResidue`). */
  function Wrap(x: nat): (r: uint32) {
    if x < WORD then x else Wrap(x - WORD)
  }

  lemma {:induction false} WrapIsResidue(x: nat)
    ensures Wrap(x) == x % WORD
  {
    if x >= WORD {
      WrapIsResidue(x - WORD);
    }
  }

  lemma {:induction false} WrapUnique(x: nat, q: nat, r: uint32)
    requires x == q * WORD + r
    ensures Wrap(x) == r
  {
    if q > 0 {
      WrapUnique(x - WORD, q - 1, r);
    }
  }

  /** Incrementing a wrapped counter. */
  lemma {:induction false} WrapSucc(x: nat)
    ensures Wrap(Wrap(x) + 1) == Wrap(x + 1)
  {
    if x >= WORD {
      WrapSucc(x - WORD);
    }
  }

  lemma {:induction false} WrapAdd(x: nat, y: nat)
    ensures Wrap(Wrap(x) + y) == Wrap(x + y)
  {
    if x >= WORD {
      WrapAdd(x - WORD, y);
      assert Wrap(x + y) == Wrap(x - WORD + y);
    }
  }

  /** Two counters less than `WORD` steps apart are equal only if they are the same step. */
  lemma {:induction false} WrapInjective(base: nat, i: nat, j: nat)
    requires i < WORD && j < WORD && Wrap(base + i) == Wrap(base + j)
    ensures i == j
  {
    if base >= WORD {
      WrapInjective(base - WORD, i, j);
    } else {
      WrapOnce(base, i);
      WrapOnce(base, j);
    }
  }

  lemma WrapDiffers(base: nat, i: nat, j: nat)
    requires i < j < WORD
    ensures Wrap(base + i) != Wrap(base + j)
  {
    if Wrap(base + i) == Wrap(base + j) {
      WrapInjective(base, i, j);
    }
  }

  lemma WrapOnce(base: nat, i: nat)
    requires base < WORD && i < WORD
    ensures Wrap(base + i) == if base + i < WORD then base + i else base + i - WORD
  {
  }

  lemma MultisetRemoveAt<T>(xs: seq<T>, i: nat)
    requires i < |xs|
    ensures multiset(xs) == multiset(RemoveAt(xs, i)) + multiset{xs[i]}
  {
    assert xs == xs[..i] + [xs[i]] + xs[i + 1..];
  }
}
