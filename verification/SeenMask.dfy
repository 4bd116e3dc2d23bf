/**
 The 64-bit window of sequence numbers: bit d of the mask stands for highest - d, and agrees
 with the unbounded set of every number seen. A machine word is its 64 bits, bit 0 first.
 */
module SeenMask {

  const WIDTH: nat := 64

  type Word = w: seq<bool> | |w| == WIDTH witness seq(WIDTH, _ => false)

  const ZERO: Word := seq(WIDTH, _ => false)
  const ONE: Word := seq(WIDTH, i => i == 0)

  /** Bits moved past the top are lost; zeros come in at the bottom. */
  function ShiftLeft(w: Word, s: nat): Word
  {
    seq(WIDTH, i requires 0 <= i < WIDTH => i >= s && w[i - s])
  }

  function Or(a: Word, b: Word): Word
  {
    seq(WIDTH, i requires 0 <= i < WIDTH => a[i] || b[i])
  }

  function And(a: Word, b: Word): Word
  {
    seq(WIDTH, i requires 0 <= i < WIDTH => a[i] && b[i])
  }

  ghost predicate Agrees(mask: Word, highest: nat, seen: set<nat>)
  {
    && (forall n :: n in seen ==> n <= highest)
    && forall d :: 0 <= d < WIDTH ==> (mask[d] <==> highest - d in seen)
  }

  /** The test the duplicate check makes. */
  lemma BitTest(mask: Word, d: nat)
    requires d < WIDTH
    ensures And(mask, ShiftLeft(ONE, d)) != ZERO <==> mask[d]
  {
    var word := And(mask, ShiftLeft(ONE, d));
    if mask[d] {
      assert word[d] && !ZERO[d];
    } else {
      assert word == ZERO;
    }
  }

  lemma StartsAgreeing(n: nat)
    ensures Agrees(ONE, n, {n})
  {
  }

  /** A number at or below the highest sets its own bit, if the window still reaches it. */
  lemma SetAgrees(mask: Word, highest: nat, seen: set<nat>, n: nat)
    requires Agrees(mask, highest, seen) && n <= highest
    ensures Agrees(if highest - n < WIDTH then Or(mask, ShiftLeft(ONE, highest - n)) else mask, highest, seen + {n})
  {
  }

  /** A number above the highest slides the window up to it, or starts a new one out of its reach. */
  lemma SlideAgrees(mask: Word, highest: nat, seen: set<nat>, n: nat)
    requires Agrees(mask, highest, seen) && highest < n
    ensures Agrees(if n - highest >= WIDTH then ONE else Or(ShiftLeft(mask, n - highest), ONE), n, seen + {n})
  {
  }
}
