/**
 The fixed-size ring that the audio detectors share: a buffer, the slot the next
 write goes to, and how many slots hold data. The lemmas say that such a ring is a
 fast form of "the newest entries, oldest first".
 */
module Ring {

  /** The last n entries of s, or all of s when it is shorter. */
  function Last<T>(s: seq<T>, n: nat): (r: seq<T>)
  {
    if |s| <= n then s else s[|s| - n..]
  }

  predicate Valid(capacity: nat, next: nat, filled: nat)
  {
    next < capacity && filled <= capacity
  }

  /** The slot that holds the k-th oldest entry; for k == filled, the slot written next. */
  function Slot(capacity: nat, next: nat, filled: nat, k: nat): (i: nat)
    requires Valid(capacity, next, filled) && k <= filled
    ensures i < capacity
  {
    if next + k < filled then next + k + capacity - filled
    else next + k - filled
  }

  /** The ring holds s, oldest first. */
  ghost predicate Holds<T>(buf: seq<T>, next: nat, filled: nat, s: seq<T>)
  {
    && Valid(|buf|, next, filled)
    && |s| == filled
    && forall k :: 0 <= k < filled ==> buf[Slot(|buf|, next, filled, k)] == s[k]
  }

  /** One step around the ring. */
  method Step(capacity: nat, next: nat) returns (next': nat)
    requires next < capacity
    ensures next' == if next + 1 == capacity then 0 else next + 1
  {
    if next + 1 < capacity { assert (next + 1) % capacity == next + 1; }
    return (next + 1) % capacity;
  }

  /** Writing at next and moving on keeps exactly the newest |buf| entries. */
  lemma Push<T>(buf: seq<T>, next: nat, next': nat, filled: nat, s: seq<T>, x: T)
    requires Holds(buf, next, filled, s)
    requires next' == if next + 1 == |buf| then 0 else next + 1
    ensures Holds(buf[next := x], next', if filled < |buf| then filled + 1 else filled, Last(s + [x], |buf|))
  {
  }

  /** Moving next back over the newest entries forgets exactly those. */
  lemma Drop<T>(buf: seq<T>, buf': seq<T>, next: nat, next': nat, filled: nat, s: seq<T>, count: nat)
    requires Holds(buf, next, filled, s) && count <= filled && |buf'| == |buf|
    requires next' == if count <= next then next - count else next + |buf| - count
    requires next' < |buf|
    requires forall k :: 0 <= k < filled - count ==>
               buf'[Slot(|buf|, next, filled, k)] == buf[Slot(|buf|, next, filled, k)]
    ensures Holds(buf', next', filled - count, s[..filled - count])
  {
  }

  /** Pushing one entry at a time keeps the last n of everything ever pushed. */
  lemma LastOfLast<T>(s: seq<T>, x: T, n: nat)
    requires 0 < n
    ensures Last(Last(s, n) + [x], n) == Last(s + [x], n)
  {
  }
}
