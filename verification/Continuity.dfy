/** Faults in the order and timing of frames, and when they add up to a break. */
module Continuity {
  import opened Frames
  import opened SeenMask
  import Ring

  const MAX_INT: nat := 0x7FFF_FFFF_FFFF_FFFF

  type Packet = Frame<real>

  datatype Fault =
    | NoFault | Missing | Duplicate | OutOfOrder | TimestampJump | TimestampReverse | Synthesised | Starvation
  {
    predicate Degrades() { !NoFault? }
  }

  datatype DropReason =
    | DropDuplicate | DropLate | DropTooEarly | DropTimestamp | DropBufferFull | DropNotAccepting | DropMalformed

  datatype ContinuityConfig = ContinuityConfig(maxTimestampJump: int, windowFrames: nat, restoreFrames: nat)
  {
    ghost predicate Valid() { 0 < maxTimestampJump && 0 < windowFrames && 1 <= restoreFrames }
  }

  datatype Report = Report(
    fault: Fault,
    missingBefore: nat,
    timestampDelta: int,
    gapRatio: real,
    degraded: bool,
    gapOpened: bool,
    restored: bool)

  // ---- What the detector means, over everything it has seen ----

  function Seen(packets: seq<Packet>): set<nat>
  {
    set p | p in packets :: p.sequence
  }

  function Highest(packets: seq<Packet>): Sequence
    requires packets != []
  {
    var last := packets[|packets| - 1].sequence;
    if |packets| == 1 || Highest(packets[..|packets| - 1]) < last then last else Highest(packets[..|packets| - 1])
  }

  function LatestEnd(packets: seq<Packet>): int
    requires packets != []
  {
    var last := packets[|packets| - 1].End();
    if |packets| == 1 || LatestEnd(packets[..|packets| - 1]) < last then last else LatestEnd(packets[..|packets| - 1])
  }

  /** Sequence questions come before timestamp questions. */
  function FaultOf(cfg: ContinuityConfig, packets: seq<Packet>, p: Packet): Fault
  {
    if p.synthesised then Synthesised
    else if packets == [] then NoFault
    else if p.sequence in Seen(packets) && Highest(packets) - p.sequence < WIDTH then Duplicate
    else if p.sequence < Highest(packets) then OutOfOrder
    else if p.sequence > Highest(packets) + 1 then Missing
    else if p.timestamp < LatestEnd(packets) - cfg.maxTimestampJump then TimestampReverse
    else if p.timestamp > LatestEnd(packets) + cfg.maxTimestampJump then TimestampJump
    else NoFault
  }

  function Between(low: nat, high: nat): (r: set<nat>)
    ensures forall n :: n in r <==> low < n < high
    ensures low < high ==> |r| == high - low - 1
  {
    if low + 1 >= high then {} else Between(low, high - 1) + {high - 1}
  }

  /** How many numbers were skipped, saturating at the widest signed integer. */
  function Skipped(packets: seq<Packet>, p: Packet): nat
    requires packets != [] && p.sequence > Highest(packets)
  {
    var gap := |Between(Highest(packets), p.sequence)|;
    if gap > MAX_INT then MAX_INT else gap
  }

  function Faults(verdicts: seq<bool>): nat
  {
    if verdicts == [] then 0 else Faults(verdicts[..|verdicts| - 1]) + if verdicts[|verdicts| - 1] then 1 else 0
  }

  function RatioOf(held: seq<bool>): real
  {
    if held == [] then 0.0 else Faults(held) as real / |held| as real
  }

  /** How many clean verdicts followed the last fault. */
  function CleanSince(verdicts: seq<bool>): nat
  {
    if verdicts == [] || verdicts[|verdicts| - 1] then 0 else CleanSince(verdicts[..|verdicts| - 1]) + 1
  }

  /** Broken: some fault occurred and too few clean frames have followed the last one. */
  predicate Broken(cfg: ContinuityConfig, verdicts: seq<bool>)
  {
    true in verdicts && CleanSince(verdicts) < cfg.restoreFrames
  }

  // ---- One step of each ----

  lemma SeenNext(packets: seq<Packet>, p: Packet)
    ensures Seen(packets + [p]) == Seen(packets) + {p.sequence}
  {
  }

  lemma LatestNext(packets: seq<Packet>, p: Packet)
    requires packets != []
    ensures Highest(packets + [p]) == if Highest(packets) < p.sequence then p.sequence else Highest(packets)
    ensures LatestEnd(packets + [p]) == if LatestEnd(packets) < p.End() then p.End() else LatestEnd(packets)
  {
  }

  /** Pushing a verdict into a ring of n: the count moves by the new one and the one pushed out. */
  lemma {:induction false} FaultsOfLast(verdicts: seq<bool>, bad: bool, n: nat)
    requires 0 < n
    ensures var held := Ring.Last(verdicts, n);
            Faults(Ring.Last(verdicts + [bad], n))
            == Faults(held) + (if bad then 1 else 0) - (if |held| == n && held[0] then 1 else 0)
    ensures |Ring.Last(verdicts, n)| == n && Ring.Last(verdicts, n)[0] ==> Faults(Ring.Last(verdicts, n)) >= 1
  {
    var held := Ring.Last(verdicts, n);
    var next := Ring.Last(verdicts + [bad], n);
    if |held| < n {
      assert next == held + [bad] && next[..|held|] == held;
    } else {
      assert next == held[1..] + [bad] && next[..n - 1] == held[1..];
      FaultsTail(held);
    }
  }

  lemma {:induction false} FaultsTail(s: seq<bool>)
    requires s != []
    ensures Faults(s) == Faults(s[1..]) + if s[0] then 1 else 0
  {
    if |s| > 1 {
      FaultsTail(s[..|s| - 1]);
      assert s[1..][..|s| - 2] == s[..|s| - 1][1..];
    }
  }

  lemma BrokenNext(cfg: ContinuityConfig, verdicts: seq<bool>, bad: bool)
    requires cfg.Valid()
    ensures bad ==> Broken(cfg, verdicts + [bad]) && CleanSince(verdicts + [bad]) == 0
    ensures !bad ==> CleanSince(verdicts + [bad]) == CleanSince(verdicts) + 1
    ensures !bad ==> (true in verdicts + [bad] <==> true in verdicts)
  {
  }

  class ContinuityDetector {
    const cfg: ContinuityConfig
    var highestSeq: Sequence
    var seenMask: Word
    var haveSeq: bool
    var lastEnd: int
    var haveEnd: bool
    const faults: array<bool>
    var next: nat
    var filled: nat
    var bad: nat
    var cleanRun: nat
    var degraded: bool

    /** Every frame observed, and every verdict recorded, since the last reset. */
    ghost var packets: seq<Packet>
    ghost var verdicts: seq<bool>
    ghost var held: seq<bool>

    ghost predicate SequencesValid()
      reads this
    {
      && (haveSeq <==> packets != []) && (haveEnd <==> packets != [])
      && (packets != [] ==>
            && highestSeq == Highest(packets)
            && lastEnd == LatestEnd(packets)
            && Agrees(seenMask, highestSeq, Seen(packets)))
    }

    ghost predicate FaultsValid()
      reads this, faults
    {
      && faults.Length == cfg.windowFrames
      && Ring.Holds(faults[..], next, filled, held)
      && held == Ring.Last(verdicts, cfg.windowFrames) && bad == Faults(held)
    }

    /** cleanRun counts towards a restore; after one it starts again from zero. */
    ghost predicate RunValid()
      reads this
    {
      && (degraded <==> Broken(cfg, verdicts))
      && cleanRun == if true !in verdicts || degraded then CleanSince(verdicts)
                     else CleanSince(verdicts) - cfg.restoreFrames
    }

    ghost predicate Valid()
      reads this, faults
    {
      cfg.Valid() && SequencesValid() && FaultsValid() && RunValid()
    }

    constructor (cfg: ContinuityConfig)
      requires cfg.Valid()
      ensures Valid() && packets == [] && verdicts == [] && this.cfg == cfg && fresh(faults)
    {
      this.cfg := cfg;
      faults := new bool[cfg.windowFrames](_ => false);
      highestSeq, seenMask, haveSeq, lastEnd, haveEnd := 0, ZERO, false, 0, false;
      next, filled, bad, cleanRun, degraded := 0, 0, 0, 0, false;
      packets, verdicts, held := [], [], [];
    }

    method Classify(p: Packet) returns (fault: Fault)
      requires cfg.Valid() && SequencesValid()
      ensures fault == FaultOf(cfg, packets, p)
    {
      if p.synthesised {
        return Synthesised;
      }
      if haveSeq {
        if p.sequence == highestSeq {
          HighestIsSeen(packets);
          return Duplicate;
        }
        if p.sequence < highestSeq {
          var delta := highestSeq - p.sequence;
          if delta < WIDTH {
            BitTest(seenMask, delta);
            if And(seenMask, ShiftLeft(ONE, delta)) != ZERO {
              return Duplicate;
            }
            return OutOfOrder;
          }
          return OutOfOrder;
        }
        // The increment wraps at the top of the range, where no number is above the highest.
        if p.sequence > (highestSeq + 1) % (MAX_UINT64 + 1) {
          return Missing;
        }
      }
      if haveEnd {
        if p.timestamp < lastEnd - cfg.maxTimestampJump {
          return TimestampReverse;
        }
        if p.timestamp > lastEnd + cfg.maxTimestampJump {
          return TimestampJump;
        }
      }
      return NoFault;
    }

    method AdvanceSequence(n: Sequence)
      requires haveSeq ==> Agrees(seenMask, highestSeq, Seen(packets))
      modifies this`highestSeq, this`seenMask, this`haveSeq
      ensures haveSeq && highestSeq == if old(haveSeq) && n <= old(highestSeq) then old(highestSeq) else n
      ensures Agrees(seenMask, highestSeq, if old(haveSeq) then Seen(packets) + {n} else {n})
    {
      if !haveSeq {
        StartsAgreeing(n);
        highestSeq, seenMask, haveSeq := n, ONE, true;
      } else if n > highestSeq {
        SlideAgrees(seenMask, highestSeq, Seen(packets), n);
        var shift := n - highestSeq;
        if shift >= WIDTH {
          seenMask := ONE;
        } else {
          seenMask := Or(ShiftLeft(seenMask, shift), ONE);
        }
        highestSeq := n;
      } else {
        SetAgrees(seenMask, highestSeq, Seen(packets), n);
        var delta := highestSeq - n;
        if delta < WIDTH {
          seenMask := Or(seenMask, ShiftLeft(ONE, delta));
        }
      }
    }

    method Advance(p: Packet)
      requires cfg.Valid() && SequencesValid()
      modifies this`highestSeq, this`seenMask, this`haveSeq, this`lastEnd, this`haveEnd, this`packets
      ensures SequencesValid() && packets == old(packets) + [p]
    {
      SeenNext(packets, p);
      if packets != [] { LatestNext(packets, p); }
      AdvanceSequence(p.sequence);
      var end := p.End();
      if !haveEnd || end > lastEnd {
        lastEnd, haveEnd := end, true;
      }
      packets := packets + [p];
    }

    method Store(x: bool)
      requires Ring.Holds(faults[..], next, filled, held)
      modifies this`next, this`filled, this`held, faults
      ensures Ring.Holds(faults[..], next, filled, held)
      ensures held == Ring.Last(old(held) + [x], faults.Length)
    {
      var next' := Ring.Step(faults.Length, next);
      Ring.Push(faults[..], next, next', filled, held, x);
      ghost var after := faults[..][next := x];
      faults[next] := x;
      assert faults[..] == after;
      held := Ring.Last(held + [x], faults.Length);
      next := next';
      if filled < faults.Length {
        filled := filled + 1;
      }
    }

    /** Whether the next write pushes a fault out of the window. */
    method EvictsFault() returns (evicts: bool)
      requires Ring.Holds(faults[..], next, filled, held)
      ensures evicts == (filled == faults.Length && held[0])
    {
      if filled == faults.Length {
        assert held[0] == faults[..][Ring.Slot(faults.Length, next, filled, 0)];
      }
      return filled == faults.Length && faults[next];
    }

    method Record(fault: Fault)
      requires cfg.Valid() && FaultsValid()
      modifies this`next, this`filled, this`bad, this`verdicts, this`held, faults
      ensures FaultsValid() && verdicts == old(verdicts) + [fault.Degrades()]
    {
      FaultsOfLast(verdicts, fault.Degrades(), cfg.windowFrames);
      Ring.LastOfLast(verdicts, fault.Degrades(), cfg.windowFrames);
      var evicts := EvictsFault();
      if evicts {
        bad := bad - 1;
      }
      Store(fault.Degrades());
      if fault.Degrades() {
        bad := bad + 1;
      }
      verdicts := verdicts + [fault.Degrades()];
    }

    method Settle(fault: Fault, ghost before: seq<bool>) returns (broke: bool, restored: bool)
      requires cfg.Valid() && verdicts == before + [fault.Degrades()]
      requires degraded <==> Broken(cfg, before)
      requires cleanRun == if true !in before || degraded then CleanSince(before)
                           else CleanSince(before) - cfg.restoreFrames
      modifies this`cleanRun, this`degraded
      ensures RunValid()
      ensures broke == (!Broken(cfg, before) && Broken(cfg, verdicts))
      ensures restored == (Broken(cfg, before) && !Broken(cfg, verdicts))
    {
      BrokenNext(cfg, before, fault.Degrades());
      broke, restored := false, false;
      if fault.Degrades() {
        cleanRun := 0;
        if !degraded {
          degraded, broke := true, true;
        }
      } else {
        cleanRun := cleanRun + 1;
        if degraded && cleanRun >= cfg.restoreFrames {
          degraded, cleanRun, restored := false, 0, true;
        }
      }
    }

    /** How much of the window is faults. */
    method GapRatio() returns (ratio: real)
      requires FaultsValid()
      ensures ratio == RatioOf(held)
    {
      return if filled == 0 then 0.0 else bad as real / filled as real;
    }

    /** The count of skipped numbers, and the step from the end of what came before. */
    method Measure(p: Packet, fault: Fault) returns (missing: nat, delta: int)
      requires cfg.Valid() && SequencesValid() && fault == FaultOf(cfg, packets, p)
      ensures missing == if fault == Missing then Skipped(packets, p) else 0
      ensures delta == if packets == [] then 0 else p.timestamp - LatestEnd(packets)
    {
      missing, delta := 0, 0;
      if fault == Missing {
        var gap := p.sequence - highestSeq - 1;
        missing := if gap > MAX_INT then MAX_INT else gap;
      }
      if haveEnd {
        delta := p.timestamp - lastEnd;
      }
    }

    method Observe(p: Packet) returns (r: Report)
      requires Valid()
      modifies this, faults
      ensures Valid()
      ensures packets == old(packets) + [p] && verdicts == old(verdicts) + [r.fault.Degrades()]
      ensures r.fault == FaultOf(cfg, old(packets), p)
      ensures r.missingBefore == if r.fault == Missing then Skipped(old(packets), p) else 0
      ensures r.timestampDelta == if old(packets) == [] then 0 else p.timestamp - LatestEnd(old(packets))
      ensures r.gapRatio == RatioOf(Ring.Last(verdicts, cfg.windowFrames))
      ensures r.degraded == Broken(cfg, verdicts)
      ensures r.gapOpened == (!Broken(cfg, old(verdicts)) && Broken(cfg, verdicts))
      ensures r.restored == (Broken(cfg, old(verdicts)) && !Broken(cfg, verdicts))
    {
      var fault := Classify(p);
      var missing, delta := Measure(p, fault);
      Advance(p);
      ghost var before := verdicts;
      Record(fault);
      var broke, restored := Settle(fault, before);
      var ratio := GapRatio();
      return Report(fault, missing, delta, ratio, degraded, broke, restored);
    }

    /** A failure reported upstream, for a frame that was not seen. */
    method ObserveDelivery(accepted: bool, reason: DropReason) returns (fault: Fault)
      requires Valid()
      modifies this, faults
      ensures Valid() && packets == old(packets)
      ensures fault == (if accepted then NoFault else match reason
                        case DropDuplicate => Duplicate
                        case DropLate | DropTooEarly => OutOfOrder
                        case DropTimestamp => TimestampJump
                        case DropBufferFull | DropNotAccepting => Starvation
                        case DropMalformed => NoFault)
      ensures verdicts == old(verdicts) + (if fault.Degrades() then [true] else [])
      ensures degraded == Broken(cfg, verdicts)
    {
      if accepted {
        return NoFault;
      }
      match reason {
        case DropDuplicate => fault := Duplicate;
        case DropLate | DropTooEarly => fault := OutOfOrder;
        case DropTimestamp => fault := TimestampJump;
        case DropBufferFull | DropNotAccepting => fault := Starvation;
        case DropMalformed => return NoFault;
      }
      BrokenNext(cfg, verdicts, true);
      Record(fault);
      cleanRun, degraded := 0, true;
    }

    method Clear()
      modifies faults
      ensures forall i :: 0 <= i < faults.Length ==> !faults[i]
    {
      for i := 0 to faults.Length
        invariant forall k :: 0 <= k < i ==> !faults[k]
      {
        faults[i] := false;
      }
    }

    method Reset()
      requires Valid()
      modifies this, faults
      ensures Valid() && packets == [] && verdicts == []
    {
      Clear();
      highestSeq, seenMask, haveSeq, lastEnd, haveEnd := 0, ZERO, false, 0, false;
      next, filled, bad, cleanRun, degraded := 0, 0, 0, 0, false;
      packets, verdicts, held := [], [], [];
    }
  }

  lemma {:induction false} HighestIsSeen(packets: seq<Packet>)
    requires packets != []
    ensures Highest(packets) in Seen(packets)
    ensures forall n :: n in Seen(packets) ==> n <= Highest(packets)
  {
    var before, last := packets[..|packets| - 1], packets[|packets| - 1];
    assert packets == before + [last];
    SeenNext(before, last);
    if before == [] {
      assert Highest(packets) == last.sequence && Seen(before) == {};
    } else {
      HighestIsSeen(before);
      LatestNext(before, last);
    }
  }

  // ---- The faults on the history's own terms ----

  /** The highest number and the latest end of what has come so far. */
  ghost predicate Reached(packets: seq<Packet>, highest: int, end: int)
  {
    && (exists p :: p in packets && p.sequence == highest) && (forall p :: p in packets ==> p.sequence <= highest)
    && (exists p :: p in packets && p.timestamp + p.duration == end)
    && forall p :: p in packets ==> p.timestamp + p.duration <= end
  }

  lemma {:induction false} ReachesItsExtremes(packets: seq<Packet>)
    requires packets != []
    ensures Reached(packets, Highest(packets), LatestEnd(packets))
  {
    var before, last := packets[..|packets| - 1], packets[|packets| - 1];
    assert packets == before + [last];
    if before != [] {
      ReachesItsExtremes(before);
      LatestNext(before, last);
      assert forall p :: p in before ==> p in packets;
    }
    assert last in packets;
  }

  ghost predicate Came(packets: seq<Packet>, n: nat)
  {
    exists p :: p in packets && p.sequence == n
  }

  /**
   Every frame has exactly one verdict. A made-up one is always a fault and the first real one never.
   Behind the highest number it is a duplicate if that number came and is within the 64 remembered,
   and out of order otherwise; beyond the next number something is missing; and only the next number
   is judged by its time, which may be off the latest end by the tolerance either way.
   */
  lemma FaultsExactly(cfg: ContinuityConfig, packets: seq<Packet>, p: Packet, highest: int, end: int)
    requires cfg.Valid() && packets != [] && !p.synthesised && Reached(packets, highest, end)
    ensures var fault, back := FaultOf(cfg, packets, p), highest - p.sequence;
            && (fault == Duplicate <==> Came(packets, p.sequence) && back < 64)
            && (fault == OutOfOrder <==> back > 0 && !(Came(packets, p.sequence) && back < 64))
            && (fault == Missing <==> back < -1)
            && (fault == TimestampReverse <==> back == -1 && p.timestamp < end - cfg.maxTimestampJump)
            && (fault == TimestampJump <==> back == -1 && p.timestamp > end + cfg.maxTimestampJump)
            && (fault == NoFault <==>
                  back == -1 && end - cfg.maxTimestampJump <= p.timestamp <= end + cfg.maxTimestampJump)
    ensures highest == Highest(packets) && end == LatestEnd(packets)
    ensures p.sequence > highest ==>
              Skipped(packets, p) == if p.sequence - highest - 1 > MAX_INT then MAX_INT else p.sequence - highest - 1
  {
    ReachesItsExtremes(packets);
    OneHighest(packets, highest, end);
    assert Came(packets, p.sequence) <==> p.sequence in Seen(packets);
    HighestIsSeen(packets);
  }

  lemma OneHighest(packets: seq<Packet>, highest: int, end: int)
    requires packets != [] && Reached(packets, highest, end) && Reached(packets, Highest(packets), LatestEnd(packets))
    ensures highest == Highest(packets) && end == LatestEnd(packets)
  {
    var p :| p in packets && p.sequence == highest;
    var q :| q in packets && q.sequence == Highest(packets);
    var r :| r in packets && r.timestamp + r.duration == end;
    var s :| s in packets && s.timestamp + s.duration == LatestEnd(packets);
    assert p.sequence <= Highest(packets) && q.sequence <= highest;
  }

  lemma FirstAndMadeUp(cfg: ContinuityConfig, packets: seq<Packet>, p: Packet)
    ensures FaultOf(cfg, packets, p) == Synthesised <==> p.synthesised
    ensures !p.synthesised && packets == [] ==> FaultOf(cfg, packets, p) == NoFault
  {
  }

  // ---- Degradation on the verdicts' own terms ----

  /** Degraded exactly while the last RestoreFrames verdicts, or all there are, still contain a fault. */
  lemma BrokenWhileAFaultIsRecent(cfg: ContinuityConfig, verdicts: seq<bool>)
    requires cfg.Valid()
    ensures Broken(cfg, verdicts) <==> true in Ring.Last(verdicts, cfg.restoreFrames)
  {
    CleanSinceIsTail(verdicts);
    var k, last := CleanSince(verdicts), Ring.Last(verdicts, cfg.restoreFrames);
    if Broken(cfg, verdicts) {
      assert verdicts[|verdicts| - 1 - k];
      assert last[|last| - 1 - k];
    }
  }

  /** The clean verdicts at the end are the longest such run, and a fault precedes it if there is anything before. */
  lemma {:induction false} CleanSinceIsTail(verdicts: seq<bool>)
    ensures var k := CleanSince(verdicts);
            && k <= |verdicts| && (forall i :: |verdicts| - k <= i < |verdicts| ==> !verdicts[i])
            && (k < |verdicts| ==> verdicts[|verdicts| - 1 - k])
  {
    if verdicts != [] && !verdicts[|verdicts| - 1] {
      CleanSinceIsTail(verdicts[..|verdicts| - 1]);
    }
  }

  lemma {:induction false} FaultsAreCounted(verdicts: seq<bool>)
    ensures Faults(verdicts) == |set i | 0 <= i < |verdicts| && verdicts[i]|
  {
    if verdicts != [] {
      var n := |verdicts| - 1;
      var before := verdicts[..n];
      FaultsAreCounted(before);
      var bad := set i | 0 <= i < n && before[i];
      var all := set i | 0 <= i < |verdicts| && verdicts[i];
      if verdicts[n] { assert all == bad + {n}; } else { assert all == bad; }
    }
  }

  /** The ratio reported, of a window that holds anything, is the share of its verdicts that are faults. */
  lemma RatioIsTheShare(verdicts: seq<bool>, n: nat)
    requires 0 < n && verdicts != []
    ensures var held := Ring.Last(verdicts, n);
            RatioOf(held) * |held| as real == |set i | 0 <= i < |held| && held[i]| as real
    ensures RatioOf([]) == 0.0
  {
    FaultsAreCounted(Ring.Last(verdicts, n));
  }
}
