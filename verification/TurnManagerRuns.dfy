/** Floor control from the first call on: how a turn comes to be, and what it then takes to end it. */
module TurnManagerRuns {
  import opened Frames
  import opened TurnManager
  import opened TurnManagerTheorems

  lemma {:induction false} RunJoins(cfg: TurnConfig, f: Floor, a: seq<Call>, b: seq<Call>)
    ensures Run(cfg, f, a + b) == Run(cfg, Run(cfg, f, a), b)
    decreases |b|
  {
    if b == [] {
      assert a + b == a;
    } else {
      assert (a + b)[..|a + b| - 1] == a + b[..|b| - 1];
      RunJoins(cfg, f, a, b[..|b| - 1]);
    }
  }

  function Holder(f: Floor): Option<Party>
  {
    if f.current.Some? then Some(f.current.value.owner) else None
  }

  // ---- A free floor ----

  /** From the start, these calls leave nobody with the floor. */
  ghost predicate LeavesFree(cfg: TurnConfig, t: int, calls: seq<Call>)
  {
    Ordered(calls, t) && Holder(Run(cfg, EMPTY, calls)) == None
  }

  /** Whoever asks for a free floor has it, at once, in a turn of its own numbered next. */
  lemma FreeFloorIsTaken(cfg: TurnConfig, t: int, before: seq<Call>, p: Party, nonYielding: bool, now: int)
    requires LeavesFree(cfg, t, before)
    ensures var f, f' := Run(cfg, EMPTY, before), Run(cfg, EMPTY, before + [Acquire(p, nonYielding, now)]);
            && Acquired(cfg, f, p, nonYielding, now).decision == Granted
            && f'.current == Some(Turn(|f.history| + 1, p, now, None, false, NoInterruption, Nothing))
            && f'.history == f.history && f'.queued == None && f'.overlapStart == None
            && f'.nonYielding == nonYielding && f'.nextId == |f.history| + 1
  {
    RunsAreSound(cfg, EMPTY, t, before);
    RunJoins(cfg, EMPTY, before, [Acquire(p, nonYielding, now)]);
    OneCall(cfg, Run(cfg, EMPTY, before), Acquire(p, nonYielding, now));
  }

  lemma OneCall(cfg: TurnConfig, f: Floor, call: Call)
    ensures Run(cfg, f, [call]) == After(cfg, f, call)
  {
    assert [call][..0] == [];
  }

  // ---- A turn that does not yield ----

  /** From the start: a free floor taken by p for a turn that does not yield, then calls that may not end it. */
  ghost predicate Announcing(cfg: TurnConfig, t: int, before: seq<Call>, p: Party, now: int, calls: seq<Call>)
  {
    LeavesFree(cfg, t, before) && forall i :: 0 <= i < |calls| ==> !Ends(calls[i], p)
  }

  function Announced(cfg: TurnConfig, before: seq<Call>, p: Party, now: int, calls: seq<Call>): Floor
  {
    Run(cfg, EMPTY, before + [Acquire(p, true, now)] + calls)
  }

  /**
   Then nothing has changed but who is waiting: the turn is the one p took, no other was closed,
   and whoever else asks is queued, however long they have been speaking.
   */
  lemma AnnouncementIsNeverTaken(
    cfg: TurnConfig, t: int, before: seq<Call>, p: Party, now: int, calls: seq<Call>,
    other: Party, nonYielding: bool, later: int)
    requires Announcing(cfg, t, before, p, now, calls) && other != p
    ensures var f, f' := Run(cfg, EMPTY, before), Announced(cfg, before, p, now, calls);
            && f'.current == Some(Turn(|f.history| + 1, p, now, None, false, NoInterruption, Nothing))
            && f'.history == f.history && PartyOf(f'.queued) == FirstContender(calls, p)
            && Acquired(cfg, f', other, nonYielding, later).decision == Queued
            && Noted(cfg, f', other, later).decision == Queued
  {
    FreeFloorIsTaken(cfg, t, before, p, true, now);
    RunJoins(cfg, EMPTY, before + [Acquire(p, true, now)], calls);
    NonYieldingTurnHolds(cfg, Run(cfg, EMPTY, before + [Acquire(p, true, now)]), calls);
  }

  /** When p lets go, its turn is closed unyielded and the floor is the first contender's, or nobody's. */
  lemma AnnouncementIsHandedOn(
    cfg: TurnConfig, t: int, before: seq<Call>, p: Party, now: int, calls: seq<Call>,
    expectation: Expectation, closedAt: int, openedAt: int)
    requires Announcing(cfg, t, before, p, now, calls)
    ensures var f := Run(cfg, EMPTY, before);
            var f' := Released(Announced(cfg, before, p, now, calls), p, expectation, closedAt, openedAt);
            && Holder(f') == FirstContender(calls, p) && f'.queued == None && !f'.nonYielding
            && (f'.current.Some? ==> f'.current.value.startedAt == openedAt)
            && f'.history == f.history
                             + [Turn(|f.history| + 1, p, now, Some(closedAt), false, NoInterruption, expectation)]
  {
    FreeFloorIsTaken(cfg, t, before, p, true, now);
    RunJoins(cfg, EMPTY, before + [Acquire(p, true, now)], calls);
    NonYieldingTurnHolds(cfg, Run(cfg, EMPTY, before + [Acquire(p, true, now)]), calls);
  }

  /** The turn that does not yield, opened by call k, is still open. */
  ghost predicate AnnouncedAt(cfg: TurnConfig, calls: seq<Call>, k: nat)
  {
    && k < |calls| && calls[k].Acquire? && calls[k].nonYielding && Holder(Run(cfg, EMPTY, calls[..k])) == None
    && forall i :: k < i < |calls| ==> !Ends(calls[i], calls[k].p)
  }

  lemma NonYieldingAfter(cfg: TurnConfig, f: Floor, t: int, call: Call)
    requires Sound(f, t) && After(cfg, f, call).nonYielding
    ensures f.nonYielding ==> !Ends(call, f.current.value.owner) && After(cfg, f, call).current == f.current
    ensures !f.nonYielding ==> f.current.None? && call.Acquire? && call.nonYielding
    ensures !f.nonYielding ==> Holder(After(cfg, f, call)) == Some(call.p)
  {
  }

  lemma {:induction false} NonYieldingWasAnnounced(cfg: TurnConfig, t: int, calls: seq<Call>) returns (k: nat)
    requires Ordered(calls, t) && Run(cfg, EMPTY, calls).nonYielding
    ensures AnnouncedAt(cfg, calls, k) && Holder(Run(cfg, EMPTY, calls)) == Some(calls[k].p)
    decreases |calls|
  {
    var n := |calls| - 1;
    var before, f := calls[..n], Run(cfg, EMPTY, calls[..n]);
    RunsAreSound(cfg, EMPTY, t, before);
    NonYieldingAfter(cfg, f, LatestOf(before, t), calls[n]);
    if f.nonYielding {
      k := NonYieldingWasAnnounced(cfg, t, before);
      StillAnnounced(cfg, calls, k);
    } else {
      k := n;
    }
  }

  lemma StillAnnounced(cfg: TurnConfig, calls: seq<Call>, k: nat)
    requires calls != [] && AnnouncedAt(cfg, calls[..|calls| - 1], k) && !Ends(calls[|calls| - 1], calls[k].p)
    ensures AnnouncedAt(cfg, calls, k)
  {
    assert calls[..|calls| - 1][..k] == calls[..k];
  }

  /** There is no other way to a turn that does not yield, and no other way out of one. */
  lemma NonYieldingExactly(cfg: TurnConfig, t: int, calls: seq<Call>)
    requires Ordered(calls, t)
    ensures Run(cfg, EMPTY, calls).nonYielding <==> exists k: nat :: AnnouncedAt(cfg, calls, k)
  {
    if Run(cfg, EMPTY, calls).nonYielding {
      var k := NonYieldingWasAnnounced(cfg, t, calls);
    }
    if k: nat :| AnnouncedAt(cfg, calls, k) {
      var before, call := calls[..k], calls[k];
      assert calls == before + [call] + calls[k + 1..];
      assert call == Acquire(call.p, true, call.now);
      FreeFloorIsTaken(cfg, t, before, call.p, true, call.now);
      RunJoins(cfg, EMPTY, before + [call], calls[k + 1..]);
      NonYieldingTurnHolds(cfg, Run(cfg, EMPTY, before + [call]), calls[k + 1..]);
    }
  }

  // ---- A turn that yields ----

  /** How long others have spoken over the turn by now; a first word is timed from itself. */
  function Overlapped(calls: seq<Call>, owner: Party, now: int): int
  {
    if FirstOverlap(calls, owner).Some? then now - FirstOverlap(calls, owner).value else 0
  }

  /**
   An attempt on a yielding turn: brief, it is a backchannel, and against the agent so is the caller's
   up to the limit; after that the caller has the floor and nobody else does.
   */
  ghost predicate Ruled(cfg: TurnConfig, owner: Party, p: Party, overlap: int, decision: FloorDecision)
  {
    && (decision == Backchannel <==>
          overlap < cfg.overlapGrace || (p == Caller && owner == Agent && overlap <= cfg.backchannelMax))
    && (decision == Granted <==>
          p == Caller && overlap >= cfg.overlapGrace && (owner == Agent ==> overlap > cfg.backchannelMax))
    && (decision == Denied <==> p != Caller && overlap >= cfg.overlapGrace)
  }

  lemma ContentionIsRuled(cfg: TurnConfig, f: Floor, owner: Party, p: Party, later: int)
    requires cfg.Valid() && Holder(f) == Some(owner) && !f.nonYielding && p != owner
    ensures var a := Acquired(cfg, f, p, false, later);
            && Ruled(cfg, owner, p, if f.overlapStart.Some? then later - f.overlapStart.value else 0, a.decision)
            && Noted(cfg, f, p, later).decision == a.decision
            && (a.decision == Granted ==>
                  var cut := f.current.value.(endedAt := Some(later), yielded := true, interruptedBy := ByUser);
                  && Holder(a.floor) == Some(p) && a.floor.current.value.startedAt == later
                  && a.floor.history == f.history + [cut])
            && (a.decision != Granted ==> a.floor.current == f.current && a.floor.history == f.history)
  {
  }

  lemma ContentionIsTimed(
    cfg: TurnConfig, t: int, before: seq<Call>, owner: Party, now: int, calls: seq<Call>)
    requires LeavesFree(cfg, t, before)
    requires Ordered(before + [Acquire(owner, false, now)] + calls, t)
    requires StaysOpen(cfg, Run(cfg, EMPTY, before + [Acquire(owner, false, now)]), calls)
    requires forall i :: 0 <= i < |calls| ==> !calls[i].ClearOverlap?
    ensures var f := Run(cfg, EMPTY, before + [Acquire(owner, false, now)] + calls);
            Holder(f) == Some(owner) && !f.nonYielding && f.overlapStart == FirstOverlap(calls, owner)
  {
    var opening := before + [Acquire(owner, false, now)];
    var whole := opening + calls;
    assert whole[..|opening|] == opening && whole[|opening|..] == calls;
    FreeFloorIsTaken(cfg, t, before, owner, false, now);
    RunJoins(cfg, EMPTY, opening, calls);
    Splits(opening, calls, t);
    RunsAreSound(cfg, EMPTY, t, opening);
    OverlapIsTimedFromItsStart(cfg, Run(cfg, EMPTY, opening), LatestOf(opening, t), calls);
  }

  lemma Splits(a: seq<Call>, b: seq<Call>, t: int)
    requires Ordered(a + b, t)
    ensures Ordered(a, t) && Ordered(b, LatestOf(a, t))
  {
    forall i | 0 <= i < |a| ensures t <= a[i].now <= a[i].Latest() {
      assert (a + b)[i] == a[i];
    }
    forall i, j | 0 <= i < j < |a| ensures a[i].Latest() <= a[j].now {
      assert (a + b)[i] == a[i] && (a + b)[j] == a[j];
    }
    forall i | 0 <= i < |b| ensures LatestOf(a, t) <= b[i].now <= b[i].Latest() {
      assert (a + b)[|a| + i] == b[i];
      if a != [] { assert (a + b)[|a| - 1] == a[|a| - 1]; }
    }
    forall i, j | 0 <= i < j < |b| ensures b[i].Latest() <= b[j].now {
      assert (a + b)[|a| + i] == b[i] && (a + b)[|a| + j] == b[j];
    }
  }

  /** From the start: a free floor taken in the ordinary way is lost exactly to the caller's sustained overlap. */
  lemma OrdinaryTurnsYield(
    cfg: TurnConfig, t: int, before: seq<Call>, owner: Party, now: int, calls: seq<Call>, p: Party, later: int)
    requires cfg.Valid() && LeavesFree(cfg, t, before) && p != owner
    requires Ordered(before + [Acquire(owner, false, now)] + calls, t)
    requires StaysOpen(cfg, Run(cfg, EMPTY, before + [Acquire(owner, false, now)]), calls)
    requires forall i :: 0 <= i < |calls| ==> !calls[i].ClearOverlap?
    ensures var f := Run(cfg, EMPTY, before + [Acquire(owner, false, now)] + calls);
            var a := Acquired(cfg, f, p, false, later);
            && Holder(f) == Some(owner) && Ruled(cfg, owner, p, Overlapped(calls, owner, later), a.decision)
            && Noted(cfg, f, p, later).decision == a.decision
            && (a.decision == Granted ==>
                  var cut := f.current.value.(endedAt := Some(later), yielded := true, interruptedBy := ByUser);
                  && Holder(a.floor) == Some(p) && a.floor.current.value.startedAt == later
                  && a.floor.history == f.history + [cut])
            && (a.decision != Granted ==> a.floor.current == f.current && a.floor.history == f.history)
  {
    ContentionIsTimed(cfg, t, before, owner, now, calls);
    ContentionIsRuled(cfg, Run(cfg, EMPTY, before + [Acquire(owner, false, now)] + calls), owner, p, later);
  }

  // ---- What does not negotiate ----

  /** A forced yield takes the floor at once; the turn cut short says by what, and nobody is left queued. */
  lemma ForceTakesTheFloor(cfg: TurnConfig, t: int, calls: seq<Call>, p: Party, kind: Kind, now: int)
    requires Ordered(calls, t)
    ensures var f := Run(cfg, EMPTY, calls);
            var f' := Forced(f, p, kind, now);
            && f'.current == Some(Turn(|f'.history| + 1, p, now, None, false, NoInterruption, Nothing))
            && f'.queued == None && !f'.nonYielding && f'.overlapStart == None
            && (f.current == None ==> f'.history == f.history)
            && (f.current.Some? ==>
                  f'.history == f.history + [Turn(|f.history| + 1, f.current.value.owner, f.current.value.startedAt,
                                                  Some(now), true, kind, Nothing)])
  {
    RunsAreSound(cfg, EMPTY, t, calls);
    OpenTurnsExpectNothing(cfg, calls);
    ForceCloses(Run(cfg, EMPTY, calls), LatestOf(calls, t), p, kind, now);
  }

  lemma ForceCloses(f: Floor, t: int, p: Party, kind: Kind, now: int)
    requires Sound(f, t) && (f.current.Some? ==> f.current.value.expectation == Nothing)
    ensures var f' := Forced(f, p, kind, now);
            && f'.current == Some(Turn(|f'.history| + 1, p, now, None, false, NoInterruption, Nothing))
            && f'.queued == None && !f'.nonYielding && f'.overlapStart == None
            && (f.current == None ==> f'.history == f.history)
            && (f.current.Some? ==>
                  f'.history == f.history + [Turn(|f.history| + 1, f.current.value.owner, f.current.value.startedAt,
                                                  Some(now), true, kind, Nothing)])
  {
  }

  /** Emergencies and transfers are granted even against a turn that does not yield. */
  lemma EmergenciesPreempt(cfg: TurnConfig, f: Floor, requester: Party, now: int, kind: Kind)
    requires f.current.Some? && f.nonYielding
    ensures var a := Arbitration(cfg, f, requester, now, kind);
            && (a.decision == Granted <==> kind in {Emergency, Transfer})
            && (a.decision != Granted ==> a.decision == Queued)
            && (f.queued.Some? || a.decision == Granted ==> a.floor == f)
  {
  }

  /** A release by anyone else changes nothing; the owner's closes the turn with what it asked for, at that instant. */
  lemma OnlyTheOwnerReleases(
    cfg: TurnConfig, t: int, calls: seq<Call>, p: Party, expectation: Expectation, closedAt: int, openedAt: int)
    requires Ordered(calls, t)
    ensures var f := Run(cfg, EMPTY, calls);
            var f' := Released(f, p, expectation, closedAt, openedAt);
            && (Holder(f) != Some(p) ==> f' == f)
            && (Holder(f) == Some(p) ==>
                  && f'.history == f.history + [Turn(|f.history| + 1, p, f.current.value.startedAt, Some(closedAt),
                                                     false, NoInterruption, expectation)]
                  && Holder(f') == PartyOf(f.queued) && f'.queued == None && !f'.nonYielding
                  && f'.overlapStart == None)
  {
    RunsAreSound(cfg, EMPTY, t, calls);
    OpenTurnsAreFresh(cfg, calls);
  }

  lemma {:induction false} OpenTurnsAreFresh(cfg: TurnConfig, calls: seq<Call>)
    ensures var f := Run(cfg, EMPTY, calls);
            f.current.Some? ==>
              && !f.current.value.yielded && f.current.value.endedAt == None
              && f.current.value.interruptedBy == NoInterruption
    decreases |calls|
  {
    if calls != [] {
      OpenTurnsAreFresh(cfg, calls[..|calls| - 1]);
    }
  }
}
