/** What floor control guarantees over whole conversations. */
module TurnManagerTheorems {
  import opened Frames
  import opened TurnManager

  /** One call, with the instants its clock readings gave. */
  datatype Call =
    | Acquire(p: Party, nonYielding: bool, now: int)
    | Release(p: Party, expectation: Expectation, now: int, openedAt: int)
    | NoteOverlap(p: Party, now: int)
    | ClearOverlap(now: int)
    | ForceYield(p: Party, kind: Kind, now: int)
  {
    function Latest(): int { if Release? then openedAt else now }
  }

  function After(cfg: TurnConfig, f: Floor, call: Call): Floor
  {
    match call
    case Acquire(p, nonYielding, now) => Acquired(cfg, f, p, nonYielding, now).floor
    case Release(p, expectation, now, openedAt) => Released(f, p, expectation, now, openedAt)
    case NoteOverlap(p, now) => Noted(cfg, f, p, now).floor
    case ClearOverlap(now) => f.(overlapStart := None)
    case ForceYield(p, kind, now) => Forced(f, p, kind, now)
  }

  function Run(cfg: TurnConfig, f: Floor, calls: seq<Call>): Floor
    decreases |calls|
  {
    if calls == [] then f else After(cfg, Run(cfg, f, calls[..|calls| - 1]), calls[|calls| - 1])
  }

  /** The clock never goes back, starting from t. */
  ghost predicate Ordered(calls: seq<Call>, t: int)
  {
    && (forall i :: 0 <= i < |calls| ==> t <= calls[i].now <= calls[i].Latest())
    && forall i, j :: 0 <= i < j < |calls| ==> calls[i].Latest() <= calls[j].now
  }

  // ---- Turns never overlap ----

  ghost predicate Separate(turns: seq<Turn>)
  {
    && (forall i :: 0 <= i < |turns| ==>
          turns[i].id == i + 1 && turns[i].endedAt.Some? && turns[i].startedAt <= turns[i].endedAt.value)
    && forall i, j :: 0 <= i < j < |turns| ==> turns[i].endedAt.value <= turns[j].startedAt
  }

  /** The floor as left by the time t. */
  ghost predicate Sound(f: Floor, t: int)
  {
    && Separate(f.history)
    && (forall i :: 0 <= i < |f.history| ==> f.history[i].endedAt.value <= t)
    && f.nextId == |f.history| + (if f.current.Some? then 1 else 0)
    && (f.current.Some? ==> SoundTurn(f.current.value, f.history, t) && f.current.value.id == f.nextId)
    && (f.nonYielding ==> f.current.Some? && f.overlapStart.None?)
    && (f.queued.Some? ==> f.nonYielding && f.queued.value.party != f.current.value.owner)
    && (f.overlapStart.Some? ==> f.current.Some? && f.current.value.startedAt <= f.overlapStart.value <= t)
  }

  ghost predicate SoundTurn(turn: Turn, history: seq<Turn>, t: int)
  {
    && turn.endedAt.None? && !turn.yielded && turn.startedAt <= t
    && forall i :: 0 <= i < |history| && history[i].endedAt.Some? ==> history[i].endedAt.value <= turn.startedAt
  }

  lemma ClosedIsSound(f: Floor, t: int, now: int, yielded: bool, kind: Kind)
    requires Sound(f, t) && f.current.Some? && t <= now
    ensures var f' := Closed(f, now, yielded, kind); Sound(f'.(queued := None), now) && f'.current.None?
  {
  }

  lemma OpenedIsSound(f: Floor, t: int, p: Party, nonYielding: bool, now: int)
    requires Sound(f, t) && f.current.None? && t <= now
    ensures Sound(Opened(f, p, nonYielding, now), now)
  {
  }

  lemma AcquiredIsSound(cfg: TurnConfig, f: Floor, t: int, p: Party, nonYielding: bool, now: int)
    requires Sound(f, t) && t <= now
    ensures Sound(Acquired(cfg, f, p, nonYielding, now).floor, now)
  {
    if f.current.None? {
      OpenedIsSound(f, t, p, nonYielding, now);
    } else if f.current.value.owner != p {
      ArbitrationIsSound(cfg, f, t, p, now);
      var a := Arbitration(cfg, f, p, now, ByUser);
      if a.decision == Granted {
        ClosedIsSound(a.floor, now, now, true, ByUser);
        OpenedIsSound(Closed(a.floor, now, true, ByUser), now, p, false, now);
      }
    }
  }

  lemma ArbitrationIsSound(cfg: TurnConfig, f: Floor, t: int, p: Party, now: int)
    requires Sound(f, t) && t <= now && f.current.Some? && f.current.value.owner != p
    ensures var a := Arbitration(cfg, f, p, now, ByUser);
            Sound(a.floor, now) && (a.decision == Granted ==> a.floor.queued.None? && !f.nonYielding)
  {
  }

  lemma ReleasedIsSound(f: Floor, t: int, p: Party, expectation: Expectation, now: int, openedAt: int)
    requires Sound(f, t) && t <= now <= openedAt
    ensures Sound(Released(f, p, expectation, now, openedAt), openedAt)
  {
    if f.current.Some? && f.current.value.owner == p {
      var f1 := f.(current := Some(f.current.value.(expectation := expectation)));
      ClosedIsSound(f1, t, now, false, NoInterruption);
      var f2 := Closed(f1, now, false, NoInterruption);
      if f2.queued.Some? {
        OpenedIsSound(f2.(queued := None), now, f2.queued.value.party, false, openedAt);
      }
    }
  }

  lemma ForcedIsSound(f: Floor, t: int, p: Party, kind: Kind, now: int)
    requires Sound(f, t) && t <= now
    ensures Sound(Forced(f, p, kind, now), now)
  {
  }

  lemma CallIsSound(cfg: TurnConfig, f: Floor, t: int, call: Call)
    requires Sound(f, t) && t <= call.now <= call.Latest()
    ensures Sound(After(cfg, f, call), call.Latest())
  {
    match call
    case Acquire(p, nonYielding, now) => AcquiredIsSound(cfg, f, t, p, nonYielding, now);
    case Release(p, expectation, now, openedAt) => ReleasedIsSound(f, t, p, expectation, now, openedAt);
    case NoteOverlap(p, now) =>
      if f.current.Some? && f.current.value.owner != p { ArbitrationIsSound(cfg, f, t, p, now); }
    case ClearOverlap(now) =>
    case ForceYield(p, kind, now) => ForcedIsSound(f, t, p, kind, now);
  }

  function LatestOf(calls: seq<Call>, t: int): int
  {
    if calls == [] then t else calls[|calls| - 1].Latest()
  }

  /** After any calls, closed turns are numbered 1, 2, 3, ... and no two of them share an instant. */
  lemma {:induction false} RunsAreSound(cfg: TurnConfig, f: Floor, t: int, calls: seq<Call>)
    requires Sound(f, t) && Ordered(calls, t)
    ensures Sound(Run(cfg, f, calls), LatestOf(calls, t))
    decreases |calls|
  {
    if calls != [] {
      var n := |calls| - 1;
      RunsAreSound(cfg, f, t, calls[..n]);
      CallIsSound(cfg, Run(cfg, f, calls[..n]), LatestOf(calls[..n], t), calls[n]);
    }
  }

  // ---- A turn that does not yield ----

  /** The calls that may end a turn held by owner without contention. */
  predicate Ends(call: Call, owner: Party)
  {
    call.ForceYield? || (call.Release? && call.p == owner)
  }

  /** The first party other than owner to ask for the floor. */
  function FirstContender(calls: seq<Call>, owner: Party): Option<Party>
  {
    if calls == [] then None
    else
      var earlier, call := FirstContender(calls[..|calls| - 1], owner), calls[|calls| - 1];
      if earlier.None? && (call.Acquire? || call.NoteOverlap?) && call.p != owner then Some(call.p) else earlier
  }

  function PartyOf(request: Option<Request>): Option<Party>
  {
    if request.Some? then Some(request.value.party) else None
  }

  /** Nothing but its owner's release or a forced yield ends it; the first party to contend is the one remembered. */
  lemma {:induction false} NonYieldingTurnHolds(cfg: TurnConfig, f: Floor, calls: seq<Call>)
    requires f.current.Some? && f.nonYielding && f.queued.None?
    requires forall i :: 0 <= i < |calls| ==> !Ends(calls[i], f.current.value.owner)
    ensures var f' := Run(cfg, f, calls);
            && f'.nonYielding && f'.current == f.current && f'.history == f.history
            && PartyOf(f'.queued) == FirstContender(calls, f.current.value.owner)
    decreases |calls|
  {
    if calls != [] {
      var n := |calls| - 1;
      NonYieldingTurnHolds(cfg, f, calls[..n]);
    }
  }

  /** When its owner lets go, the floor passes to whoever asked first, and to nobody if none did. */
  lemma TheFirstContenderIsHeard(
    cfg: TurnConfig, f: Floor, calls: seq<Call>, expectation: Expectation, now: int, openedAt: int)
    requires f.current.Some? && f.nonYielding && f.queued.None?
    requires forall i :: 0 <= i < |calls| ==> !Ends(calls[i], f.current.value.owner)
    ensures var owner := f.current.value.owner;
            var f' := Released(Run(cfg, f, calls), owner, expectation, now, openedAt);
            && |f'.history| == |f.history| + 1 && f'.queued.None? && !f'.nonYielding
            && !f'.history[|f.history|].yielded && f'.history[|f.history|].id == f.current.value.id
            && (if f'.current.Some? then Some(f'.current.value.owner) else None) == FirstContender(calls, owner)
  {
    NonYieldingTurnHolds(cfg, f, calls);
  }

  // ---- Contention for a turn that yields ----

  /** When a party other than owner first asked for the floor. */
  function FirstOverlap(calls: seq<Call>, owner: Party): Option<int>
  {
    if calls == [] then None
    else
      var earlier, call := FirstOverlap(calls[..|calls| - 1], owner), calls[|calls| - 1];
      if earlier.None? && (call.Acquire? || call.NoteOverlap?) && call.p != owner then Some(call.now) else earlier
  }

  /** The turn open in f is still open after every one of the calls. */
  ghost predicate StaysOpen(cfg: TurnConfig, f: Floor, calls: seq<Call>)
  {
    forall i :: 0 <= i <= |calls| ==> OpenTurn(Run(cfg, f, calls[..i])) == OpenTurn(f)
  }

  function OpenTurn(f: Floor): nat
  {
    if f.current.Some? then f.current.value.id else 0
  }

  lemma {:induction false} OverlapIsTimedFromItsStart(cfg: TurnConfig, f: Floor, t: int, calls: seq<Call>)
    requires Sound(f, t) && f.current.Some? && !f.nonYielding && f.overlapStart.None? && Ordered(calls, t)
    requires StaysOpen(cfg, f, calls) && forall i :: 0 <= i < |calls| ==> !calls[i].ClearOverlap?
    ensures var f' := Run(cfg, f, calls);
            && !f'.nonYielding && f'.current.Some? && f'.current.value.owner == f.current.value.owner
            && f'.overlapStart == FirstOverlap(calls, f.current.value.owner)
    decreases |calls|
  {
    assert calls[..|calls|] == calls;
    if calls != [] {
      var n := |calls| - 1;
      var before := calls[..n];
      forall i | 0 <= i <= n ensures OpenTurn(Run(cfg, f, before[..i])) == OpenTurn(f) {
        assert before[..i] == calls[..i];
      }
      OverlapIsTimedFromItsStart(cfg, f, t, before);
      RunsAreSound(cfg, f, t, before);
      TurnEndsOnlyByReplacement(cfg, Run(cfg, f, before), LatestOf(before, t), calls[n]);
    }
  }

  /** A call that leaves a turn's number in place leaves its owner in place too. */
  lemma TurnEndsOnlyByReplacement(cfg: TurnConfig, f: Floor, t: int, call: Call)
    requires Sound(f, t) && f.current.Some? && OpenTurn(After(cfg, f, call)) == OpenTurn(f)
    ensures After(cfg, f, call).current == f.current && After(cfg, f, call).history == f.history
    ensures !call.ForceYield? && (call.Release? ==> call.p != f.current.value.owner)
  {
  }

  /**
   However the audio path and the engine contend in between, an attempt on a yielding turn
   succeeds exactly when it is the caller's and the overlap has lasted: past the grace, and past
   a backchannel when the agent holds the floor.
   */
  lemma SustainedOverlapDecides(cfg: TurnConfig, f: Floor, t: int, calls: seq<Call>, p: Party, now: int)
    requires cfg.Valid() && Sound(f, t) && f.current.Some? && !f.nonYielding && f.overlapStart.None?
    requires Ordered(calls, t) && StaysOpen(cfg, f, calls) && forall i :: 0 <= i < |calls| ==> !calls[i].ClearOverlap?
    requires FirstOverlap(calls, f.current.value.owner).Some? && p != f.current.value.owner
    ensures var owner := f.current.value.owner;
            var overlap := now - FirstOverlap(calls, owner).value;
            Acquired(cfg, Run(cfg, f, calls), p, false, now).decision == Granted
            <==> p == Caller && overlap >= cfg.overlapGrace && (owner == Agent ==> overlap > cfg.backchannelMax)
  {
    OverlapIsTimedFromItsStart(cfg, f, t, calls);
  }

  /** The turn after history[i]: the next closed one, or the open one. */
  function NextTurn(f: Floor, i: nat): Option<Turn>
    requires i < |f.history|
  {
    if i + 1 < |f.history| then Some(f.history[i + 1]) else f.current
  }

  /** The turn was cut short by the caller, whose own turn starts at that very instant. */
  predicate YieldedToTheCaller(f: Floor, i: nat)
    requires i < |f.history|
  {
    var turn, next := f.history[i], NextTurn(f, i);
    && turn.owner != Caller && turn.interruptedBy == ByUser
    && next.Some? && next.value.owner == Caller && turn.endedAt == Some(next.value.startedAt)
  }

  /** A call takes the floor from its holder only for the caller, and never from a turn that does not yield. */
  lemma OnlyTheCallerWins(cfg: TurnConfig, f: Floor, t: int, call: Call)
    requires Sound(f, t) && !call.ForceYield?
    ensures var f' := After(cfg, f, call);
            || f'.history == f.history
            || (f.current.Some? && |f'.history| == |f.history| + 1 && f'.history[..|f.history|] == f.history
                && f'.history[|f.history|].startedAt == f.current.value.startedAt
                && f'.history[|f.history|].owner == f.current.value.owner
                && (f'.history[|f.history|].yielded ==> !f.nonYielding && YieldedToTheCaller(f', |f.history|)))
    ensures After(cfg, f, call).history == f.history && f.current.Some? ==>
              After(cfg, f, call).current == f.current
  {
  }

  /** Unless the floor is forced, every turn ever cut short was cut short by the caller. */
  lemma {:induction false} TurnsYieldOnlyToTheCaller(cfg: TurnConfig, t: int, calls: seq<Call>, i: nat)
    requires Ordered(calls, t) && forall k :: 0 <= k < |calls| ==> !calls[k].ForceYield?
    requires var f := Run(cfg, EMPTY, calls); i < |f.history| && f.history[i].yielded
    ensures YieldedToTheCaller(Run(cfg, EMPTY, calls), i)
    decreases |calls|
  {
    var n := |calls| - 1;
    var f, f' := Run(cfg, EMPTY, calls[..n]), Run(cfg, EMPTY, calls);
    RunsAreSound(cfg, EMPTY, t, calls[..n]);
    OnlyTheCallerWins(cfg, f, LatestOf(calls[..n], t), calls[n]);
    if i < |f.history| {
      assert f'.history[i] == f.history[i];
      TurnsYieldOnlyToTheCaller(cfg, t, calls[..n], i);
    }
  }

  // ---- What the agent's last turn asked for ----

  lemma LastExpectationAppends(history: seq<Turn>, turn: Turn)
    ensures LastExpectationOf(history + [turn])
            == if turn.owner == Agent then turn.expectation else LastExpectationOf(history)
  {
  }

  /** An open turn has asked for nothing yet. */
  lemma {:induction false} OpenTurnsExpectNothing(cfg: TurnConfig, calls: seq<Call>)
    ensures var f := Run(cfg, EMPTY, calls); f.current.Some? ==> f.current.value.expectation == Nothing
    decreases |calls|
  {
    if calls != [] {
      OpenTurnsExpectNothing(cfg, calls[..|calls| - 1]);
    }
  }

  /** The expectation stands until the agent next loses or releases the floor; losing it leaves no expectation. */
  lemma ExpectationAfter(cfg: TurnConfig, calls: seq<Call>, call: Call)
    ensures var f := Run(cfg, EMPTY, calls);
            var f' := After(cfg, f, call);
            LastExpectationOf(f'.history) ==
              if f'.history == f.history || f.current.value.owner != Agent then LastExpectationOf(f.history)
              else if call.Release? then call.expectation
              else Nothing
  {
    var f := Run(cfg, EMPTY, calls);
    var f' := After(cfg, f, call);
    OpenTurnsExpectNothing(cfg, calls);
    if |f'.history| > |f.history| {
      LastExpectationAppends(f.history, f'.history[|f.history|]);
    }
  }
}
