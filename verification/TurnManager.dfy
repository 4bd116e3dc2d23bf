/** Which party holds the floor, and how contention for it is settled. */
module TurnManager {
  import opened Frames

  datatype Party = NoParty | Caller | Agent | System

  datatype Kind = NoInterruption | ByUser | ByAi | ByProvider | Emergency | Transfer

  datatype Expectation = Nothing | Disambiguation | YesNo | SlotValue

  /** Times are wall-clock instants; an open turn has no end. */
  datatype Turn = Turn(
    id: nat,
    owner: Party,
    startedAt: int,
    endedAt: Option<int>,
    yielded: bool,
    interruptedBy: Kind,
    expectation: Expectation)

  datatype Request = Request(party: Party, at: int, kind: Kind)

  datatype FloorDecision = Granted | Denied | Backchannel | Queued

  datatype TurnConfig = TurnConfig(overlapGrace: int, backchannelMax: int)
  {
    ghost predicate Valid() { 0 <= overlapGrace <= backchannelMax }
  }

  datatype Floor = Floor(
    current: Option<Turn>,
    history: seq<Turn>,
    nextId: nat,
    overlapStart: Option<int>,
    queued: Option<Request>,
    nonYielding: bool)

  const EMPTY: Floor := Floor(None, [], 0, None, None, false)

  // ---- The operations ----

  function Opened(f: Floor, p: Party, nonYielding: bool, now: int): Floor
  {
    f.(current := Some(Turn(f.nextId + 1, p, now, None, false, NoInterruption, Nothing)),
       nextId := f.nextId + 1, nonYielding := nonYielding, overlapStart := None)
  }

  function Ended(t: Turn, now: int, yielded: bool, kind: Kind): Turn
  {
    t.(endedAt := Some(now), yielded := yielded, interruptedBy := if yielded then kind else t.interruptedBy)
  }

  function Closed(f: Floor, now: int, yielded: bool, kind: Kind): Floor
    requires f.current.Some?
  {
    f.(current := None, history := f.history + [Ended(f.current.value, now, yielded, kind)],
       nonYielding := false, overlapStart := None)
  }

  datatype Arbitrated = Arbitrated(floor: Floor, decision: FloorDecision)

  function Arbitration(cfg: TurnConfig, f: Floor, requester: Party, now: int, kind: Kind): Arbitrated
    requires f.current.Some?
  {
    if kind == Emergency || kind == Transfer then
      Arbitrated(f, Granted)
    else if f.nonYielding then
      Arbitrated(if f.queued.None? then f.(queued := Some(Request(requester, now, kind))) else f, Queued)
    else
      var f' := if f.overlapStart.None? then f.(overlapStart := Some(now)) else f;
      Arbitrated(f', Ruling(cfg, f.current.value.owner, requester, now - f'.overlapStart.value))
  }

  /** Who wins after so much overlap in a turn that yields. */
  function Ruling(cfg: TurnConfig, owner: Party, requester: Party, overlap: int): FloorDecision
  {
    if overlap < cfg.overlapGrace then Backchannel
    else if overlap <= cfg.backchannelMax && requester == Caller && owner == Agent then Backchannel
    else if requester == Caller then Granted
    else Denied
  }

  function Acquired(cfg: TurnConfig, f: Floor, p: Party, nonYielding: bool, now: int): Arbitrated
  {
    if f.current.None? then
      Arbitrated(Opened(f, p, nonYielding, now), Granted)
    else if f.current.value.owner == p then
      Arbitrated(f, Granted)
    else
      var a := Arbitration(cfg, f, p, now, ByUser);
      if a.decision == Granted then
        Arbitrated(Opened(Closed(a.floor, now, true, ByUser), p, false, now), Granted)
      else
        a
  }

  /** The clock is read once to close the turn and again to open the one that was queued. */
  function Released(f: Floor, p: Party, expectation: Expectation, closedAt: int, openedAt: int): Floor
  {
    if f.current.None? || f.current.value.owner != p then
      f
    else
      var asked := f.(current := Some(f.current.value.(expectation := expectation)));
      var closed := Closed(asked, closedAt, false, NoInterruption);
      match closed.queued
      case None => closed
      case Some(request) => Opened(closed.(queued := None), request.party, false, openedAt)
  }

  function Noted(cfg: TurnConfig, f: Floor, p: Party, now: int): Arbitrated
  {
    if f.current.None? || f.current.value.owner == p then
      Arbitrated(f, Denied)
    else
      Arbitration(cfg, f, p, now, ByUser)
  }

  function Forced(f: Floor, p: Party, kind: Kind, now: int): Floor
  {
    var closed := if f.current.Some? then Closed(f, now, true, kind) else f;
    Opened(closed.(queued := None), p, false, now)
  }

  /** What the agent's last closed turn established. */
  function LastExpectationOf(history: seq<Turn>): Expectation
  {
    if history == [] then Nothing
    else if history[|history| - 1].owner == Agent then history[|history| - 1].expectation
    else LastExpectationOf(history[..|history| - 1])
  }

  // ---- The manager ----

  class TurnManager {
    const cfg: TurnConfig
    var current: Option<Turn>
    var history: seq<Turn>
    var nextId: nat
    var overlapStart: Option<int>
    var queued: Option<Request>
    var nonYielding: bool

    ghost function Contents(): Floor
      reads this
    {
      Floor(current, history, nextId, overlapStart, queued, nonYielding)
    }

    constructor (cfg: TurnConfig)
      requires cfg.Valid()
      ensures this.cfg == cfg && Contents() == EMPTY
    {
      this.cfg := cfg;
      current, history, nextId, overlapStart, queued, nonYielding := None, [], 0, None, None, false;
    }

    method Acquire(p: Party, nonYielding: bool, now: int) returns (turn: Turn, decision: FloorDecision)
      modifies this
      ensures Arbitrated(Contents(), decision) == Acquired(cfg, old(Contents()), p, nonYielding, now)
      ensures current == Some(turn)
    {
      if current.None? {
        turn := Open(p, nonYielding, now);
        return turn, Granted;
      }
      if current.value.owner == p {
        return current.value, Granted;
      }
      decision := Arbitrate(p, now, ByUser);
      if decision == Granted {
        Close(now, true, ByUser);
        turn := Open(p, false, now);
      } else {
        turn := current.value;
      }
    }

    method Open(p: Party, nonYielding: bool, now: int) returns (turn: Turn)
      modifies this
      ensures Contents() == Opened(old(Contents()), p, nonYielding, now) && current == Some(turn)
    {
      nextId := nextId + 1;
      current := Some(Turn(nextId, p, now, None, false, NoInterruption, Nothing));
      this.nonYielding := nonYielding;
      overlapStart := None;
      turn := current.value;
    }

    method Close(now: int, yielded: bool, kind: Kind)
      requires current.Some?
      modifies this
      ensures Contents() == Closed(old(Contents()), now, yielded, kind)
    {
      var turn := current.value.(endedAt := Some(now), yielded := yielded);
      if yielded {
        turn := turn.(interruptedBy := kind);
      }
      history := history + [turn];
      current := None;
      nonYielding := false;
      overlapStart := None;
    }

    /** The copy returned is stamped from a clock reading of its own. */
    method Release(p: Party, expectation: Expectation, stampedAt: int, closedAt: int, openedAt: int)
      returns (closed: Option<Turn>)
      modifies this
      ensures Contents() == Released(old(Contents()), p, expectation, closedAt, openedAt)
      ensures closed.Some? <==> old(current).Some? && old(current).value.owner == p
      ensures closed.Some? ==> |history| == |old(history)| + 1
                               && closed.value.(endedAt := Some(closedAt)) == history[|history| - 1]
                               && closed.value.endedAt == Some(stampedAt) && closed.value.expectation == expectation
    {
      if current.None? || current.value.owner != p {
        return None;
      }
      current := Some(current.value.(expectation := expectation));
      closed := Some(current.value.(endedAt := Some(stampedAt), yielded := false));
      Close(closedAt, false, NoInterruption);
      history := history[|history| - 1 := history[|history| - 1].(expectation := expectation)];
      if queued.Some? {
        var request := queued.value;
        queued := None;
        var _ := Open(request.party, false, openedAt);
      }
    }

    method Arbitrate(requester: Party, now: int, kind: Kind) returns (decision: FloorDecision)
      requires current.Some?
      modifies this
      ensures Arbitrated(Contents(), decision) == Arbitration(cfg, old(Contents()), requester, now, kind)
    {
      if kind == Emergency || kind == Transfer {
        return Granted;
      }
      if nonYielding {
        if queued.None? {
          queued := Some(Request(requester, now, kind));
        }
        return Queued;
      }
      if overlapStart.None? {
        overlapStart := Some(now);
      }
      var overlap := now - overlapStart.value;
      if overlap < cfg.overlapGrace {
        return Backchannel;
      }
      if overlap <= cfg.backchannelMax && requester == Caller && current.value.owner == Agent {
        return Backchannel;
      }
      decision := if requester == Caller then Granted else Denied;
    }

    method NoteOverlap(p: Party, now: int) returns (decision: FloorDecision)
      modifies this
      ensures Arbitrated(Contents(), decision) == Noted(cfg, old(Contents()), p, now)
    {
      if current.None? || current.value.owner == p {
        return Denied;
      }
      decision := Arbitrate(p, now, ByUser);
    }

    method ClearOverlap()
      modifies this
      ensures Contents() == old(Contents()).(overlapStart := None)
    {
      overlapStart := None;
    }

    method ForceYield(p: Party, kind: Kind, now: int) returns (turn: Turn)
      modifies this
      ensures Contents() == Forced(old(Contents()), p, kind, now) && current == Some(turn)
    {
      if current.Some? {
        Close(now, true, kind);
      }
      queued := None;
      turn := Open(p, false, now);
    }

    method LastExpectation() returns (expectation: Expectation)
      ensures expectation == LastExpectationOf(history)
    {
      var i := |history|;
      assert history[..i] == history;
      while i > 0
        invariant 0 <= i <= |history| && LastExpectationOf(history) == LastExpectationOf(history[..i])
      {
        assert history[..i][..i - 1] == history[..i - 1];
        i := i - 1;
        if history[i].owner == Agent {
          return history[i].expectation;
        }
      }
      expectation := Nothing;
    }
  }
}
