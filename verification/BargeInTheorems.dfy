/** Interruptions over whole sessions, recoveries included. */
module BargeInTheorems {
  import opened Frames
  import opened VoiceActivity
  import opened BargeIn

  datatype Event =
    | Hear(v: SignalView, d: Decision, agentSpeaking: bool, now: int, controller: Controller)
    | Recover

  datatype Session = Session(state: BargeInState, delivered: seq<int>)

  function Next(p: BargeInPolicy, s: Session, e: Event): Session
  {
    match e
    case Recover => s.(state := QUIET.(lastDelivered := s.state.lastDelivered))
    case Hear(v, d, agentSpeaking, now, controller) =>
      var (b, outcome) := BargeInAfter(p, s.state, v, d, agentSpeaking, now, controller);
      Session(b, if outcome == Delivered then s.delivered + [now] else s.delivered)
  }

  function Run(p: BargeInPolicy, events: seq<Event>): Session
  {
    if events == [] then Session(QUIET, [])
    else Next(p, Run(p, events[..|events| - 1]), events[|events| - 1])
  }

  ghost predicate Spaced(at: seq<int>, interval: int)
  {
    forall k :: 0 <= k < |at| - 1 ==> at[k] + interval <= at[k + 1]
  }

  /**
   Delivered interruptions are at least MinInterval apart, however the clock behaves and
   whatever recoveries fall between them.
   */
  lemma {:induction false} DeliveriesAreSpaced(p: BargeInPolicy, events: seq<Event>)
    requires p.Valid()
    ensures var s := Run(p, events);
            && s.state.lastDelivered == (if s.delivered == [] then None else Some(s.delivered[|s.delivered| - 1]))
            && Spaced(s.delivered, p.minInterval)
            && (s.delivered != [] ==> p.enabled)
  {
    if events != [] {
      DeliveriesAreSpaced(p, events[..|events| - 1]);
    }
  }

  /** So any n + 1 deliveries span at least n intervals. */
  lemma {:induction false} DeliveriesSpan(p: BargeInPolicy, events: seq<Event>, i: nat, j: nat)
    requires p.Valid() && i <= j < |Run(p, events).delivered|
    ensures var at := Run(p, events).delivered;
            at[j] - at[i] >= (j - i) * p.minInterval
  {
    DeliveriesAreSpaced(p, events);
    if i < j {
      DeliveriesSpan(p, events, i, j - 1);
      assert (j - i) * p.minInterval == (j - 1 - i) * p.minInterval + p.minInterval;
    }
  }

  // ---- When a detection is complete ----

  predicate OnsetAt(events: seq<Event>, k: nat)
    requires k < |events|
  {
    events[k].Hear? && events[k].d.onsetConfirmed
  }

  /** A later decision that keeps a detection waiting: the run is still open and no other has begun. */
  predicate Waits(e: Event)
  {
    e.Hear? && !e.d.onsetConfirmed && e.d.state.Active()
  }

  /** The onset at event k is still waiting for further active frames. */
  ghost predicate WaitingSince(p: BargeInPolicy, events: seq<Event>, k: nat)
  {
    && k < |events| && OnsetAt(events, k) && (forall i :: k < i < |events| ==> Waits(events[i]))
    && |events| - k - 1 < p.confirmFrames
  }

  lemma {:induction false} WaitingIsPending(p: BargeInPolicy, events: seq<Event>, k: nat)
    requires 0 < p.confirmFrames && WaitingSince(p, events, k)
    ensures var b := Run(p, events).state; b.pending && b.pendingFrames == |events| - k - 1
  {
    var n := |events| - 1;
    if k < n {
      WaitingIsPending(p, events[..n], k);
      assert Waits(events[n]);
    }
  }

  lemma {:induction false} PendingWasWaiting(p: BargeInPolicy, events: seq<Event>) returns (k: nat)
    requires 0 < p.confirmFrames && Run(p, events).state.pending
    ensures WaitingSince(p, events, k)
  {
    var n := |events| - 1;
    if OnsetAt(events, n) {
      k := n;
    } else {
      k := PendingWasWaiting(p, events[..n]);
      WaitingIsPending(p, events[..n], k);
    }
  }

  /** This decision is the ConfirmFrames-th active one after an onset, or that onset if none is asked for. */
  ghost predicate Confirmed(p: BargeInPolicy, events: seq<Event>, d: Decision)
  {
    if p.confirmFrames <= 0 then d.onsetConfirmed
    else
      && !d.onsetConfirmed && d.state.Active()
      && exists k: nat :: WaitingSince(p, events, k) && |events| - k >= p.confirmFrames
  }

  lemma CompletesWhenConfirmed(p: BargeInPolicy, events: seq<Event>, d: Decision)
    ensures Completes(p, Run(p, events).state, d) <==> Confirmed(p, events, d)
  {
    var b := Run(p, events).state;
    if 0 < p.confirmFrames {
      if b.pending {
        var k := PendingWasWaiting(p, events);
        WaitingIsPending(p, events, k);
      }
      if Confirmed(p, events, d) {
        var k: nat :| WaitingSince(p, events, k) && |events| - k >= p.confirmFrames;
        WaitingIsPending(p, events, k);
      }
    }
  }

  // ---- What becomes of it ----

  /** The last delivery was less than MinInterval before now. */
  predicate TooSoon(p: BargeInPolicy, delivered: seq<int>, now: int)
  {
    delivered != [] && now - delivered[|delivered| - 1] < p.minInterval
  }

  /** The frame reached us more than MaxAge ago; one that carries no arrival time never did. */
  predicate TooOld(p: BargeInPolicy, v: SignalView, now: int)
  {
    v.frame.arrival != None && now - v.frame.arrival.value > p.maxAge
  }

  predicate Idle(p: BargeInPolicy, agentSpeaking: bool) { p.requireAgentSpeaking && !agentSpeaking }

  /**
   An interruption is delivered exactly when the detection is confirmed, the policy is on, there is
   an agent to interrupt if one is asked for, the last delivery is MinInterval back, the frame is not
   stale, and the controller takes it. It then becomes the last delivery and is under way.
   */
  lemma DeliveredExactly(p: BargeInPolicy, events: seq<Event>, e: Event)
    requires p.Valid() && e.Hear?
    ensures var s, s' := Run(p, events), Next(p, Run(p, events), e);
            var goes := Confirmed(p, events, e.d) && p.enabled && !Idle(p, e.agentSpeaking)
                        && !TooSoon(p, s.delivered, e.now) && !TooOld(p, e.v, e.now) && e.controller == Accepts;
            && s'.delivered == (if goes then s.delivered + [e.now] else s.delivered)
            && (s'.state.active <==> goes || (s.state.active && !e.d.offsetConfirmed))
  {
    CompletesWhenConfirmed(p, events, e.d);
    DeliveriesAreSpaced(p, events);
  }

  /** What stopped one that was not: the first obstacle in this order. */
  lemma StoppedByTheFirstObstacle(p: BargeInPolicy, events: seq<Event>, e: Event)
    requires p.Valid() && e.Hear?
    ensures var s := Run(p, events);
            var outcome := BargeInAfter(p, s.state, e.v, e.d, e.agentSpeaking, e.now, e.controller).1;
            var idle, soon, stale := Idle(p, e.agentSpeaking), TooSoon(p, s.delivered, e.now), TooOld(p, e.v, e.now);
            && (outcome == Undetected <==> !Confirmed(p, events, e.d))
            && (Confirmed(p, events, e.d) ==>
                  && (outcome == Disabled <==> !p.enabled)
                  && (outcome == NotSpeaking <==> p.enabled && idle)
                  && (outcome == Debounced <==> p.enabled && !idle && soon)
                  && (outcome == Stale <==> p.enabled && !idle && !soon && stale)
                  && (outcome == NoController <==> p.enabled && !idle && !soon && !stale && e.controller == Absent)
                  && (outcome == Refused <==> p.enabled && !idle && !soon && !stale && e.controller == Refuses))
  {
    CompletesWhenConfirmed(p, events, e.d);
    DeliveriesAreSpaced(p, events);
  }
}
