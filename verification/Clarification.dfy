/** Whether a question is needed, and whether there is budget left to ask it. */
module Clarification {
  import opened Frames
  import opened Dialogue
  import Names

  datatype ClarificationConfig = ClarificationConfig(maxRoundsPerSubject: int, repeatOnNoise: int)
  {
    ghost predicate Valid() { 1 <= maxRoundsPerSubject && 1 <= repeatOnNoise }
  }

  datatype Budget = Budget(total: int, perSubject: map<string, int>, noiseRounds: int)

  const UNSPENT: Budget := Budget(0, map[], 0)

  // ---- Assessment ----

  /** The gap to the best other candidate, which counts as 0 when there is none. */
  method Margin(i: Intent) returns (gap: real)
    ensures gap <= i.confidence
    ensures forall k :: 0 <= k < |i.alternatives| && i.alternatives[k].name != i.name ==>
                          gap <= i.confidence - i.alternatives[k].confidence
    ensures gap == i.confidence || exists k :: 0 <= k < |i.alternatives| && i.alternatives[k].name != i.name
                                               && gap == i.confidence - i.alternatives[k].confidence
    ensures gap == MarginOf(i)
  {
    var best := 0.0;
    for k := 0 to |i.alternatives|
      invariant best >= 0.0 && best == BestOther(i.name, i.alternatives[..k])
      invariant forall j :: 0 <= j < k && i.alternatives[j].name != i.name ==> i.alternatives[j].confidence <= best
      invariant best == 0.0 || exists j :: 0 <= j < k && i.alternatives[j].name != i.name
                                           && best == i.alternatives[j].confidence
    {
      assert i.alternatives[..k + 1][..k] == i.alternatives[..k];
      if i.alternatives[k].name != i.name && i.alternatives[k].confidence > best {
        best := i.alternatives[k].confidence;
      }
    }
    assert i.alternatives[..|i.alternatives|] == i.alternatives;
    gap := i.confidence - best;
  }

  function BestOther(name: string, candidates: seq<Candidate>): real
  {
    if candidates == [] then 0.0
    else
      var best, c := BestOther(name, candidates[..|candidates| - 1]), candidates[|candidates| - 1];
      if c.name != name && c.confidence > best then c.confidence else best
  }

  function MarginOf(i: Intent): real
  {
    i.confidence - BestOther(i.name, i.alternatives)
  }

  predicate Missing(s: Slot)
  {
    s.required && !s.filled
  }

  /** The least missing name in byte order, which sorting puts first. */
  function FirstMissing(slots: seq<Slot>): Option<string>
  {
    if slots == [] then None
    else
      var first, s := FirstMissing(slots[..|slots| - 1]), slots[|slots| - 1];
      if Missing(s) && (first.None? || Names.Before(s.name, first.value)) then Some(s.name) else first
  }

  /** It is missing, and none that is missing comes before it. */
  ghost predicate LeastMissing(slots: seq<Slot>, name: string)
  {
    && (exists s :: s in slots && Missing(s) && s.name == name)
    && forall s :: s in slots && Missing(s) ==> !Names.Before(s.name, name)
  }

  lemma {:induction false} FirstMissingIsLeast(slots: seq<Slot>)
    ensures FirstMissing(slots).None? <==> forall s :: s in slots ==> !Missing(s)
    ensures FirstMissing(slots).Some? ==> LeastMissing(slots, FirstMissing(slots).value)
  {
    if slots != [] {
      var rest, s := slots[..|slots| - 1], slots[|slots| - 1];
      assert slots == rest + [s];
      FirstMissingIsLeast(rest);
      Names.Irreflexive(s.name);
      var first := FirstMissing(rest);
      if Missing(s) && first.Some? && Names.Before(s.name, first.value) {
        forall x | x in rest && Missing(x) ensures !Names.Before(x.name, s.name) {
          if Names.Before(x.name, s.name) { Names.Transitive(x.name, s.name, first.value); }
        }
      }
    }
  }

  /** The same incomplete intent asks about the same slot first, in whatever order its slots come. */
  lemma SlotOrderDoesNotMatter(slots: seq<Slot>, reordered: seq<Slot>)
    requires forall s :: s in slots <==> s in reordered
    ensures FirstMissing(slots) == FirstMissing(reordered)
  {
    FirstMissingIsLeast(slots);
    FirstMissingIsLeast(reordered);
    if FirstMissing(slots).Some? {
      Names.Total(FirstMissing(slots).value, FirstMissing(reordered).value);
    }
  }

  function Assess(f: Facts): Request
  {
    if f.verdict == Noise then NO_REQUEST.(kind := NoiseRepeat)
    else if f.truncated then NO_REQUEST.(kind := Incomplete)
    else if f.contradicts then NO_REQUEST.(kind := Contradiction)
    else if f.verdict != Unclear then NO_REQUEST
    else if |f.intent.alternatives| > 1 && MarginOf(f.intent) < 0.15 then
      NO_REQUEST.(kind := Ambiguous, candidates := [f.intent.alternatives[0].name, f.intent.alternatives[1].name])
    else if FirstMissing(f.intent.slots).Some? then
      NO_REQUEST.(kind := MissingSlot, slot := FirstMissing(f.intent.slots).value)
    else NO_REQUEST.(kind := LowConfidence)
  }

  // ---- Budgets ----

  function KindName(k: ClarifyKind): string
  {
    match k
    case NoClarification => "none"
    case Ambiguous => "ambiguous"
    case LowConfidence => "low_confidence"
    case MissingSlot => "missing_slot"
    case Contradiction => "contradiction"
    case NoiseRepeat => "noise"
    case Incomplete => "incomplete"
  }

  function Subject(r: Request): string
  {
    KindName(r.kind) + if r.slot != "" then ":" + r.slot else ""
  }

  function Rounds(b: Budget, subject: string): int
  {
    if subject in b.perSubject then b.perSubject[subject] else 0
  }

  datatype Reservation = Reservation(budget: Budget, request: Request, allowed: bool)

  function Reserved(cfg: ClarificationConfig, b: Budget, r: Request, personaBudget: int): Reservation
  {
    if r.kind == NoClarification then
      Reservation(b, r, true)
    else if r.kind == NoiseRepeat then
      if b.noiseRounds >= cfg.repeatOnNoise then
        Reservation(b, r, false)
      else
        var n := b.noiseRounds + 1;
        Reservation(b.(noiseRounds := n, total := b.total + 1), r.(round := n, final := n >= cfg.repeatOnNoise), true)
    else if personaBudget > 0 && b.total >= personaBudget then
      Reservation(b, r, false)
    else if Rounds(b, Subject(r)) >= cfg.maxRoundsPerSubject then
      Reservation(b, r, false)
    else
      var n := Rounds(b, Subject(r)) + 1;
      var final := n >= cfg.maxRoundsPerSubject || (personaBudget > 0 && b.total + 1 >= personaBudget);
      Reservation(
        b.(perSubject := b.perSubject[Subject(r) := n], total := b.total + 1), r.(round := n, final := final), true)
  }

  function Resolved(b: Budget, r: Request): Budget
  {
    b.(perSubject := b.perSubject - {Subject(r)}, noiseRounds := if r.kind == NoiseRepeat then 0 else b.noiseRounds)
  }

  /** No subject is past its limit, and every round spent was counted. */
  ghost predicate Within(cfg: ClarificationConfig, b: Budget)
  {
    && 0 <= b.noiseRounds <= cfg.repeatOnNoise && b.noiseRounds <= b.total
    && forall s :: s in b.perSubject ==> 1 <= b.perSubject[s] <= cfg.maxRoundsPerSubject && b.perSubject[s] <= b.total
  }

  /** A grant counts exactly one round, a refusal none, and no limit is ever passed. */
  lemma ReservedStaysWithin(cfg: ClarificationConfig, b: Budget, r: Request, personaBudget: int)
    requires cfg.Valid() && Within(cfg, b)
    ensures var x := Reserved(cfg, b, r, personaBudget);
            && Within(cfg, x.budget)
            && x.budget.total == b.total + (if x.allowed && r.kind != NoClarification then 1 else 0)
            && x.request.(round := r.round, final := r.final) == r
            && (!x.allowed ==> x.budget == b && x.request == r)
    ensures var x := Reserved(cfg, b, r, personaBudget);
            x.allowed && r.kind !in {NoClarification, NoiseRepeat} ==>
              1 <= x.request.round <= cfg.maxRoundsPerSubject && (personaBudget > 0 ==> x.budget.total <= personaBudget)
    ensures Within(cfg, Resolved(b, r))
  {
  }

  class ClarificationEngine {
    const cfg: ClarificationConfig
    var total: int
    var perSubject: map<string, int>
    var noiseRounds: int

    ghost function Contents(): Budget
      reads this
    {
      Budget(total, perSubject, noiseRounds)
    }

    ghost predicate Valid()
      reads this
    {
      cfg.Valid() && Within(cfg, Contents())
    }

    constructor (cfg: ClarificationConfig)
      requires cfg.Valid()
      ensures Valid() && Contents() == UNSPENT && this.cfg == cfg
    {
      this.cfg := cfg;
      total, perSubject, noiseRounds := 0, map[], 0;
    }

    method Reserve(r: Request, personaBudget: int) returns (granted: Request, allowed: bool)
      requires Valid()
      modifies this
      ensures Valid()
      ensures Reservation(Contents(), granted, allowed) == Reserved(cfg, old(Contents()), r, personaBudget)
    {
      if r.kind == NoClarification {
        return r, true;
      }
      if r.kind == NoiseRepeat {
        if noiseRounds >= cfg.repeatOnNoise {
          return r, false;
        }
        noiseRounds := noiseRounds + 1;
        total := total + 1;
        return r.(round := noiseRounds, final := noiseRounds >= cfg.repeatOnNoise), true;
      }
      if personaBudget > 0 && total >= personaBudget {
        return r, false;
      }
      var subject := KindName(r.kind);
      if r.slot != "" {
        subject := subject + ":" + r.slot;
      }
      assert subject == Subject(r);
      var rounds := Rounds(Budget(total, perSubject, noiseRounds), subject);
      if rounds >= cfg.maxRoundsPerSubject {
        return r, false;
      }
      perSubject := perSubject[subject := rounds + 1];
      total := total + 1;
      var final := rounds + 1 >= cfg.maxRoundsPerSubject || (personaBudget > 0 && total >= personaBudget);
      return r.(round := rounds + 1, final := final), true;
    }

    method Resolve(r: Request)
      requires Valid()
      modifies this
      ensures Valid() && Contents() == Resolved(old(Contents()), r)
    {
      var subject := KindName(r.kind);
      if r.slot != "" {
        subject := subject + ":" + r.slot;
      }
      assert subject == Subject(r);
      perSubject := perSubject - {subject};
      if r.kind == NoiseRepeat {
        noiseRounds := 0;
      }
    }
  }
}
