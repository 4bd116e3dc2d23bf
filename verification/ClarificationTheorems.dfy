/** Which question an utterance calls for, on its own facts, and how often it may be asked. */
module ClarificationTheorems {
  import opened Dialogue
  import opened Clarification
  import Names

  // ---- The kind of doubt ----

  /** Another reading is as good: none is believed much, or some other one comes within 0.15 of it. */
  ghost predicate Rivalled(i: Intent)
  {
    || i.confidence < 0.15
    || exists k :: 0 <= k < |i.alternatives|
                   && i.alternatives[k].name != i.name && i.alternatives[k].confidence > i.confidence - 0.15
  }

  lemma {:induction false} BestOtherIsBest(name: string, candidates: seq<Candidate>)
    ensures var best := BestOther(name, candidates);
            && best >= 0.0
            && (forall k :: 0 <= k < |candidates| && candidates[k].name != name ==> candidates[k].confidence <= best)
            && (best > 0.0 ==> exists k :: 0 <= k < |candidates|
                                           && candidates[k].name != name && candidates[k].confidence == best)
  {
    if candidates != [] {
      var n := |candidates| - 1;
      BestOtherIsBest(name, candidates[..n]);
      assert forall k :: 0 <= k < n ==> candidates[..n][k] == candidates[k];
    }
  }

  lemma NarrowMeansRivalled(i: Intent)
    ensures MarginOf(i) < 0.15 <==> Rivalled(i)
  {
    BestOtherIsBest(i.name, i.alternatives);
  }

  /** Whole and consistent, but not clear what it means. */
  predicate InDoubt(f: Facts) { f.verdict == Unclear && !f.truncated && !f.contradicts }

  ghost predicate Ambivalent(f: Facts) { |f.intent.alternatives| > 1 && Rivalled(f.intent) }

  /**
   Each utterance calls for exactly one kind of question: the audio before the meaning, a
   contradiction before a close call, and of an unclear meaning the close call first, then the
   least missing slot, and a mere confirmation last.
   */
  lemma KindsOfDoubt(f: Facts)
    ensures var kind := Assess(f).kind;
            && (kind == NoiseRepeat <==> f.verdict == Noise)
            && (kind == Incomplete <==> f.verdict != Noise && f.truncated)
            && (kind == Contradiction <==> f.verdict != Noise && !f.truncated && f.contradicts)
            && (kind == Ambiguous <==> InDoubt(f) && Ambivalent(f))
            && (kind == MissingSlot <==>
                  InDoubt(f) && !Ambivalent(f) && exists s :: s in f.intent.slots && s.required && !s.filled)
            && (kind == LowConfidence <==>
                  InDoubt(f) && !Ambivalent(f) && forall s :: s in f.intent.slots && s.required ==> s.filled)
            && (kind == NoClarification <==>
                  !f.truncated && !f.contradicts && (f.verdict == Accepted || f.verdict == Rejected))
  {
    NarrowMeansRivalled(f.intent);
    FirstMissingIsLeast(f.intent.slots);
  }

  /** The question is about the first two readings offered, or the least missing slot, or about neither. */
  lemma SubjectOfDoubt(f: Facts)
    ensures var r := Assess(f);
            && r.round == 0 && !r.final
            && r.candidates == (if InDoubt(f) && Ambivalent(f)
                                then [f.intent.alternatives[0].name, f.intent.alternatives[1].name] else [])
            && (r.kind == MissingSlot ==> LeastMissing(f.intent.slots, r.slot))
            && (r.kind != MissingSlot ==> r.slot == "")
  {
    NarrowMeansRivalled(f.intent);
    FirstMissingIsLeast(f.intent.slots);
  }

  /** The utterance calls for a question of this kind about this slot, if the kind is about one. */
  ghost predicate CallsFor(f: Facts, kind: ClarifyKind, slot: string)
  {
    match kind
    case NoiseRepeat => slot == "" && f.verdict == Noise
    case Incomplete => slot == "" && f.verdict != Noise && f.truncated
    case Contradiction => slot == "" && f.verdict != Noise && !f.truncated && f.contradicts
    case Ambiguous => slot == "" && InDoubt(f) && Ambivalent(f)
    case MissingSlot => InDoubt(f) && !Ambivalent(f) && LeastMissing(f.intent.slots, slot)
    case LowConfidence =>
      slot == "" && InDoubt(f) && !Ambivalent(f) && forall s :: s in f.intent.slots && s.required ==> s.filled
    case NoClarification => slot == "" && !f.truncated && !f.contradicts && f.verdict in {Accepted, Rejected}
  }

  /** It calls for exactly one, which is the one assessed. */
  lemma OneQuestionIsCalledFor(f: Facts, kind: ClarifyKind, slot: string)
    ensures CallsFor(f, kind, slot) <==> Assess(f).kind == kind && Assess(f).slot == slot
  {
    KindsOfDoubt(f);
    SubjectOfDoubt(f);
    if CallsFor(f, MissingSlot, slot) {
      var least: Slot :| least in f.intent.slots && Missing(least) && least.name == slot;
      Names.Total(slot, Assess(f).slot);
    }
  }

  // ---- What shares a counter ----

  lemma NamesHaveNoColon(k: ClarifyKind, i: nat)
    requires i < |KindName(k)|
    ensures KindName(k)[i] != ':'
  {
    assert ':' !in KindName(k);
  }

  /** Two questions share a counter exactly when they are of one kind and about one slot. */
  lemma SubjectsAreApart(r: Request, q: Request)
    ensures Subject(r) == Subject(q) <==> r.kind == q.kind && r.slot == q.slot
  {
    if Subject(r) == Subject(q) {
      var n, m := |KindName(r.kind)|, |KindName(q.kind)|;
      if n < m {
        NamesHaveNoColon(q.kind, n);
      } else if m < n {
        NamesHaveNoColon(r.kind, m);
      }
      assert Subject(r)[..n] == KindName(r.kind) && Subject(q)[..m] == KindName(q.kind);
      KindNamesDiffer(r.kind, q.kind);
      if r.slot != "" && q.slot != "" {
        assert Subject(r)[n + 1..] == r.slot && Subject(q)[m + 1..] == q.slot;
      }
    }
  }

  lemma KindNamesDiffer(k: ClarifyKind, l: ClarifyKind)
    requires KindName(k) == KindName(l)
    ensures k == l
  {
    assert KindName(k)[0] == KindName(l)[0] && |KindName(k)| == |KindName(l)|;
  }

  // ---- Whole conversations ----

  datatype Call = Reserve(r: Request, personaBudget: int) | Resolve(r: Request)

  /** A question put, or a subject settled. */
  datatype Mark = Put(r: Request) | Settled(r: Request)

  datatype Session = Session(budget: Budget, marks: seq<Mark>)

  function Next(cfg: ClarificationConfig, s: Session, call: Call): Session
  {
    match call
    case Resolve(r) => Session(Resolved(s.budget, r), s.marks + [Settled(r)])
    case Reserve(r, personaBudget) =>
      var x := Reserved(cfg, s.budget, r, personaBudget);
      Session(x.budget, if x.allowed && r.kind != NoClarification then s.marks + [Put(r)] else s.marks)
  }

  function Run(cfg: ClarificationConfig, calls: seq<Call>): Session
  {
    if calls == [] then Session(UNSPENT, [])
    else Next(cfg, Run(cfg, calls[..|calls| - 1]), calls[|calls| - 1])
  }

  predicate SameSubject(r: Request, q: Request)
  {
    r.kind == q.kind && (r.kind == NoiseRepeat || r.slot == q.slot)
  }

  /** How often the subject of r has come up since it was last settled. */
  function Since(marks: seq<Mark>, r: Request): nat
  {
    if marks == [] then 0
    else
      var rest, last := Since(marks[..|marks| - 1], r), marks[|marks| - 1];
      if !SameSubject(last.r, r) then rest else if last.Put? then rest + 1 else 0
  }

  function Questions(marks: seq<Mark>): nat
  {
    if marks == [] then 0
    else Questions(marks[..|marks| - 1]) + if marks[|marks| - 1].Put? then 1 else 0
  }

  lemma Appends(marks: seq<Mark>, m: Mark, r: Request)
    ensures Since(marks + [m], r)
            == if !SameSubject(m.r, r) then Since(marks, r) else if m.Put? then Since(marks, r) + 1 else 0
    ensures Questions(marks + [m]) == Questions(marks) + if m.Put? then 1 else 0
  {
    assert (marks + [m])[..|marks|] == marks;
  }

  /** How often the budget says the subject of r has come up. */
  function Counted(b: Budget, r: Request): int
  {
    if r.kind == NoiseRepeat then b.noiseRounds else Rounds(b, Subject(r))
  }

  lemma NextCounts(cfg: ClarificationConfig, s: Session, call: Call, r: Request)
    requires r.kind != NoClarification && s.budget.total == Questions(s.marks)
    requires Counted(s.budget, r) == Since(s.marks, r) && Counted(s.budget, call.r) == Since(s.marks, call.r)
    ensures var s' := Next(cfg, s, call);
            Counted(s'.budget, r) == Since(s'.marks, r) && s'.budget.total == Questions(s'.marks)
  {
    Appends(s.marks, Put(call.r), r);
    Appends(s.marks, Settled(call.r), r);
    match call
    case Resolve(q) => ResolvingCounts(s.budget, q, r);
    case Reserve(q, personaBudget) => ReservingCounts(cfg, s.budget, q, personaBudget, r);
  }

  lemma ResolvingCounts(b: Budget, q: Request, r: Request)
    requires r.kind != NoClarification
    ensures Resolved(b, q).total == b.total
    ensures Counted(Resolved(b, q), r) == if SameSubject(q, r) then 0 else Counted(b, r)
  {
    SubjectsAreApart(q, r);
  }

  lemma ReservingCounts(cfg: ClarificationConfig, b: Budget, q: Request, personaBudget: int, r: Request)
    requires r.kind != NoClarification
    ensures var x := Reserved(cfg, b, q, personaBudget);
            var put := x.allowed && q.kind != NoClarification;
            && x.budget.total == b.total + (if put then 1 else 0)
            && Counted(x.budget, r) == Counted(b, r) + (if put && SameSubject(q, r) then 1 else 0)
  {
    SubjectsAreApart(q, r);
  }

  /** Each counter is the number of times its subject was asked about since it was last settled. */
  lemma {:induction false} CountersCountQuestions(cfg: ClarificationConfig, calls: seq<Call>, r: Request)
    requires r.kind != NoClarification
    ensures var s := Run(cfg, calls);
            Counted(s.budget, r) == Since(s.marks, r) && s.budget.total == Questions(s.marks)
  {
    if calls != [] {
      var before, call := calls[..|calls| - 1], calls[|calls| - 1];
      CountersCountQuestions(cfg, before, r);
      if call.r.kind != NoClarification {
        CountersCountQuestions(cfg, before, call.r);
        NextCounts(cfg, Run(cfg, before), call, r);
      } else {
        SubjectsAreApart(call.r, r);
        Appends(Run(cfg, before).marks, Settled(call.r), r);
      }
    }
  }

  /**
   A question is refused exactly when its subject has had its rounds, or, noise aside, when the
   persona's budget is spent. A granted one says which round it is, and whether it is the last;
   no question at all is always granted, and costs nothing.
   */
  lemma GrantedExactly(cfg: ClarificationConfig, calls: seq<Call>, r: Request, personaBudget: int)
    ensures var s := Run(cfg, calls);
            var x := Reserved(cfg, s.budget, r, personaBudget);
            var rounds, asked := Since(s.marks, r), Questions(s.marks);
            && (x.allowed <==>
                  if r.kind == NoClarification then true
                  else if r.kind == NoiseRepeat then rounds < cfg.repeatOnNoise
                  else rounds < cfg.maxRoundsPerSubject && (personaBudget > 0 ==> asked < personaBudget))
            && (r.kind == NoClarification ==> x.request == r && x.budget == s.budget)
            && (x.allowed && r.kind != NoClarification ==>
                  && x.request == r.(round := rounds + 1, final := x.request.final)
                  && (x.request.final <==>
                     if r.kind == NoiseRepeat then rounds + 1 >= cfg.repeatOnNoise
                     else rounds + 1 >= cfg.maxRoundsPerSubject || (personaBudget > 0 && asked + 1 >= personaBudget)))
            && (!x.allowed ==> x.request == r && x.budget == s.budget)
  {
    if r.kind != NoClarification { CountersCountQuestions(cfg, calls, r); }
  }
}
