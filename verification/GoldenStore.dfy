/** Approved observations, their append-only history, and the incremental count of what awaits review. */
module GoldenStore {
  import opened Frames

  type GoldenId(==, !new)
  type GoldenKey(==, !new)
  type Observation(==, !new)

  datatype Scenario = Scenario(id: string, key: GoldenKey)

  datatype Stage = Candidate | Approved | Superseded | Retired

  datatype Golden = Golden(
    id: GoldenId,
    key: GoldenKey,
    stage: Stage,
    observation: Observation,
    recordedAt: int,
    approvedAt: int,
    approvedBy: string,
    reason: string,
    supersedes: Option<GoldenId>)

  datatype Fault = WrongScenario | Unattributed | AlreadyApproved | NotRegistered | NoGolden

  type History = map<GoldenKey, seq<Golden>>

  // ---- The history ----

  function Records(h: History, key: GoldenKey): seq<Golden>
  {
    if key in h then h[key] else []
  }

  function Append(h: History, key: GoldenKey, g: Golden): History
  {
    h[key := Records(h, key) + [g]]
  }

  function Replace(h: History, key: GoldenKey, i: nat, g: Golden): History
    requires key in h && i < |h[key]|
  {
    h[key := h[key][i := g]]
  }

  /** g is the record numbered i under key. */
  ghost predicate Filed(h: History, key: GoldenKey, i: nat, g: Golden)
  {
    key in h && i < |h[key]| && h[key][i] == g
  }

  lemma FiledAfterAppend(h: History, key: GoldenKey, x: Golden)
    ensures forall k, i: nat, g :: Filed(Append(h, key, x), k, i, g) <==>
                                   Filed(h, k, i, g) || (k == key && i == |Records(h, key)| && g == x)
  {
  }

  lemma FiledAfterReplace(h: History, key: GoldenKey, n: nat, x: Golden)
    requires key in h && n < |h[key]|
    ensures forall k, i: nat, g :: Filed(Replace(h, key, n, x), k, i, g) <==>
                                   if k == key && i == n then g == x else Filed(h, k, i, g)
  {
  }

  ghost predicate Waits(h: History, key: GoldenKey, i: nat)
  {
    key in h && i < |h[key]| && h[key][i].stage == Candidate
  }

  /** Where the recordings awaiting review are. */
  ghost function Awaiting(h: History): set<(GoldenKey, nat)>
  {
    set k, i: nat | k in h && i < |h[k]| && Waits(h, k, i) :: (k, i)
  }

  lemma WaitsAfterAppend(h: History, key: GoldenKey, x: Golden, k: GoldenKey, i: nat)
    ensures Waits(Append(h, key, x), k, i) <==>
            Waits(h, k, i) || (x.stage == Candidate && k == key && i == |Records(h, key)|)
  {
  }

  lemma AwaitingAfterAppend(h: History, key: GoldenKey, x: Golden)
    ensures |Awaiting(Append(h, key, x))| == |Awaiting(h)| + (if x.stage == Candidate then 1 else 0)
  {
    var added := if x.stage == Candidate then {(key, |Records(h, key)|)} else {};
    forall p: (GoldenKey, nat) ensures p in Awaiting(Append(h, key, x)) <==> p in Awaiting(h) + added {
      WaitsAfterAppend(h, key, x, p.0, p.1);
    }
    assert Awaiting(Append(h, key, x)) == Awaiting(h) + added;
  }

  lemma AwaitingAfterReplace(h: History, key: GoldenKey, n: nat, x: Golden)
    requires key in h && n < |h[key]| && h[key][n].stage == Candidate && x.stage != Candidate
    ensures |Awaiting(Replace(h, key, n, x))| == |Awaiting(h)| - 1
  {
    assert Awaiting(h) == Awaiting(Replace(h, key, n, x)) + {(key, n)};
  }

  // ---- What always holds of a history ----

  predicate Original(g: Golden)
  {
    g.stage == Candidate || g.stage == Approved
  }

  /** An identifier belongs to one recording; any other record carrying it is a later copy of that baseline. */
  ghost predicate IdentifiersAgree(h: History)
  {
    && (forall k, i: nat, g :: Filed(h, k, i, g) ==> g.key == k && (g.stage == Candidate ==> g.supersedes == None))
    && (forall k, i: nat, g, l, j: nat, f ::
          (Filed(h, k, i, g) && Filed(h, l, j, f) && Original(g) && Original(f) && g.id == f.id) ==> (k == l && i == j))
    && (forall k, i: nat, g :: (Filed(h, k, i, g) && !Original(g)) ==> CopiesBaseline(h, k, i, g))
  }

  /** An approved record with g's identifier stands before position i. */
  ghost predicate CopiesBaseline(h: History, key: GoldenKey, i: nat, g: Golden)
  {
    exists j: nat, f :: j < i && Filed(h, key, j, f) && f.stage == Approved && f.id == g.id
  }

  ghost predicate Unused(h: History, id: GoldenId)
  {
    forall k, i: nat, g :: Filed(h, k, i, g) ==> g.id != id
  }

  lemma AppendKeepsIdentifiers(h: History, key: GoldenKey, x: Golden)
    requires IdentifiersAgree(h) && x.key == key
    requires if Original(x) then x.stage == Candidate && x.supersedes == None && Unused(h, x.id)
             else CopiesBaseline(h, key, |Records(h, key)|, x)
    ensures IdentifiersAgree(Append(h, key, x))
  {
    var h' := Append(h, key, x);
    FiledAfterAppend(h, key, x);
    forall k, i: nat, g | Filed(h', k, i, g) && !Original(g) ensures CopiesBaseline(h', k, i, g) {
      assert CopiesBaseline(h, k, i, g);
      var j: nat, f :| j < i && Filed(h, k, j, f) && f.stage == Approved && f.id == g.id;
      assert Filed(h', k, j, f);
    }
  }

  lemma ReplaceKeepsIdentifiers(h: History, key: GoldenKey, n: nat, x: Golden)
    requires IdentifiersAgree(h) && key in h && n < |h[key]|
    requires h[key][n].stage == Candidate && x.stage == Approved && x.id == h[key][n].id && x.key == key
    ensures IdentifiersAgree(Replace(h, key, n, x))
  {
    var h' := Replace(h, key, n, x);
    FiledAfterReplace(h, key, n, x);
    assert Filed(h, key, n, h[key][n]);
    forall k, i: nat, g | Filed(h', k, i, g) && !Original(g) ensures CopiesBaseline(h', k, i, g) {
      assert CopiesBaseline(h, k, i, g);
      var j: nat, f :| j < i && Filed(h, k, j, f) && f.stage == Approved && f.id == g.id;
      assert Filed(h', k, j, f);
    }
  }

  // ---- The store's whole state and its three operations ----

  /** approvals is every approval so far, in order; the store itself does not keep it. */
  datatype Book = Book(
    current: map<GoldenKey, Golden>,
    history: History,
    pending: int,
    approvals: seq<GoldenId>)

  const EMPTY: Book := Book(map[], map[], 0, [])

  function Recorded(b: Book, id: GoldenId, key: GoldenKey, observation: Observation, now: int): Book
  {
    var g := Golden(id, key, Candidate, observation, now, 0, "", "", None);
    b.(history := Append(b.history, key, g), pending := b.pending + 1)
  }

  function Promoted(b: Book, g: Golden, author: string, reason: string, now: int): Golden
  {
    var supersedes := if g.key in b.current then Some(b.current[g.key].id) else g.supersedes;
    g.(stage := Approved, approvedAt := now, approvedBy := author, reason := reason, supersedes := supersedes)
  }

  /** The baseline being replaced is first copied to the end of its history. */
  function Kept(b: Book, key: GoldenKey): History
  {
    if key in b.current then Append(b.history, key, b.current[key].(stage := Superseded)) else b.history
  }

  function ApprovedAt(b: Book, key: GoldenKey, i: nat, author: string, reason: string, now: int): Book
    requires key in b.history && i < |b.history[key]|
  {
    var g := Promoted(b, b.history[key][i], author, reason, now);
    Book(b.current[key := g], Replace(Kept(b, key), key, i, g), b.pending - 1, b.approvals + [g.id])
  }

  function RetiredAt(b: Book, key: GoldenKey, author: string, reason: string): Book
    requires key in b.current
  {
    var g := b.current[key].(stage := Retired, approvedBy := author, reason := reason);
    b.(history := Append(b.history, key, g), current := b.current - {key})
  }

  // ---- What always holds of the store ----

  /** A baseline is an approved record of its own history. */
  ghost predicate BaselinesAreFiled(b: Book)
  {
    forall k :: k in b.current ==>
      b.current[k].stage == Approved && exists i: nat :: Filed(b.history, k, i, b.current[k])
  }

  ghost predicate ApprovalsAreSigned(h: History, approvals: seq<GoldenId>)
  {
    forall k, i: nat, g :: (Filed(h, k, i, g) && g.stage == Approved) ==> Signed(g, approvals)
  }

  predicate Signed(g: Golden, approvals: seq<GoldenId>)
  {
    g.approvedBy != "" && g.reason != "" && g.id in approvals
  }

  /** The approval numbered p is on file, and what it supersedes was approved before it. */
  ghost predicate SupersedesEarlier(h: History, approvals: seq<GoldenId>, p: nat)
    requires p < |approvals|
  {
    exists k, i: nat, g ::
      Filed(h, k, i, g) && g.stage == Approved && g.id == approvals[p] && Follows(g, approvals[..p])
  }

  predicate Follows(g: Golden, approvals: seq<GoldenId>)
  {
    g.supersedes.Some? ==> g.supersedes.value in approvals
  }

  ghost predicate ApprovalsAreOrdered(h: History, approvals: seq<GoldenId>)
  {
    && (forall p: nat | p < |approvals| :: SupersedesEarlier(h, approvals, p))
    && (forall p: nat, q: nat | p < q < |approvals| :: approvals[p] != approvals[q])
  }

  ghost predicate Sound(b: Book)
  {
    && IdentifiersAgree(b.history)
    && BaselinesAreFiled(b)
    && ApprovalsAreSigned(b.history, b.approvals)
    && ApprovalsAreOrdered(b.history, b.approvals)
    && b.pending == |Awaiting(b.history)|
  }

  /** later is g, or g once approved. */
  predicate Survives(g: Golden, later: Golden)
  {
    || later == g
    || (g.stage == Candidate && later.stage == Approved
        && later == g.(stage := Approved, approvedAt := later.approvedAt, approvedBy := later.approvedBy,
                       reason := later.reason, supersedes := later.supersedes))
  }

  /** Nothing is lost: every record stays where it was, except that a candidate may have been approved. */
  ghost predicate Extends(h: History, later: History)
  {
    forall k, i: nat, g :: Filed(h, k, i, g) ==> k in later && i < |later[k]| && Survives(g, later[k][i])
  }

  lemma ExtendsChains(h: History, h1: History, h2: History)
    requires Extends(h, h1) && Extends(h1, h2)
    ensures Extends(h, h2)
  {
    forall k, i: nat, g | Filed(h, k, i, g) ensures k in h2 && i < |h2[k]| && Survives(g, h2[k][i]) {
      assert Filed(h1, k, i, h1[k][i]);
    }
  }

  /** Approvals stay in order while approved records stay and none is added. */
  lemma OrderSurvives(h: History, later: History, approvals: seq<GoldenId>)
    requires ApprovalsAreOrdered(h, approvals) && Extends(h, later)
    ensures ApprovalsAreOrdered(later, approvals)
  {
    forall p: nat | p < |approvals| ensures SupersedesEarlier(later, approvals, p) {
      assert SupersedesEarlier(h, approvals, p);
      var k, i: nat, g :|
        Filed(h, k, i, g) && g.stage == Approved && g.id == approvals[p] && Follows(g, approvals[..p]);
      assert Filed(later, k, i, g);
    }
  }

  lemma BaselinesSurvive(b: Book, b': Book)
    requires BaselinesAreFiled(b) && Extends(b.history, b'.history)
    requires forall k :: k in b'.current ==> k in b.current && b'.current[k] == b.current[k]
    ensures BaselinesAreFiled(b')
  {
    forall k | k in b'.current ensures exists i: nat :: Filed(b'.history, k, i, b'.current[k]) {
      var i: nat :| Filed(b.history, k, i, b.current[k]);
      assert Filed(b'.history, k, i, b.current[k]);
    }
  }

  lemma AppendExtends(h: History, key: GoldenKey, x: Golden)
    ensures Extends(h, Append(h, key, x))
  {
  }

  lemma RecordedIsSound(b: Book, id: GoldenId, key: GoldenKey, observation: Observation, now: int)
    requires Sound(b) && Unused(b.history, id)
    ensures Sound(Recorded(b, id, key, observation, now))
    ensures Extends(b.history, Recorded(b, id, key, observation, now).history)
  {
    var b' := Recorded(b, id, key, observation, now);
    var g := b'.history[key][|Records(b.history, key)|];
    assert b'.history == Append(b.history, key, g);
    AppendExtends(b.history, key, g);
    AppendKeepsIdentifiers(b.history, key, g);
    FiledAfterAppend(b.history, key, g);
    AwaitingAfterAppend(b.history, key, g);
    BaselinesSurvive(b, b');
    OrderSurvives(b.history, b'.history, b.approvals);
  }

  /** A copy of a baseline can be appended without disturbing anything but its place in current. */
  lemma CopyingIsSound(b: Book, key: GoldenKey, x: Golden)
    requires Sound(b) && key in b.current && !Original(x) && x.key == key && x.id == b.current[key].id
    ensures var h := Append(b.history, key, x);
            Sound(b.(history := h)) && Extends(b.history, h)
  {
    var b' := b.(history := Append(b.history, key, x));
    var i: nat :| Filed(b.history, key, i, b.current[key]);
    assert CopiesBaseline(b.history, key, |Records(b.history, key)|, x);
    AppendExtends(b.history, key, x);
    AppendKeepsIdentifiers(b.history, key, x);
    FiledAfterAppend(b.history, key, x);
    AwaitingAfterAppend(b.history, key, x);
    BaselinesSurvive(b, b');
    OrderSurvives(b.history, b'.history, b.approvals);
  }

  lemma BaselineIsIts(b: Book, key: GoldenKey)
    requires Sound(b) && key in b.current
    ensures b.current[key].key == key && Signed(b.current[key], b.approvals)
  {
  }

  lemma RetiredIsSound(b: Book, key: GoldenKey, author: string, reason: string)
    requires Sound(b) && key in b.current
    ensures Sound(RetiredAt(b, key, author, reason))
    ensures Extends(b.history, RetiredAt(b, key, author, reason).history)
  {
    var x := b.current[key].(stage := Retired, approvedBy := author, reason := reason);
    BaselineIsIts(b, key);
    CopyingIsSound(b, key, x);
    BaselinesSurvive(b.(history := Append(b.history, key, x)), RetiredAt(b, key, author, reason));
  }

  lemma KeptIsSound(b: Book, key: GoldenKey)
    requires Sound(b)
    ensures Sound(b.(history := Kept(b, key))) && Extends(b.history, Kept(b, key))
  {
    if key in b.current {
      BaselineIsIts(b, key);
      CopyingIsSound(b, key, b.current[key].(stage := Superseded));
    }
  }

  /** Putting the promoted record in its candidate's place, once the old baseline is kept. */
  lemma PromotingIsSound(b: Book, key: GoldenKey, n: nat, x: Golden)
    requires Sound(b) && key in b.history && n < |b.history[key]| && b.history[key][n].stage == Candidate
    requires x.stage == Approved && Survives(b.history[key][n], x) && x.approvedBy != "" && x.reason != ""
    requires Follows(x, b.approvals)
    ensures var h := Replace(b.history, key, n, x);
            Sound(Book(b.current[key := x], h, b.pending - 1, b.approvals + [x.id])) && Extends(b.history, h)
  {
    var h := Replace(b.history, key, n, x);
    var approvals := b.approvals + [x.id];
    assert Filed(b.history, key, n, b.history[key][n]);
    ReplaceKeepsIdentifiers(b.history, key, n, x);
    FiledAfterReplace(b.history, key, n, x);
    AwaitingAfterReplace(b.history, key, n, x);
    assert Filed(h, key, n, x);
    PromotingKeepsBaselines(b, key, n, x);
    PromotingKeepsOrder(b, key, n, x);
    forall k, i: nat, g | Filed(h, k, i, g) && g.stage == Approved ensures Signed(g, approvals) {
      if !(k == key && i == n) {
        assert Signed(g, b.approvals);
      }
    }
  }

  lemma PromotingKeepsBaselines(b: Book, key: GoldenKey, n: nat, x: Golden)
    requires BaselinesAreFiled(b) && key in b.history && n < |b.history[key]| && b.history[key][n].stage == Candidate
    requires x.stage == Approved
    ensures BaselinesAreFiled(b.(current := b.current[key := x], history := Replace(b.history, key, n, x)))
  {
    var h := Replace(b.history, key, n, x);
    var current := b.current[key := x];
    forall k | k in current ensures exists i: nat :: Filed(h, k, i, current[k]) {
      if k == key {
        assert Filed(h, k, n, x);
      } else {
        var i: nat :| Filed(b.history, k, i, b.current[k]);
        assert Filed(h, k, i, b.current[k]);
      }
    }
  }

  lemma PromotingKeepsOrder(b: Book, key: GoldenKey, n: nat, x: Golden)
    requires IdentifiersAgree(b.history) && ApprovalsAreOrdered(b.history, b.approvals)
    requires key in b.history && n < |b.history[key]| && b.history[key][n].stage == Candidate
    requires x.stage == Approved && x.id == b.history[key][n].id && Follows(x, b.approvals)
    ensures ApprovalsAreOrdered(Replace(b.history, key, n, x), b.approvals + [x.id])
  {
    var h := Replace(b.history, key, n, x);
    var approvals := b.approvals + [x.id];
    assert Filed(b.history, key, n, b.history[key][n]);
    forall p: nat | p < |approvals| ensures SupersedesEarlier(h, approvals, p) {
      if p < |b.approvals| {
        assert SupersedesEarlier(b.history, b.approvals, p);
        var k, i: nat, g :| Filed(b.history, k, i, g) && g.stage == Approved && g.id == b.approvals[p]
                            && Follows(g, b.approvals[..p]);
        assert Filed(h, k, i, g);
        assert approvals[..p] == b.approvals[..p];
      } else {
        assert approvals[..p] == b.approvals;
        assert Filed(h, key, n, x);
      }
    }
    forall p: nat | p < |b.approvals| ensures b.approvals[p] != x.id {
      assert SupersedesEarlier(b.history, b.approvals, p);
    }
  }

  lemma ApprovedIsSound(b: Book, key: GoldenKey, i: nat, author: string, reason: string, now: int)
    requires Sound(b) && key in b.history && i < |b.history[key]| && b.history[key][i].stage == Candidate
    requires author != "" && reason != ""
    ensures Sound(ApprovedAt(b, key, i, author, reason, now))
    ensures Extends(b.history, ApprovedAt(b, key, i, author, reason, now).history)
  {
    var kept := b.(history := Kept(b, key));
    var g := b.history[key][i];
    var x := Promoted(b, g, author, reason, now);
    KeptIsSound(b, key);
    assert Filed(b.history, key, i, g);
    assert kept.history[key][i] == g;
    if key in b.current {
      BaselineIsIts(b, key);
    }
    PromotingIsSound(kept, key, i, x);
    ExtendsChains(b.history, kept.history, ApprovedAt(b, key, i, author, reason, now).history);
  }

  /** The record an approval finds: the first one carrying the identifier under some key. */
  ghost predicate Finds(h: History, id: GoldenId, key: GoldenKey, i: nat)
  {
    && key in h && i < |h[key]| && h[key][i].id == id
    && forall j: nat :: j < i ==> h[key][j].id != id
  }

  /** The identifier leads to a record that can still be approved. */
  ghost predicate Approvable(h: History, id: GoldenId, key: GoldenKey, i: nat)
  {
    Finds(h, id, key, i) && h[key][i].stage != Approved
  }

  /** Whatever order the keys are visited in, an identifier leads to its one recording and never to a copy. */
  lemma FindsTheRecording(b: Book, id: GoldenId, key: GoldenKey, i: nat, other: GoldenKey, j: nat)
    requires Sound(b) && Finds(b.history, id, key, i) && Finds(b.history, id, other, j)
    ensures Original(b.history[key][i]) && key == other && i == j
  {
    FindsAnOriginal(b, id, key, i);
    FindsAnOriginal(b, id, other, j);
  }

  lemma FindsAnOriginal(b: Book, id: GoldenId, key: GoldenKey, i: nat)
    requires Sound(b) && Finds(b.history, id, key, i)
    ensures Original(b.history[key][i]) && Filed(b.history, key, i, b.history[key][i])
  {
    var g := b.history[key][i];
    assert Filed(b.history, key, i, g);
    assert Original(g) || CopiesBaseline(b.history, key, i, g);
  }

  /** Refusing one approved record is refusing the only record there is to approve. */
  lemma RefusesOnlyTheApproved(b: Book, id: GoldenId, key: GoldenKey, i: nat)
    requires Sound(b) && Finds(b.history, id, key, i) && b.history[key][i].stage == Approved
    ensures !exists k, j: nat :: Approvable(b.history, id, k, j)
  {
    forall k, j: nat | Finds(b.history, id, k, j) ensures !Approvable(b.history, id, k, j) {
      FindsTheRecording(b, id, key, i, k, j);
    }
  }

  lemma NothingToApprove(h: History, id: GoldenId)
    requires Unused(h, id)
    ensures !exists k, j: nat :: Approvable(h, id, k, j)
  {
    forall k, j: nat | k in h && j < |h[k]| ensures !Approvable(h, id, k, j) {
      assert Filed(h, k, j, h[k][j]);
    }
  }

  // ---- Whole runs ----

  datatype Operation =
    | Record(id: GoldenId, scenario: Scenario, observed: string, observation: Observation, at: int)
    | Approve(id: GoldenId, author: string, reason: string, at: int)
    | Retire(key: GoldenKey, author: string, reason: string)

  /** What one call leaves behind; a call that fails changes nothing. */
  ghost predicate Step(b: Book, op: Operation, b': Book)
  {
    match op
    case Record(id, scenario, observed, observation, at) =>
      Unused(b.history, id) &&
      if observed == scenario.id then b' == Recorded(b, id, scenario.key, observation, at) else b' == b
    case Approve(id, author, reason, at) =>
      if author != "" && reason != "" && exists k, i: nat :: Approvable(b.history, id, k, i) then
        exists k, i: nat :: Approvable(b.history, id, k, i) && b' == ApprovedAt(b, k, i, author, reason, at)
      else
        b' == b
    case Retire(key, author, reason) =>
      if key in b.current then b' == RetiredAt(b, key, author, reason) else b' == b
  }

  lemma StepIsSound(b: Book, op: Operation, b': Book)
    requires Sound(b) && Step(b, op, b')
    ensures Sound(b') && Extends(b.history, b'.history)
  {
    match op
    case Record(id, scenario, observed, observation, at) =>
      if observed == scenario.id { RecordedIsSound(b, id, scenario.key, observation, at); }
    case Approve(id, author, reason, at) =>
      if b' != b {
        var k, i: nat :| Approvable(b.history, id, k, i) && b' == ApprovedAt(b, k, i, author, reason, at);
        FindsAnOriginal(b, id, k, i);
        ApprovedIsSound(b, k, i, author, reason, at);
      }
    case Retire(key, author, reason) =>
      if key in b.current { RetiredIsSound(b, key, author, reason); }
  }

  ghost predicate Run(books: seq<Book>, ops: seq<Operation>)
  {
    && |books| == |ops| + 1 && books[0] == EMPTY
    && forall t: nat {:trigger ops[t]} | t < |ops| :: Step(books[t], ops[t], books[t + 1])
  }

  /** After any calls at all the counter, the baselines and the approvals agree with the history. */
  lemma {:induction false} RunsAreSound(books: seq<Book>, ops: seq<Operation>, t: nat)
    requires Run(books, ops) && t <= |ops|
    ensures Sound(books[t])
  {
    if t > 0 {
      RunsAreSound(books, ops, t - 1);
      StepIsSound(books[t - 1], ops[t - 1], books[t]);
    } else {
      assert Awaiting(EMPTY.history) == {};
    }
  }

  /** No record is ever lost between two moments of a run. */
  lemma {:induction false} NothingIsLost(books: seq<Book>, ops: seq<Operation>, s: nat, t: nat)
    requires Run(books, ops) && s <= t <= |ops|
    ensures Extends(books[s].history, books[t].history)
    decreases t
  {
    if s < t {
      NothingIsLost(books, ops, s, t - 1);
      RunsAreSound(books, ops, t - 1);
      StepIsSound(books[t - 1], ops[t - 1], books[t]);
      ExtendsChains(books[s].history, books[t - 1].history, books[t].history);
    }
  }

  /** Approved records, each superseding the next. */
  ghost predicate Supersession(h: History, chain: seq<Golden>)
  {
    && (forall n: nat | n < |chain| :: chain[n].stage == Approved && exists k, i: nat :: Filed(h, k, i, chain[n]))
    && (forall n: nat {:trigger chain[n]} | n + 1 < |chain| :: chain[n].supersedes == Some(chain[n + 1].id))
  }

  /** A filed approval has its place among the approvals, after anything it supersedes. */
  lemma HasPlace(b: Book, k: GoldenKey, i: nat, g: Golden) returns (p: nat)
    requires Sound(b) && Filed(b.history, k, i, g) && g.stage == Approved
    ensures p < |b.approvals| && b.approvals[p] == g.id && Follows(g, b.approvals[..p])
  {
    assert Signed(g, b.approvals);
    p :| p < |b.approvals| && b.approvals[p] == g.id;
    assert SupersedesEarlier(b.history, b.approvals, p);
  }

  /** Following Supersedes leads strictly back through earlier approvals, so it never comes round again. */
  lemma {:induction false} SupersessionIsAcyclic(b: Book, chain: seq<Golden>, m: nat, n: nat) returns (p: nat, q: nat)
    requires Sound(b) && Supersession(b.history, chain) && m < n < |chain|
    ensures p < |b.approvals| && b.approvals[p] == chain[m].id
    ensures q < p && b.approvals[q] == chain[n].id && chain[n].id != chain[m].id
    decreases n
  {
    var middle: nat;
    var g := chain[n - 1];
    assert exists k, i: nat :: Filed(b.history, k, i, g);
    var k, i: nat :| Filed(b.history, k, i, g);
    if n == m + 1 {
      p := HasPlace(b, k, i, g);
      middle := p;
    } else {
      p, middle := SupersessionIsAcyclic(b, chain, m, n - 1);
      var place := HasPlace(b, k, i, g);
      assert place == middle;
    }
    assert g.supersedes == Some(chain[n].id);
    q :| q < middle && b.approvals[q] == chain[n].id;
  }

  // ---- What each operation writes down ----

  /** Under every other key nothing changes. */
  ghost predicate OnlyAt(b: Book, b': Book, key: GoldenKey)
  {
    forall k :: k != key ==>
      && (k in b'.current <==> k in b.current) && (k in b.current ==> b'.current[k] == b.current[k])
      && Records(b'.history, k) == Records(b.history, k)
  }

  /** A recording of its own scenario goes to the end of that key's history, unapproved and unsigned. */
  lemma RecordingIsWrittenDown(b: Book, op: Operation, b': Book)
    requires op.Record? && op.observed == op.scenario.id && Step(b, op, b')
    ensures var key := op.scenario.key;
            && Records(b'.history, key)
               == Records(b.history, key)
                  + [Golden(op.id, key, Candidate, op.observation, op.at, 0, "", "", None)]
            && OnlyAt(b, b', key) && b'.current == b.current && b'.approvals == b.approvals
  {
  }

  /** What an approval makes of a recording: signed by the author for the reason, at that instant. */
  predicate ApprovedBy(was: Golden, now: Golden, author: string, reason: string, at: int)
  {
    && now.id == was.id && now.key == was.key && now.observation == was.observation && now.recordedAt == was.recordedAt
    && now.stage == Approved && now.approvedAt == at && now.approvedBy == author && now.reason == reason
  }

  /** A later copy of a baseline differs from it only as said. */
  predicate CopyOf(was: Golden, copy: Golden, stage: Stage, author: string, reason: string)
  {
    && copy.id == was.id && copy.key == was.key && copy.observation == was.observation
    && copy.recordedAt == was.recordedAt && copy.approvedAt == was.approvedAt && copy.supersedes == was.supersedes
    && copy.stage == stage && copy.approvedBy == author && copy.reason == reason
  }

  /**
   Record i under key is approved in place and becomes the baseline; the baseline it replaces is
   the one it supersedes, kept as a superseded copy at the end of the history, signatures and all.
   */
  ghost predicate ApprovalIsOnFile(b: Book, b': Book, key: GoldenKey, i: nat, op: Operation)
    requires op.Approve? && key in b.history && i < |b.history[key]|
  {
    && key in b'.current && key in b'.history && i < |b'.history[key]| && b'.history[key][i] == b'.current[key]
    && ApprovedBy(b.history[key][i], b'.current[key], op.author, op.reason, op.at)
    && OnlyAt(b, b', key) && b'.approvals == b.approvals + [op.id]
    && (forall j :: 0 <= j < |b.history[key]| && j != i ==>
          j < |b'.history[key]| && b'.history[key][j] == b.history[key][j])
    && (if key in b.current then
          var was := b.current[key];
          && b'.current[key].supersedes == Some(was.id) && |b'.history[key]| == |b.history[key]| + 1
          && CopyOf(was, b'.history[key][|b.history[key]|], Superseded, was.approvedBy, was.reason)
        else
          b'.current[key].supersedes == None && |b'.history[key]| == |b.history[key]|)
  }

  lemma ApprovedAtIsOnFile(b: Book, key: GoldenKey, i: nat, op: Operation)
    requires Sound(b) && op.Approve? && Approvable(b.history, op.id, key, i)
    ensures ApprovalIsOnFile(b, ApprovedAt(b, key, i, op.author, op.reason, op.at), key, i, op)
  {
    FindsAnOriginal(b, op.id, key, i);
    assert Filed(b.history, key, i, b.history[key][i]);
  }

  /** A recording with the identifier awaits review there. */
  ghost predicate WaitsFor(h: History, id: GoldenId, key: GoldenKey, i: nat)
  {
    key in h && i < |h[key]| && h[key][i].stage == Candidate && h[key][i].id == id
  }

  lemma WaitingIsApprovable(b: Book, id: GoldenId, key: GoldenKey, i: nat)
    requires Sound(b)
    ensures WaitsFor(b.history, id, key, i) <==> Approvable(b.history, id, key, i)
  {
    if Approvable(b.history, id, key, i) {
      FindsAnOriginal(b, id, key, i);
    }
    if WaitsFor(b.history, id, key, i) {
      assert Filed(b.history, key, i, b.history[key][i]);
      var j := First(b.history[key], id, i);
      FindsAnOriginal(b, id, key, j);
    }
  }

  lemma {:induction false} First(records: seq<Golden>, id: GoldenId, i: nat) returns (j: nat)
    requires i < |records| && records[i].id == id
    ensures j <= i && records[j].id == id && forall k: nat :: k < j ==> records[k].id != id
  {
    j := i;
    if k: nat :| k < i && records[k].id == id {
      j := First(records, id, k);
    }
  }

  /** An approval changes the store exactly when it is signed and the recording awaits review, and then so. */
  lemma ApprovalIsWrittenDown(b: Book, op: Operation, b': Book)
    requires Sound(b) && op.Approve? && Step(b, op, b')
    ensures if op.author != "" && op.reason != "" && exists k, i: nat :: WaitsFor(b.history, op.id, k, i) then
              exists k, i: nat :: WaitsFor(b.history, op.id, k, i) && ApprovalIsOnFile(b, b', k, i, op)
            else b' == b
  {
    forall k, i: nat ensures WaitsFor(b.history, op.id, k, i) <==> Approvable(b.history, op.id, k, i) {
      WaitingIsApprovable(b, op.id, k, i);
    }
    if op.author != "" && op.reason != "" && exists k, i: nat :: Approvable(b.history, op.id, k, i) {
      var k, i: nat :|
        Approvable(b.history, op.id, k, i) && b' == ApprovedAt(b, k, i, op.author, op.reason, op.at);
      ApprovedAtIsOnFile(b, k, i, op);
    }
  }

  /** A retired baseline leaves a copy at the end of its history, signed by who retired it and why. */
  lemma RetirementIsWrittenDown(b: Book, op: Operation, b': Book)
    requires op.Retire? && op.key in b.current && Step(b, op, b')
    ensures var n := |Records(b.history, op.key)|;
            && op.key !in b'.current && OnlyAt(b, b', op.key) && b'.approvals == b.approvals
            && |Records(b'.history, op.key)| == n + 1
            && Records(b'.history, op.key)[..n] == Records(b.history, op.key)
            && CopyOf(b.current[op.key], Records(b'.history, op.key)[n], Retired, op.author, op.reason)
  {
  }

  // ---- The store ----

  datatype Outcome = Done(golden: Golden) | Failed(fault: Fault)

  /** Position of the first record carrying the identifier, or |records|. */
  method FindFirst(records: seq<Golden>, id: GoldenId) returns (i: nat)
    ensures i <= |records| && (i < |records| ==> records[i].id == id)
    ensures forall j: nat :: j < i ==> records[j].id != id
  {
    i := 0;
    while i < |records| && records[i].id != id
      invariant i <= |records|
      invariant forall j: nat :: j < i ==> records[j].id != id
    {
      i := i + 1;
    }
  }

  ghost predicate AwaitsSomewhere(h: History, g: Golden)
  {
    g.stage == Candidate && exists k, i: nat :: Filed(h, k, i, g)
  }

  /** waiting lists the candidates of h, each position once. */
  ghost predicate Walked(h: History, waiting: seq<Golden>)
  {
    |waiting| == |Awaiting(h)| && forall g :: g in waiting <==> AwaitsSomewhere(h, g)
  }

  lemma WalkedOn(h: History, waiting: seq<Golden>, key: GoldenKey, x: Golden)
    requires Walked(h, waiting)
    ensures Walked(Append(h, key, x), if x.stage == Candidate then waiting + [x] else waiting)
  {
    var h' := Append(h, key, x);
    AwaitingAfterAppend(h, key, x);
    FiledAfterAppend(h, key, x);
    assert Filed(h', key, |Records(h, key)|, x);
    forall g | AwaitsSomewhere(h, g) ensures AwaitsSomewhere(h', g) {
      var k, i: nat :| Filed(h, k, i, g);
      assert Filed(h', k, i, g);
    }
    forall g | AwaitsSomewhere(h', g) && g != x ensures AwaitsSomewhere(h, g) {
      var k, i: nat :| Filed(h', k, i, g);
      assert Filed(h, k, i, g);
    }
  }

  lemma SameRecords(h: History, h': History)
    requires forall k :: Records(h, k) == Records(h', k)
    ensures Awaiting(h) == Awaiting(h')
    ensures forall g :: AwaitsSomewhere(h, g) <==> AwaitsSomewhere(h', g)
  {
    forall k, i: nat, g ensures Filed(h, k, i, g) <==> Filed(h', k, i, g) {
      assert Records(h, k) == Records(h', k);
    }
    forall k, i: nat ensures Waits(h, k, i) <==> Waits(h', k, i) {
      assert Records(h, k) == Records(h', k);
    }
    forall p: (GoldenKey, nat) ensures p in Awaiting(h) <==> p in Awaiting(h') {
      assert Waits(h, p.0, p.1) <==> Waits(h', p.0, p.1);
    }
  }

  class GoldenStore {
    var current: map<GoldenKey, Golden>
    var history: History
    var pending: int
    ghost var approvals: seq<GoldenId>

    ghost function Contents(): Book
      reads this
    {
      Book(current, history, pending, approvals)
    }

    ghost predicate Valid()
      reads this
    {
      Sound(Contents())
    }

    constructor ()
      ensures Valid() && Contents() == EMPTY
    {
      current, history, pending, approvals := map[], map[], 0, [];
      new;
      assert Awaiting(history) == {};
    }

    /** id is a freshly generated identifier. */
    method Record(id: GoldenId, scenario: Scenario, observed: string, observation: Observation, now: int)
      returns (r: Outcome)
      requires Valid() && Unused(history, id)
      modifies this
      ensures Valid() && Step(old(Contents()), Operation.Record(id, scenario, observed, observation, now), Contents())
      ensures r.Failed? <==> observed != scenario.id
      ensures match r
              case Failed(fault) => fault == WrongScenario
              case Done(g) =>
                g.stage == Candidate && g.id == id && Waits(history, scenario.key, |history[scenario.key]| - 1)
    {
      if observed != scenario.id {
        return Failed(WrongScenario);
      }
      RecordedIsSound(Contents(), id, scenario.key, observation, now);
      var g := Golden(id, scenario.key, Candidate, observation, now, 0, "", "", None);
      history := history[scenario.key := Records(history, scenario.key) + [g]];
      pending := pending + 1;
      r := Done(g);
    }

    method Approve(id: GoldenId, author: string, reason: string, now: int) returns (r: Outcome)
      requires Valid()
      modifies this
      ensures Valid() && Step(old(Contents()), Operation.Approve(id, author, reason, now), Contents())
      ensures r == Failed(Unattributed) <==> author == "" || reason == ""
      ensures match r
              case Failed(Unattributed) => author == "" || reason == ""
              case Failed(AlreadyApproved) =>
                exists k, i: nat :: Finds(history, id, k, i) && history[k][i].stage == Approved
              case Failed(fault) => fault == NotRegistered && Unused(history, id)
              case Done(g) => g.stage == Approved && g.id == id && g.key in current && current[g.key] == g
    {
      if author == "" || reason == "" {
        return Failed(Unattributed);
      }
      var keys := history.Keys;
      while keys != {}
        invariant Contents() == old(Contents()) && keys <= history.Keys
        invariant forall k, i: nat, g :: Filed(history, k, i, g) && k !in keys ==> g.id != id
        decreases |keys|
      {
        var key :| key in keys;
        keys := keys - {key};
        var idx := FindFirst(history[key], id);
        if idx < |history[key]| {
          assert Finds(history, id, key, idx);
          if history[key][idx].stage == Approved {
            RefusesOnlyTheApproved(Contents(), id, key, idx);
            return Failed(AlreadyApproved);
          }
          r := Promote(id, key, idx, author, reason, now);
          return;
        }
      }
      NothingToApprove(history, id);
      r := Failed(NotRegistered);
    }

    /** The part of Approve that runs once the recording is found. */
    method Promote(ghost id: GoldenId, key: GoldenKey, idx: nat, author: string, reason: string, now: int)
      returns (r: Outcome)
      requires Valid() && Approvable(history, id, key, idx) && author != "" && reason != ""
      modifies this
      ensures Valid() && Contents() == ApprovedAt(old(Contents()), key, idx, author, reason, now)
      ensures Step(old(Contents()), Operation.Approve(id, author, reason, now), Contents())
      ensures r == Done(current[key]) && r.golden.stage == Approved && r.golden.id == id && r.golden.key == key
    {
      ghost var was := Contents();
      FindsAnOriginal(was, id, key, idx);
      ApprovedIsSound(was, key, idx, author, reason, now);
      var promoted := history[key][idx];
      pending := pending - 1;
      promoted := promoted.(stage := Approved, approvedAt := now, approvedBy := author, reason := reason);
      if key in current {
        history := history[key := history[key] + [current[key].(stage := Superseded)]];
        promoted := promoted.(supersedes := Some(current[key].id));
      }
      history := history[key := history[key][idx := promoted]];
      current := current[key := promoted];
      approvals := approvals + [promoted.id];
      assert Contents() == ApprovedAt(was, key, idx, author, reason, now);
      r := Done(promoted);
    }

    /** The baseline for a key. */
    method Baseline(key: GoldenKey) returns (r: Outcome)
      requires Valid()
      ensures r == if key in current then Done(current[key]) else Failed(NoGolden)
      ensures r.Done? ==> r.golden.key == key && Signed(r.golden, approvals)
      ensures r.Done? ==> exists i: nat :: Filed(history, key, i, r.golden)
    {
      if key !in current {
        return Failed(NoGolden);
      }
      BaselineIsIts(Contents(), key);
      r := Done(current[key]);
    }

    method Retire(key: GoldenKey, author: string, reason: string) returns (fault: Option<Fault>)
      requires Valid()
      modifies this
      ensures Valid() && Step(old(Contents()), Operation.Retire(key, author, reason), Contents())
      ensures fault == if key in old(current) then None else Some(NoGolden)
      ensures key !in current
    {
      if key !in current {
        return Some(NoGolden);
      }
      RetiredIsSound(Contents(), key, author, reason);
      var retired := current[key].(stage := Retired, approvedBy := author, reason := reason);
      history := history[key := Records(history, key) + [retired]];
      current := current - {key};
      fault := None;
    }

    /** The counter, for comparison with the walk below. */
    method PendingCount() returns (n: int)
      requires Valid()
      ensures n == |Awaiting(history)|
    {
      n := pending;
    }

    /** One key's unapproved recordings, oldest first; walked is the part of the history already walked. */
    method Candidates(key: GoldenKey, ghost walked: History, ghost waiting: seq<Golden>) returns (found: seq<Golden>)
      requires Walked(walked, waiting) && Records(walked, key) == []
      ensures Walked(walked[key := Records(history, key)], waiting + found)
    {
      var records := if key in history then history[key] else [];
      found := [];
      SameRecords(walked, walked[key := []]);
      assert waiting + found == waiting;
      for i := 0 to |records|
        invariant Walked(walked[key := records[..i]], waiting + found)
      {
        WalkedOn(walked[key := records[..i]], waiting + found, key, records[i]);
        assert records[..i] + [records[i]] == records[..i + 1];
        assert walked[key := records[..i]][key := records[..i + 1]] == walked[key := records[..i + 1]];
        assert waiting + found + [records[i]] == waiting + (found + [records[i]]);
        if records[i].stage == Candidate {
          found := found + [records[i]];
        }
      }
      assert records[..|records|] == records;
    }

    /** Walks every history; it finds exactly as many candidates as the counter says. */
    method PendingApprovals() returns (waiting: seq<Golden>)
      requires Valid()
      ensures |waiting| == pending
      ensures forall g :: g in waiting <==> AwaitsSomewhere(history, g)
    {
      waiting := [];
      var keys := history.Keys;
      ghost var walked: History := map[];
      assert Awaiting(walked) == {};
      while keys != {}
        invariant keys <= history.Keys && Walked(walked, waiting)
        invariant forall k :: Records(walked, k) == if k in keys then [] else Records(history, k)
        decreases |keys|
      {
        var key :| key in keys;
        keys := keys - {key};
        ghost var walkedBefore := walked;
        var found := Candidates(key, walked, waiting);
        waiting := waiting + found;
        walked := walked[key := history[key]];
        assert forall k :: k != key ==> Records(walked, k) == Records(walkedBefore, k);
      }
      SameRecords(walked, history);
    }
  }
}
