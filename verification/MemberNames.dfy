/**
 The strict member-name check: an explicit stack over a JSON document's tokens, against a
 recursive predicate over the document itself.
 */
module MemberNames {

  datatype Token = ObjectOpen | ObjectClose | ArrayOpen | ArrayClose | Text(value: string) | Scalar

  /** A document as the decoder's tokens describe it; a number, a boolean or null is Plain. */
  datatype Json = Plain | Str(value: string) | Arr(items: seq<Json>) | Obj(members: seq<Member>)
  datatype Member = Member(name: string, value: Json)

  function Tokens(j: Json): seq<Token>
    decreases j, 1
  {
    match j
    case Plain => [Scalar]
    case Str(value) => [Text(value)]
    case Arr(items) => [ArrayOpen] + AllTokens(items) + [ArrayClose]
    case Obj(members) => [ObjectOpen] + MemberTokens(members) + [ObjectClose]
  }

  function AllTokens(items: seq<Json>): seq<Token>
    decreases items, 0
  {
    if items == [] then [] else Tokens(items[0]) + AllTokens(items[1..])
  }

  function MemberTokens(members: seq<Member>): seq<Token>
    decreases members, 0
  {
    if members == [] then []
    else [Text(members[0].name)] + Tokens(members[0].value) + MemberTokens(members[1..])
  }

  predicate LowerAsciiName(s: string)
  {
    s != "" && forall i :: 0 <= i < |s| ==> 'a' <= s[i] <= 'z'
  }

  const LETTERS := "abcdefghijklmnopqrstuvwxyz"

  lemma LettersInOrder(c: char)
    ensures 'a' <= c <= 'z' <==> c in LETTERS
  {
    if 'a' <= c <= 'z' {
      var i := c as int - 'a' as int;
      assert LETTERS[i] == c;
    }
  }

  /** A name is written in the letters, and in at least one of them. */
  lemma NamesAreOfLetters(s: string)
    ensures LowerAsciiName(s) <==> |s| > 0 && forall c :: c in s ==> c in LETTERS
  {
    forall i | 0 <= i < |s| ensures 'a' <= s[i] <= 'z' <==> s[i] in LETTERS {
      LettersInOrder(s[i]);
    }
    if |s| > 0 && forall c :: c in s ==> c in LETTERS {
      assert forall i :: 0 <= i < |s| ==> s[i] in s;
    }
  }

  method IsLowerAsciiName(s: string) returns (b: bool)
    ensures b == LowerAsciiName(s)
  {
    if s == "" {
      return false;
    }
    for i := 0 to |s|
      invariant forall k :: 0 <= k < i ==> 'a' <= s[k] <= 'z'
    {
      if s[i] < 'a' || s[i] > 'z' {
        return false;
      }
    }
    return true;
  }

  /** Every object at every depth has lower-case, pairwise distinct member names. */
  predicate WellNamed(j: Json)
    decreases j, 1
  {
    match j
    case Plain => true
    case Str(_) => true
    case Arr(items) => AllWellNamed(items)
    case Obj(members) => DistinctNames(members) && MembersWellNamed(members)
  }

  predicate DistinctNames(members: seq<Member>)
  {
    && (forall i :: 0 <= i < |members| ==> LowerAsciiName(members[i].name))
    && forall i, k :: 0 <= i < k < |members| ==> members[i].name != members[k].name
  }

  predicate AllWellNamed(items: seq<Json>)
    decreases items, 0
  {
    items == [] || (WellNamed(items[0]) && AllWellNamed(items[1..]))
  }

  predicate MembersWellNamed(members: seq<Member>)
    decreases members, 0
  {
    members == [] || (WellNamed(members[0].value) && MembersWellNamed(members[1..]))
  }

  /** What is wrong with a document, by its first offending name in reading order. */
  datatype Flaw = Flawless | Misspelt | Repeated

  function FlawIn(j: Json): Flaw
    decreases j, 1
  {
    match j
    case Plain => Flawless
    case Str(_) => Flawless
    case Arr(items) => FlawInItems(items)
    case Obj(members) => FlawInMembers(members, {})
  }

  function FlawInItems(items: seq<Json>): Flaw
    decreases items, 0
  {
    if items == [] then Flawless
    else if FlawIn(items[0]) != Flawless then FlawIn(items[0])
    else FlawInItems(items[1..])
  }

  /** Of the rest of an object, given the names seen: each name comes before its value. */
  function FlawInMembers(members: seq<Member>, seen: set<string>): Flaw
    decreases members, 0
  {
    if members == [] then Flawless
    else if !LowerAsciiName(members[0].name) then Misspelt
    else if members[0].name in seen then Repeated
    else if FlawIn(members[0].value) != Flawless then FlawIn(members[0].value)
    else FlawInMembers(members[1..], seen + {members[0].name})
  }

  // ---- The walk ----

  /** A container the walk is inside of. */
  datatype Frame = Frame(isObject: bool, expectKey: bool, seen: set<string>)

  const NEW_OBJECT := Frame(true, true, {})
  const NEW_ARRAY := Frame(false, false, {})

  /** Panicked is a pop of an empty stack, which would end the program. */
  datatype Walk = Walking(stack: seq<Frame>) | BadName | Duplicated | Panicked

  predicate ExpectingKey(stack: seq<Frame>)
  {
    stack != [] && stack[|stack| - 1].isObject && stack[|stack| - 1].expectKey
  }

  /** After a whole value, an object waits for a name. */
  function Done(stack: seq<Frame>): seq<Frame>
  {
    if stack != [] && stack[|stack| - 1].isObject then
      stack[|stack| - 1 := stack[|stack| - 1].(expectKey := true)]
    else stack
  }

  function Popped(stack: seq<Frame>): Walk
  {
    if stack == [] then Panicked else Walking(Done(stack[..|stack| - 1]))
  }

  function Step(stack: seq<Frame>, token: Token): Walk
  {
    if ExpectingKey(stack) then
      var top := |stack| - 1;
      match token
      case ObjectClose => Popped(stack)
      case Text(name) =>
        if !LowerAsciiName(name) then BadName
        else if name in stack[top].seen then Duplicated
        else Walking(stack[top := Frame(true, false, stack[top].seen + {name})])
      case _ => BadName
    else
      match token
      case ObjectOpen => Walking(stack + [NEW_OBJECT])
      case ArrayOpen => Walking(stack + [NEW_ARRAY])
      case ArrayClose => Popped(stack)
      case _ => Walking(Done(stack))
  }

  function Steps(w: Walk, tokens: seq<Token>): Walk
    decreases |tokens|
  {
    if tokens == [] || !w.Walking? then w else Steps(Step(w.stack, tokens[0]), tokens[1..])
  }

  lemma {:induction false} StepsConcat(w: Walk, a: seq<Token>, b: seq<Token>)
    ensures Steps(w, a + b) == Steps(Steps(w, a), b)
    decreases |a|
  {
    if a == [] {
      assert a + b == b;
    } else if w.Walking? {
      assert (a + b)[1..] == a[1..] + b;
      StepsConcat(Step(w.stack, a[0]), a[1..], b);
    }
  }

  lemma OneStep(stack: seq<Frame>, token: Token, rest: seq<Token>)
    ensures Steps(Walking(stack), [token] + rest) == Steps(Step(stack, token), rest)
  {
  }

  lemma LastStep(w: Walk, tokens: seq<Token>, token: Token)
    ensures Steps(w, tokens + [token])
            == var u := Steps(w, tokens); if u.Walking? then Step(u.stack, token) else u
  {
    StepsConcat(w, tokens, [token]);
    var u := Steps(w, tokens);
    if u.Walking? { OneStep(u.stack, token, []); assert [token] + [] == [token]; }
  }

  /** What a walk with this flaw, or none, comes to. */
  function Met(flaw: Flaw, stack: seq<Frame>): Walk
  {
    match flaw
    case Flawless => Walking(stack)
    case Misspelt => BadName
    case Repeated => Duplicated
  }

  function Names(members: seq<Member>): set<string>
  {
    set m | m in members :: m.name
  }

  lemma DistinctTail(members: seq<Member>)
    requires members != [] && DistinctNames(members)
    ensures LowerAsciiName(members[0].name) && members[0].name !in Names(members[1..])
    ensures DistinctNames(members[1..])
  {
    assert forall k :: 0 <= k < |members| - 1 ==> members[1..][k] == members[k + 1];
  }

  lemma DistinctWith(head: Member, tail: seq<Member>)
    requires DistinctNames(tail) && LowerAsciiName(head.name) && head.name !in Names(tail)
    ensures DistinctNames([head] + tail)
  {
    assert forall m :: m in tail ==> m.name in Names(tail);
    forall k | 0 <= k < |tail| ensures tail[k].name != head.name {
      assert tail[k] in tail;
    }
  }

  /** Names are distinct if those after the first are, and the first is well spelled and not among them. */
  lemma DistinctNext(members: seq<Member>)
    requires members != []
    ensures Names(members) == {members[0].name} + Names(members[1..])
    ensures DistinctNames(members) <==>
              && LowerAsciiName(members[0].name) && members[0].name !in Names(members[1..])
              && DistinctNames(members[1..])
  {
    var head, tail := members[0], members[1..];
    assert members == [head] + tail;
    if DistinctNames(members) {
      DistinctTail(members);
    } else if LowerAsciiName(head.name) && head.name !in Names(tail) && DistinctNames(tail) {
      DistinctWith(head, tail);
    }
  }

  lemma {:induction false} NamedIsDistinct(members: seq<Member>, seen: set<string>)
    ensures FlawInMembers(members, seen) == Flawless <==>
              DistinctNames(members) && MembersWellNamed(members) && Names(members) !! seen
    decreases members, 0
  {
    if members != [] {
      FlawlessIsWellNamed(members[0].value);
      NamedIsDistinct(members[1..], seen + {members[0].name});
      DistinctNext(members);
    }
  }

  /** Nothing is wrong exactly with a well-named document. */
  lemma {:induction false} FlawlessIsWellNamed(j: Json)
    ensures FlawIn(j) == Flawless <==> WellNamed(j)
    decreases j, 1
  {
    match j
    case Plain =>
    case Str(_) =>
    case Arr(items) => FlawlessItems(items);
    case Obj(members) => NamedIsDistinct(members, {});
  }

  lemma {:induction false} FlawlessItems(items: seq<Json>)
    ensures FlawInItems(items) == Flawless <==> AllWellNamed(items)
    decreases items, 0
  {
    if items != [] {
      FlawlessIsWellNamed(items[0]);
      FlawlessItems(items[1..]);
    }
  }

  /**
   One whole value in value position: the walk refuses it exactly when some object in it is
   badly named, for the first offending name, and otherwise ends with the stack it began with,
   the value counted as done.
   */
  lemma {:induction false} ValueWalk(j: Json, stack: seq<Frame>)
    requires !ExpectingKey(stack)
    ensures Steps(Walking(stack), Tokens(j)) == Met(FlawIn(j), Done(stack))
    ensures FlawIn(j) == Flawless <==> WellNamed(j)
    decreases j, 1
  {
    FlawlessIsWellNamed(j);
    match j
    case Plain => LastStep(Walking(stack), [], Scalar);
    case Str(value) => LastStep(Walking(stack), [], Text(value));
    case Arr(items) => ArrayWalk(items, stack);
    case Obj(members) => ObjectWalk(members, stack);
  }

  /** A closing token leaves the container it belongs to. */
  lemma Closes(stack: seq<Frame>, f: Frame, token: Token)
    requires if f.isObject then f.expectKey && token == ObjectClose else token == ArrayClose
    ensures Step(stack + [f], token) == Walking(Done(stack))
  {
    assert (stack + [f])[..|stack|] == stack;
  }

  lemma {:induction false} ArrayWalk(items: seq<Json>, stack: seq<Frame>)
    requires !ExpectingKey(stack)
    ensures Steps(Walking(stack), Tokens(Arr(items))) == Met(FlawInItems(items), Done(stack))
    decreases items, 1
  {
    var inner, rest := stack + [NEW_ARRAY], AllTokens(items) + [ArrayClose];
    assert Tokens(Arr(items)) == [ArrayOpen] + rest;
    OneStep(stack, ArrayOpen, rest);
    ItemsWalk(items, inner);
    LastStep(Walking(inner), AllTokens(items), ArrayClose);
    Closes(stack, NEW_ARRAY, ArrayClose);
  }

  lemma {:induction false} ObjectWalk(members: seq<Member>, stack: seq<Frame>)
    requires !ExpectingKey(stack)
    ensures Steps(Walking(stack), Tokens(Obj(members))) == Met(FlawInMembers(members, {}), Done(stack))
    decreases members, 1
  {
    var inner, rest := stack + [NEW_OBJECT], MemberTokens(members) + [ObjectClose];
    assert Tokens(Obj(members)) == [ObjectOpen] + rest;
    OneStep(stack, ObjectOpen, rest);
    MembersWalk(members, inner);
    LastStep(Walking(inner), MemberTokens(members), ObjectClose);
    var full := Frame(true, true, {} + Names(members));
    assert inner[|stack| := full] == stack + [full];
    Closes(stack, full, ObjectClose);
  }

  lemma {:induction false} ItemsWalk(items: seq<Json>, stack: seq<Frame>)
    requires stack == [] || !stack[|stack| - 1].isObject
    ensures Steps(Walking(stack), AllTokens(items)) == Met(FlawInItems(items), stack)
    decreases items, 0
  {
    if items != [] {
      ValueWalk(items[0], stack);
      StepsConcat(Walking(stack), Tokens(items[0]), AllTokens(items[1..]));
      if FlawIn(items[0]) == Flawless { ItemsWalk(items[1..], stack); }
    }
  }

  lemma {:induction false} MembersWalk(members: seq<Member>, stack: seq<Frame>)
    requires stack != [] && stack[|stack| - 1].isObject && stack[|stack| - 1].expectKey
    ensures var top := stack[|stack| - 1];
            Steps(Walking(stack), MemberTokens(members))
            == Met(FlawInMembers(members, top.seen), stack[|stack| - 1 := Frame(true, true, top.seen + Names(members))])
    decreases members, 0
  {
    var n, top := |stack| - 1, stack[|stack| - 1];
    if members == [] {
      assert Names(members) == {} && top == Frame(true, true, top.seen + {});
      assert stack[n := top] == stack;
    } else {
      var m, rest := members[0], MemberTokens(members[1..]);
      MemberWalk(m.name, m.value, stack, rest);
      assert MemberTokens(members) == [Text(m.name)] + (Tokens(m.value) + rest);
      if LowerAsciiName(m.name) && m.name !in top.seen && FlawIn(m.value) == Flawless {
        MembersWalk(members[1..], stack[n := Frame(true, true, top.seen + {m.name})]);
        NamesNext(members, top.seen);
        Overwritten(stack, n, Frame(true, true, top.seen + {m.name}), Frame(true, true, top.seen + Names(members)));
      }
    }
  }

  lemma NamesNext(members: seq<Member>, seen: set<string>)
    requires members != []
    ensures seen + {members[0].name} + Names(members[1..]) == seen + Names(members)
  {
    assert members == [members[0]] + members[1..];
  }

  lemma Overwritten<T>(s: seq<T>, n: nat, x: T, y: T)
    requires n < |s|
    ensures s[n := x][n := y] == s[n := y]
  {
  }

  /** One member: its name is recorded, and its value leaves the object waiting for the next name. */
  lemma {:induction false} MemberWalk(name: string, value: Json, stack: seq<Frame>, rest: seq<Token>)
    requires stack != [] && stack[|stack| - 1].isObject && stack[|stack| - 1].expectKey
    ensures var w, top := Steps(Walking(stack), [Text(name)] + (Tokens(value) + rest)), stack[|stack| - 1];
            if !LowerAsciiName(name) then w == BadName
            else if name in top.seen then w == Duplicated
            else if FlawIn(value) != Flawless then w == Met(FlawIn(value), stack)
            else w == Steps(Walking(stack[|stack| - 1 := Frame(true, true, top.seen + {name})]), rest)
    decreases value, 2
  {
    var n, top := |stack| - 1, stack[|stack| - 1];
    OneStep(stack, Text(name), Tokens(value) + rest);
    if LowerAsciiName(name) && name !in top.seen {
      var named := stack[n := Frame(true, false, top.seen + {name})];
      ValueWalk(value, named);
      StepsConcat(Walking(named), Tokens(value), rest);
      assert Done(named) == stack[n := Frame(true, true, top.seen + {name})];
    }
  }

  // ---- Documents cut short ----

  /** Inside a value the stack is deeper than where the value began. */
  lemma {:induction false} ValuePrefix(j: Json, stack: seq<Frame>, k: nat)
    requires !ExpectingKey(stack) && 0 < k < |Tokens(j)|
    ensures var w := Steps(Walking(stack), Tokens(j)[..k]);
            w.Walking? ==> |w.stack| > |stack|
    decreases j, 1
  {
    match j
    case Plain =>
    case Str(_) =>
    case Arr(items) =>
      assert Tokens(j)[..k] == [ArrayOpen] + AllTokens(items)[..k - 1];
      OneStep(stack, ArrayOpen, AllTokens(items)[..k - 1]);
      ItemsPrefix(items, stack + [NEW_ARRAY], k - 1);
    case Obj(members) =>
      assert Tokens(j)[..k] == [ObjectOpen] + MemberTokens(members)[..k - 1];
      OneStep(stack, ObjectOpen, MemberTokens(members)[..k - 1]);
      MembersPrefix(members, stack + [NEW_OBJECT], k - 1);
  }

  lemma {:induction false} ItemsPrefix(items: seq<Json>, stack: seq<Frame>, k: nat)
    requires (stack == [] || !stack[|stack| - 1].isObject) && k <= |AllTokens(items)|
    ensures var w := Steps(Walking(stack), AllTokens(items)[..k]);
            w.Walking? ==> |w.stack| >= |stack|
    decreases items, 0
  {
    if items != [] {
      var first, rest := Tokens(items[0]), AllTokens(items[1..]);
      if k <= |first| {
        assert AllTokens(items)[..k] == first[..k];
        if 0 < k < |first| { ValuePrefix(items[0], stack, k); }
        if k == |first| { assert first[..k] == first; ValueWalk(items[0], stack); }
      } else {
        assert AllTokens(items)[..k] == first + rest[..k - |first|];
        StepsConcat(Walking(stack), first, rest[..k - |first|]);
        ValueWalk(items[0], stack);
        ItemsPrefix(items[1..], stack, k - |first|);
      }
    }
  }

  lemma {:induction false} MembersPrefix(members: seq<Member>, stack: seq<Frame>, k: nat)
    requires stack != [] && stack[|stack| - 1].isObject && stack[|stack| - 1].expectKey
    requires k <= |MemberTokens(members)|
    ensures var w := Steps(Walking(stack), MemberTokens(members)[..k]);
            w.Walking? ==> |w.stack| >= |stack|
    decreases members, 0
  {
    if members != [] && k > 0 {
      var m, n, top := members[0], |stack| - 1, stack[|stack| - 1];
      var value, rest := Tokens(m.value), MemberTokens(members[1..]);
      var tail := (value + rest)[..k - 1];
      assert MemberTokens(members) == [Text(m.name)] + (value + rest);
      assert MemberTokens(members)[..k] == [Text(m.name)] + tail;
      OneStep(stack, Text(m.name), tail);
      if LowerAsciiName(m.name) && m.name !in top.seen {
        var named := stack[n := Frame(true, false, top.seen + {m.name})];
        if k - 1 <= |value| {
          assert tail == value[..k - 1];
          if 0 < k - 1 < |value| { ValuePrefix(m.value, named, k - 1); }
          if k - 1 == |value| { assert tail == value; ValueWalk(m.value, named); }
        } else {
          assert tail == value + rest[..k - 1 - |value|];
          StepsConcat(Walking(named), value, rest[..k - 1 - |value|]);
          ValueWalk(m.value, named);
          if FlawIn(m.value) == Flawless { MembersPrefix(members[1..], Done(named), k - 1 - |value|); }
        }
      }
    }
  }

  /** What the decoder can have produced: whole documents, then the first k tokens of one more. */
  function Stream(docs: seq<Json>, last: Json, k: nat): seq<Token>
    requires k <= |Tokens(last)|
  {
    AllTokens(docs) + Tokens(last)[..k]
  }

  ghost predicate FromDecoder(tokens: seq<Token>)
  {
    exists docs, last, k :: 0 <= k <= |Tokens(last)| && tokens == Stream(docs, last, k)
  }

  predicate Accepts(tokens: seq<Token>)
  {
    Steps(Walking([]), tokens) == Walking([])
  }

  /**
   A stream is accepted if and only if it stops between documents and every object in every
   document, at every depth, has pairwise distinct, non-empty, lower-case ASCII member names.
   The stack never underflows on the way.
   */
  lemma AcceptedExactlyWhenWellNamed(docs: seq<Json>, last: Json, k: nat)
    requires k <= |Tokens(last)|
    ensures Accepts(Stream(docs, last, k)) <==>
              AllWellNamed(docs) && (k == 0 || (k == |Tokens(last)| && WellNamed(last)))
    ensures Steps(Walking([]), Stream(docs, last, k)) != Panicked
  {
    StepsConcat(Walking([]), AllTokens(docs), Tokens(last)[..k]);
    ItemsWalk(docs, []);
    FlawlessItems(docs);
    if AllWellNamed(docs) {
      if k == |Tokens(last)| {
        assert Tokens(last)[..k] == Tokens(last);
        ValueWalk(last, []);
      } else if k > 0 {
        ValuePrefix(last, [], k);
        ValueWalk(last, []);
        StepsConcat(Walking([]), Tokens(last)[..k], Tokens(last)[k..]);
        assert Tokens(last)[..k] + Tokens(last)[k..] == Tokens(last);
      }
    }
  }

  /** What refuses a stream is its first offending name in reading order, in the first document that has one. */
  lemma TheFirstFlawRefuses(docs: seq<Json>, last: Json, k: nat)
    requires k <= |Tokens(last)|
    ensures var w := Steps(Walking([]), Stream(docs, last, k));
            && (w == BadName || w == Duplicated ==>
                  w == Met(if FlawInItems(docs) != Flawless then FlawInItems(docs) else FlawIn(last), []))
            && (FlawInItems(docs) != Flawless || (k == |Tokens(last)| && FlawIn(last) != Flawless) ==> !w.Walking?)
  {
    StepsConcat(Walking([]), AllTokens(docs), Tokens(last)[..k]);
    ItemsWalk(docs, []);
    if FlawInItems(docs) == Flawless {
      StepsConcat(Walking([]), Tokens(last)[..k], Tokens(last)[k..]);
      assert Tokens(last)[..k] + Tokens(last)[k..] == Tokens(last);
      ValueWalk(last, []);
      if k == |Tokens(last)| { assert Tokens(last)[..k] == Tokens(last); }
    }
  }

  // ---- The walker itself: frames are objects on a stack, changed through the stack ----

  class JsonFrame {
    var isObject: bool
    var expectKey: bool
    var seen: set<string>

    constructor (isObject: bool, expectKey: bool)
      ensures View() == Frame(isObject, expectKey, {})
    {
      this.isObject, this.expectKey, this.seen := isObject, expectKey, {};
    }

    ghost function View(): Frame
      reads this
    {
      Frame(isObject, expectKey, seen)
    }
  }

  datatype NameError = NoError | NotLowerAscii | DuplicateName | Unterminated | Malformed

  class MemberWalker {
    var stack: seq<JsonFrame>

    ghost predicate Valid()
      reads this
    {
      forall i, k :: 0 <= i < k < |stack| ==> stack[i] != stack[k]
    }

    ghost function Frames(): seq<Frame>
      reads this, stack
    {
      seq(|stack|, i requires 0 <= i < |stack| reads this, stack => stack[i].View())
    }

    constructor ()
      ensures Valid() && Frames() == [] && stack == []
    {
      stack := [];
    }

    method Expecting() returns (b: bool)
      ensures b == ExpectingKey(Frames())
    {
      var n := |stack|;
      return n > 0 && stack[n - 1].isObject && stack[n - 1].expectKey;
    }

    method ValueDone()
      requires Valid()
      modifies stack
      ensures Valid() && stack == old(stack) && Frames() == Done(old(Frames()))
    {
      var n := |stack|;
      if n > 0 && stack[n - 1].isObject {
        stack[n - 1].expectKey := true;
      }
      assert Frames() == Done(old(Frames()));
    }

    method Pop()
      requires Valid() && stack != []
      modifies this, stack
      ensures Valid() && stack == old(stack)[..|old(stack)| - 1]
      ensures Frames() == Done(old(Frames())[..|old(stack)| - 1])
    {
      stack := stack[..|stack| - 1];
      assert Frames() == old(Frames())[..|old(stack)| - 1];
      ValueDone();
    }

    method Key(token: Token) returns (error: NameError)
      requires Valid() && ExpectingKey(Frames())
      modifies this, stack
      ensures Valid() && fresh(set f | f in stack && f !in old(stack))
      ensures match Step(old(Frames()), token)
              case Walking(frames) => error == NoError && Frames() == frames
              case BadName => error == NotLowerAscii
              case Duplicated => error == DuplicateName
              case Panicked => false
    {
      var top := stack[|stack| - 1];
      if token == ObjectClose {
        Pop();
        return NoError;
      }
      if !token.Text? {
        return NotLowerAscii;
      }
      var lower := IsLowerAsciiName(token.value);
      if !lower {
        return NotLowerAscii;
      }
      if token.value in top.seen {
        return DuplicateName;
      }
      top.seen := top.seen + {token.value};
      top.expectKey := false;
      assert Frames() == old(Frames())[|stack| - 1 := Frame(true, false, old(top.seen) + {token.value})];
      return NoError;
    }

    method Value(token: Token)
      requires Valid() && !ExpectingKey(Frames()) && Step(Frames(), token) != Panicked
      modifies this, stack
      ensures Valid() && fresh(set f | f in stack && f !in old(stack))
      ensures Step(old(Frames()), token) == Walking(Frames())
    {
      match token {
        case ObjectOpen =>
          var f := new JsonFrame(true, true);
          Push(f);
        case ArrayOpen =>
          var f := new JsonFrame(false, false);
          Push(f);
        case ArrayClose =>
          Pop();
        case _ =>
          ValueDone();
      }
    }

    method Push(f: JsonFrame)
      requires Valid() && f !in stack
      modifies this
      ensures Valid() && stack == old(stack) + [f] && Frames() == old(Frames()) + [f.View()]
    {
      stack := stack + [f];
      assert Frames() == old(Frames()) + [f.View()];
    }
  }

  /** How the decoder's input ended. */
  datatype Ending = EndOfInput | SyntaxError

  /** The walk itself: it stops at the first refusal. */
  method WalkTokens(w: MemberWalker, tokens: seq<Token>) returns (error: NameError)
    requires w.Valid() && w.stack == [] && Steps(Walking([]), tokens) != Panicked
    modifies w
    ensures match Steps(Walking([]), tokens)
            case Walking(stack) => error == NoError && |w.stack| == |stack|
            case BadName => error == NotLowerAscii
            case Duplicated => error == DuplicateName
            case Panicked => false
  {
    assert w.Frames() == [];
    for i := 0 to |tokens|
      invariant w.Valid() && fresh(w.stack)
      invariant Steps(Walking([]), tokens) == Steps(Walking(w.Frames()), tokens[i..])
    {
      assert tokens[i..][1..] == tokens[i + 1..];
      var expecting := w.Expecting();
      if expecting {
        error := w.Key(tokens[i]);
        if error != NoError {
          return;
        }
      } else {
        w.Value(tokens[i]);
      }
    }
    return NoError;
  }

  /** Walks the decoder's tokens and refuses duplicate or oddly spelled member names at any depth. */
  method CheckMemberNames(tokens: seq<Token>, ending: Ending) returns (error: NameError)
    requires FromDecoder(tokens)
    ensures error == NoError <==> Accepts(tokens) && ending == EndOfInput
    ensures match Steps(Walking([]), tokens)
            case Walking(stack) => error == if ending == SyntaxError then Malformed
                                            else if stack != [] then Unterminated else NoError
            case BadName => error == NotLowerAscii
            case Duplicated => error == DuplicateName
            case Panicked => false
  {
    ghost var docs, last, k :| 0 <= k <= |Tokens(last)| && tokens == Stream(docs, last, k);
    AcceptedExactlyWhenWellNamed(docs, last, k);
    var w := new MemberWalker();
    error := WalkTokens(w, tokens);
    if error != NoError {
      return;
    }
    if ending == SyntaxError {
      return Malformed;
    }
    return if |w.stack| != 0 then Unterminated else NoError;
  }
}
