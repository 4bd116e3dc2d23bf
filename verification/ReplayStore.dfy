/** DPoP proof freshness and the single use of a proof: sections 4.3 and 11.1 of RFC 9449. */
module ReplayStore {
  import opened Frames

  const MAX_JTI_BYTES: nat := 128
  const SECOND: int := 1_000_000_000

  /** An empty ath or jkt asks for no access token hash and for no particular key. */
  datatype Rules = Rules(htu: string, ath: string, jkt: string, maxAge: int, futureSkew: int)

  /** iat is in seconds. */
  datatype Claims = Claims(jti: string, htm: string, htu: string, iat: Option<int>, ath: Option<string>)

  /** A proof whose signature has been verified, as presented at one instant. */
  datatype Proof = Proof(rules: Rules, jkt: string, claims: Claims, verb: string, now: int)

  datatype Refusal =
    | BadIdentifier | WrongMethod | WrongUrl | UnexpectedHash | WrongHash | NoIssueTime | IssuedInFuture | Stale
    | WrongKey | Replayed

  datatype Verdict = Accepted | Refused(reason: Refusal)

  type Entries = map<string, int>

  // ---- The checks made before anything is reserved ----

  predicate Printable(jti: string)
  {
    0 < |jti| <= MAX_JTI_BYTES && forall i :: 0 <= i < |jti| ==> '!' <= jti[i] <= '~'
  }

  method PrintableJti(jti: string) returns (ok: bool)
    ensures ok == Printable(jti)
  {
    if jti == "" || |jti| > MAX_JTI_BYTES {
      return false;
    }
    for i := 0 to |jti|
      invariant forall k :: 0 <= k < i ==> '!' <= jti[k] <= '~'
    {
      if jti[i] < '!' || jti[i] > '~' {
        return false;
      }
    }
    ok := true;
  }

  function IssuedAt(c: Claims): int
    requires c.iat.Some?
  {
    c.iat.value * SECOND
  }

  /** The first claim rule the proof breaks. */
  function ClaimsFault(p: Proof): Option<Refusal>
  {
    var c, rules := p.claims, p.rules;
    if !Printable(c.jti) then Some(BadIdentifier)
    else if c.htm != p.verb then Some(WrongMethod)
    else if c.htu != rules.htu then Some(WrongUrl)
    else if rules.ath == "" && c.ath.Some? then Some(UnexpectedHash)
    else if rules.ath != "" && c.ath != Some(rules.ath) then Some(WrongHash)
    else if c.iat.None? then Some(NoIssueTime)
    else if IssuedAt(c) > p.now + rules.futureSkew then Some(IssuedInFuture)
    else if p.now - IssuedAt(c) > rules.maxAge then Some(Stale)
    else None
  }

  function Fault(p: Proof): Option<Refusal>
  {
    if ClaimsFault(p).Some? then ClaimsFault(p)
    else if p.rules.jkt != "" && p.jkt != p.rules.jkt then Some(WrongKey)
    else None
  }

  method CheckClaims(p: Proof) returns (fault: Option<Refusal>)
    ensures fault == ClaimsFault(p)
  {
    var c, rules := p.claims, p.rules;
    var printable := PrintableJti(c.jti);
    if !printable {
      return Some(BadIdentifier);
    }
    if c.htm != p.verb {
      return Some(WrongMethod);
    }
    if c.htu != rules.htu {
      return Some(WrongUrl);
    }
    if rules.ath == "" {
      if c.ath.Some? {
        return Some(UnexpectedHash);
      }
    } else if c.ath.None? || c.ath.value != rules.ath {
      return Some(WrongHash);
    }
    if c.iat.None? {
      return Some(NoIssueTime);
    }
    var iat := c.iat.value * SECOND;
    if iat > p.now + rules.futureSkew {
      return Some(IssuedInFuture);
    }
    if p.now - iat > rules.maxAge {
      return Some(Stale);
    }
    fault := None;
  }

  /** A proof passes the checks exactly when it is well formed, bound as required, and within the window. */
  lemma PassesWithinTheWindow(p: Proof)
    ensures Fault(p) == None <==>
            && Printable(p.claims.jti) && p.claims.htm == p.verb && p.claims.htu == p.rules.htu
            && p.claims.ath == (if p.rules.ath == "" then None else Some(p.rules.ath))
            && p.rules.jkt in {"", p.jkt}
            && p.claims.iat.Some?
            && IssuedAt(p.claims) - p.rules.futureSkew <= p.now <= IssuedAt(p.claims) + p.rules.maxAge
  {
  }

  /** The rules in the order they are checked: the one a refusal names is the first that is broken. */
  lemma RefusedForTheFirstRuleBroken(p: Proof)
    ensures var c, r, now, fault := p.claims, p.rules, p.now, Fault(p);
            var jti := 0 < |c.jti| <= 128 && forall i :: 0 <= i < |c.jti| ==> '!' <= c.jti[i] <= '~';
            var hash := if r.ath == "" then c.ath == None else c.ath == Some(r.ath);
            var bound := jti && c.htm == p.verb && c.htu == r.htu;
            && (fault == Some(BadIdentifier) <==> !jti)
            && (fault == Some(WrongMethod) <==> jti && c.htm != p.verb)
            && (fault == Some(WrongUrl) <==> jti && c.htm == p.verb && c.htu != r.htu)
            && (fault == Some(UnexpectedHash) <==> bound && r.ath == "" && !hash)
            && (fault == Some(WrongHash) <==> bound && r.ath != "" && !hash)
            && (fault == Some(NoIssueTime) <==> bound && hash && c.iat == None)
            && (bound && hash && c.iat.Some? ==>
                  var age := now - c.iat.value * 1_000_000_000;
                  && (fault == Some(IssuedInFuture) <==> age < -r.futureSkew)
                  && (fault == Some(Stale) <==> age >= -r.futureSkew && age > r.maxAge)
                  && (fault == Some(WrongKey) <==> -r.futureSkew <= age <= r.maxAge && r.jkt != "" && p.jkt != r.jkt))
            && fault != Some(Replayed)
  {
  }

  // ---- Reservations ----

  function Key(jkt: string, jti: string): string
  {
    jkt + ['\0'] + jti
  }

  lemma LastNul(jkt: string, jti: string)
    requires Printable(jti)
    ensures Key(jkt, jti)[|jkt|] == '\0'
    ensures forall i :: |jkt| < i < |Key(jkt, jti)| ==> Key(jkt, jti)[i] != '\0'
  {
  }

  /** A printable identifier holds no NUL, so no two proofs share a key unless they share key and identifier. */
  lemma KeyIsInjective(jkt: string, jti: string, jkt': string, jti': string)
    requires Printable(jti) && Printable(jti') && Key(jkt, jti) == Key(jkt', jti')
    ensures jkt == jkt' && jti == jti'
  {
    LastNul(jkt, jti);
    LastNul(jkt', jti');
    var key := Key(jkt, jti);
    assert jkt == key[..|jkt|] && jkt' == key[..|jkt'|];
    assert jti == key[|jkt| + 1..] && jti' == key[|jkt'| + 1..];
  }

  /** A second past the last instant at which the proof is fresh. */
  function Expiry(p: Proof): int
    requires p.claims.iat.Some?
  {
    IssuedAt(p.claims) + p.rules.maxAge + SECOND
  }

  function Swept(entries: Entries, now: int): Entries
  {
    map k | k in entries && now < entries[k] :: entries[k]
  }

  datatype Presented = Presented(entries: Entries, verdict: Verdict)

  function After(entries: Entries, p: Proof): Presented
  {
    if Fault(p).Some? then
      Presented(entries, Refused(Fault(p).value))
    else
      var swept := Swept(entries, p.now);
      var key := Key(p.jkt, p.claims.jti);
      if key in swept then Presented(swept, Refused(Replayed)) else Presented(swept[key := Expiry(p)], Accepted)
  }

  class MemoryReplayStore {
    var entries: Entries

    constructor ()
      ensures entries == map[]
    {
      entries := map[];
    }

    /** True when the reservation is made, false when it is already held. */
    method Reserve(jkt: string, jti: string, expiresAt: int, now: int) returns (reserved: bool)
      modifies this
      ensures reserved <==> Key(jkt, jti) !in Swept(old(entries), now)
      ensures entries == if reserved then Swept(old(entries), now)[Key(jkt, jti) := expiresAt]
                         else Swept(old(entries), now)
    {
      var keys := entries.Keys;
      while keys != {}
        invariant keys <= entries.Keys <= old(entries).Keys
        invariant forall k :: k in entries ==> entries[k] == old(entries)[k]
        invariant forall k :: k in old(entries) && k !in keys ==> (k in entries <==> now < old(entries)[k])
        decreases |keys|
      {
        var k :| k in keys;
        keys := keys - {k};
        if !(now < entries[k]) {
          entries := entries - {k};
        }
      }
      assert entries == Swept(old(entries), now);
      var key := Key(jkt, jti);
      if key in entries && now < entries[key] {
        return false;
      }
      entries := entries[key := expiresAt];
      reserved := true;
    }

    /** A proof refused by a check leaves the store as it was. */
    method Verify(p: Proof) returns (verdict: Verdict)
      modifies this
      ensures Presented(entries, verdict) == After(old(entries), p)
    {
      var fault := CheckClaims(p);
      if fault.Some? {
        return Refused(fault.value);
      }
      if p.rules.jkt != "" && p.jkt != p.rules.jkt {
        return Refused(WrongKey);
      }
      var reserved := Reserve(p.jkt, p.claims.jti, Expiry(p), p.now);
      verdict := if reserved then Accepted else Refused(Replayed);
    }
  }

  // ---- Whole runs ----

  /** What the store holds after the first n presentations. */
  function StoreAfter(log: seq<Proof>, n: nat): Entries
    requires n <= |log|
  {
    if n == 0 then map[] else After(StoreAfter(log, n - 1), log[n - 1]).entries
  }

  function VerdictOn(log: seq<Proof>, t: nat): Verdict
    requires t < |log|
  {
    After(StoreAfter(log, t), log[t]).verdict
  }

  /** Presentation t was accepted: it is the use of its proof. */
  predicate Used(log: seq<Proof>, t: nat)
    requires t < |log|
  {
    VerdictOn(log, t) == Accepted
  }

  ghost predicate SameProof(p: Proof, q: Proof)
  {
    p.jkt == q.jkt && p.claims.jti == q.claims.jti
  }

  function KeyOf(p: Proof): string
  {
    Key(p.jkt, p.claims.jti)
  }

  /** Presentation t is an earlier or later use of the same identifier with the same key as q. */
  ghost predicate UseOf(log: seq<Proof>, t: nat, q: Proof)
    requires t < |log|
  {
    Used(log, t) && SameProof(log[t], q)
  }

  /** Presentation r passes the checks at an instant by which the reservation of s has run out, so it sweeps it. */
  predicate Sweeps(log: seq<Proof>, r: nat, s: nat)
    requires s < |log| && r < |log|
  {
    Fault(log[s]) == None && Fault(log[r]) == None && Expiry(log[s]) <= log[r].now
  }

  /** Some presentation after s, up to t itself, swept it. */
  ghost predicate SweptBy(log: seq<Proof>, s: nat, t: nat)
    requires s <= t < |log|
  {
    exists r: nat :: s < r <= t && Sweeps(log, r, s)
  }

  lemma UsedPassed(log: seq<Proof>, t: nat)
    requires t < |log| && Used(log, t)
    ensures Fault(log[t]) == None && KeyOf(log[t]) in StoreAfter(log, t + 1)
    ensures StoreAfter(log, t + 1)[KeyOf(log[t])] == Expiry(log[t])
  {
  }

  /** Everything held is a use of some proof, not swept since. */
  lemma {:induction false} HeldWasUsed(log: seq<Proof>, n: nat, key: string) returns (s: nat)
    requires n <= |log| && key in StoreAfter(log, n)
    ensures s < n && Used(log, s) && KeyOf(log[s]) == key
    ensures Fault(log[s]) == None && Expiry(log[s]) == StoreAfter(log, n)[key]
    ensures !SweptBy(log, s, n - 1)
  {
    var before := StoreAfter(log, n - 1);
    if key in before && (Fault(log[n - 1]).Some? || log[n - 1].now < before[key]) {
      s := HeldWasUsed(log, n - 1, key);
    } else {
      s := n - 1;
    }
  }

  /** A use that nothing has swept is held, with its own expiry. */
  lemma {:induction false} UseStaysHeld(log: seq<Proof>, s: nat, n: nat)
    requires s < n <= |log| && Used(log, s) && !SweptBy(log, s, n - 1)
    ensures Fault(log[s]) == None && KeyOf(log[s]) in StoreAfter(log, n)
    ensures StoreAfter(log, n)[KeyOf(log[s])] == Expiry(log[s])
  {
    UsedPassed(log, s);
    if n > s + 1 {
      assert !SweptBy(log, s, n - 2) && !Sweeps(log, n - 1, s);
      UseStaysHeld(log, s, n - 1);
    }
  }

  /**
   Of any clock and any mix of age limits: a presentation is accepted if and only if it passes
   the checks and every earlier use of its identifier with its key has been swept, this
   presentation's own sweep included.
   */
  lemma AcceptedExactlyOnceSwept(log: seq<Proof>, t: nat)
    requires t < |log|
    ensures Used(log, t) <==>
              && Fault(log[t]) == None
              && forall s: nat | s < t && UseOf(log, s, log[t]) :: SweptBy(log, s, t)
    ensures Fault(log[t]) == None && !Used(log, t) ==> VerdictOn(log, t) == Refused(Replayed)
  {
    if Fault(log[t]) == None {
      var before, key := StoreAfter(log, t), KeyOf(log[t]);
      if !Used(log, t) {
        assert key in before && log[t].now < before[key];
        var s := HeldWasUsed(log, t, key);
        KeyIsInjective(log[s].jkt, log[s].claims.jti, log[t].jkt, log[t].claims.jti);
        assert UseOf(log, s, log[t]) && !Sweeps(log, t, s);
        assert !SweptBy(log, s, t);
      }
      forall s: nat | s < t && UseOf(log, s, log[t]) && !SweptBy(log, s, t) ensures !Used(log, t) {
        assert !SweptBy(log, s, t - 1);
        UseStaysHeld(log, s, t);
        assert !Sweeps(log, t, s);
      }
    }
  }

  /** Sweeping the last use is enough: every earlier one had gone before it could be made. */
  lemma AcceptedAgainExactly(log: seq<Proof>, s: nat, t: nat)
    requires s < t < |log| && UseOf(log, s, log[t]) && forall u: nat | s < u < t :: !UseOf(log, u, log[t])
    ensures Used(log, t) <==> Fault(log[t]) == None && SweptBy(log, s, t)
  {
    AcceptedExactlyOnceSwept(log, s);
    AcceptedExactlyOnceSwept(log, t);
    forall u: nat | u < t && UseOf(log, u, log[t]) && SweptBy(log, s, t) ensures SweptBy(log, u, t) {
      if u < s {
        assert UseOf(log, u, log[s]);
        var r: nat :| u < r <= s && Sweeps(log, r, u);
        assert u < r <= t;
      }
    }
  }

  // ---- Under a clock that never goes back ----

  ghost predicate Monotone(log: seq<Proof>)
  {
    forall s, t :: 0 <= s <= t < |log| ==> log[s].now <= log[t].now
  }

  /** One age limit and one skew throughout besides. */
  ghost predicate Steady(log: seq<Proof>, maxAge: int, skew: int)
  {
    && Monotone(log)
    && forall t :: 0 <= t < |log| ==> log[t].rules.maxAge == maxAge && log[t].rules.futureSkew == skew
  }

  /** Then a proof that passes is refused exactly while an earlier use has not expired. */
  lemma RefusedExactlyWhileHeld(log: seq<Proof>, t: nat)
    requires Monotone(log) && t < |log| && Fault(log[t]) == None
    ensures Used(log, t) <==> forall s: nat | s < t && UseOf(log, s, log[t]) :: Sweeps(log, t, s)
  {
    AcceptedExactlyOnceSwept(log, t);
    forall s: nat | s < t && UseOf(log, s, log[t]) ensures SweptBy(log, s, t) <==> Sweeps(log, t, s) {
      UsedPassed(log, s);
      if SweptBy(log, s, t) {
        var r: nat :| s < r <= t && Sweeps(log, r, s);
        assert log[r].now <= log[t].now;
      }
    }
  }

  /** One proof is never accepted twice, unless a verifier allows it a second more age than the one that accepted it. */
  lemma NeverAcceptedTwice(log: seq<Proof>, s: nat, t: nat)
    requires Monotone(log) && s < t < |log| && Used(log, s)
    requires SameProof(log[s], log[t]) && log[s].claims.iat == log[t].claims.iat
    requires log[t].rules.maxAge < log[s].rules.maxAge + SECOND
    ensures !Used(log, t)
  {
    UsedPassed(log, s);
    if Fault(log[t]) == None {
      assert UseOf(log, s, log[t]) && !Sweeps(log, t, s);
      RefusedExactlyWhileHeld(log, t);
    }
  }

  /** After every reservation, whatever is held expires later than now and within one window. */
  lemma HeldWithinOneWindow(log: seq<Proof>, maxAge: int, skew: int, t: nat, key: string)
    requires Steady(log, maxAge, skew)
    requires t < |log| && Fault(log[t]) == None && key in StoreAfter(log, t + 1)
    ensures log[t].now < StoreAfter(log, t + 1)[key] <= log[t].now + skew + maxAge + SECOND
  {
    var s := HeldWasUsed(log, t + 1, key);
    assert s < t ==> !Sweeps(log, t, s);
    assert log[s].now <= log[t].now;
  }

  // ---- Neither condition can be dropped ----

  /** A proof made for these rules at iat seconds, as presented at now. */
  function Made(rules: Rules, jkt: string, jti: string, verb: string, iat: int, now: int): Proof
  {
    var ath := if rules.ath == "" then None else Some(rules.ath);
    Proof(rules, jkt, Claims(jti, verb, rules.htu, Some(iat), ath), verb, now)
  }

  /** An age limit, a skew that is not negative, and a key the rules take. */
  predicate Admits(rules: Rules, jkt: string)
  {
    0 < rules.maxAge && 0 <= rules.futureSkew && rules.jkt in {"", jkt}
  }

  lemma MadePasses(rules: Rules, jkt: string, jti: string, verb: string, iat: int, now: int)
    requires Admits(rules, jkt) && Printable(jti)
    ensures Fault(Made(rules, jkt, jti, verb, iat, now)) == None <==>
            iat * SECOND - rules.futureSkew <= now <= iat * SECOND + rules.maxAge
  {
  }

  /**
   Whatever the rules, a clock that goes back may let one proof through twice: it is accepted at
   0, another at a later instant sweeps it, and the clock then reads 0 again.
   */
  lemma ClockGoingBackAcceptsTwice(rules: Rules, jkt: string, jti: string, other: string, verb: string)
    returns (log: seq<Proof>)
    requires Admits(rules, jkt) && Printable(jti) && Printable(other) && jti != other
    ensures |log| == 3 && log[0] == log[2] == Made(rules, jkt, jti, verb, 0, 0)
    ensures log[1].rules == rules && log[1].now > 0 && Used(log, 0) && Used(log, 1) && Used(log, 2)
  {
    var late := rules.maxAge / SECOND + 2;
    var first := Made(rules, jkt, jti, verb, 0, 0);
    var second := Made(rules, jkt, other, verb, late, late * SECOND);
    log := [first, second, first];
    MadePasses(rules, jkt, jti, verb, 0, 0);
    MadePasses(rules, jkt, other, verb, late, late * SECOND);
    assert late * SECOND >= rules.maxAge + SECOND;
    if Key(jkt, jti) == Key(jkt, other) {
      KeyIsInjective(jkt, jti, jkt, other);
    }
    SweepAndUse(log, first, second);
  }

  lemma SweepAndUse(log: seq<Proof>, first: Proof, second: Proof)
    requires log == [first, second, first] && Fault(first) == None && Fault(second) == None
    requires KeyOf(first) != KeyOf(second) && Expiry(first) <= second.now && second.now < Expiry(second)
    ensures Used(log, 0) && Used(log, 1) && Used(log, 2)
  {
    assert StoreAfter(log, 0) == map[];
    assert StoreAfter(log, 1) == map[KeyOf(first) := Expiry(first)];
    assert StoreAfter(log, 2) == map[KeyOf(second) := Expiry(second)];
  }

  /** Whenever one limit is a second or more above another, a store shared by the two lets one proof through both. */
  lemma TwoAgeLimitsAcceptTwice(rules: Rules, longer: int, jkt: string, jti: string, verb: string)
    returns (log: seq<Proof>)
    requires Admits(rules, jkt) && Printable(jti) && rules.maxAge + SECOND <= longer
    ensures |log| == 2 && Monotone(log) && Used(log, 0) && Used(log, 1)
    ensures log[0] == Made(rules, jkt, jti, verb, 0, 0)
    ensures log[1] == Made(rules.(maxAge := longer), jkt, jti, verb, 0, rules.maxAge + SECOND)
  {
    var first := Made(rules, jkt, jti, verb, 0, 0);
    var second := Made(rules.(maxAge := longer), jkt, jti, verb, 0, rules.maxAge + SECOND);
    log := [first, second];
    MadePasses(rules, jkt, jti, verb, 0, 0);
    MadePasses(rules.(maxAge := longer), jkt, jti, verb, 0, rules.maxAge + SECOND);
    assert StoreAfter(log, 0) == map[];
    assert StoreAfter(log, 1) == map[KeyOf(first) := Expiry(first)];
  }
}
