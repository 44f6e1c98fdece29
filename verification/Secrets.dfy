/** Secret resolution (internal/common/types.go): `ResolveSecrets` rewrites the first
    `${{ secrets.NAME }}` reference until none is left; `ResolveEnvSecrets` applies it to
    every value of an environment map. */
module Secrets {
  import opened Strings
  import opened Rewriting
  import opened Options

  const PREFIX: string := "${{ secrets."
  const SUFFIX: string := " }}"

  type Vault = map<string, string>

  function Lookup(secrets: Vault, name: string): string {
    if name in secrets then secrets[name] else ""
  }

  // ── One iteration ────────────────────────────────────────────────────────

  /** Whether the loop stops here: no reference opens, or the first one never closes. */
  predicate Settled(s: string) {
    var start := Index(s, PREFIX);
    start == -1 || Index(s[start..], SUFFIX) == -1
  }

  /** Closing text found at or after an opening one begins only after the opening text. */
  lemma NoOverlap(s: string, start: nat, end: nat)
    requires start == Index(s, PREFIX) && start <= |s| && end == Index(s[start..], SUFFIX)
    ensures |PREFIX| <= end
    ensures OccursAt(s, PREFIX, start) && OccursAt(s, SUFFIX, start + end)
  {
    IndexSpec(s, PREFIX, start);
    IndexSpec(s[start..], SUFFIX, end);
    OccursChar(s[start..], SUFFIX, end, 0);
    OccursChar(s[start..], SUFFIX, end, 1);
    if end < |PREFIX| {
      OccursChar(s, PREFIX, start, end);
      assert end == 3;
      OccursChar(s, PREFIX, start, 4);
      assert false;
    }
    assert s[start..][end..end + |SUFFIX|] == s[start + end..start + end + |SUFFIX|];
  }

  /** Where the first reference opens and where it closes. */
  function Site(s: string): (r: (nat, nat))
    requires !Settled(s)
    ensures r.0 + |PREFIX| <= r.1 && r.1 + |SUFFIX| <= |s|
    ensures OccursAt(s, PREFIX, r.0) && OccursAt(s, SUFFIX, r.1)
  {
    var start := Index(s, PREFIX);
    var end := Index(s[start..], SUFFIX);
    NoOverlap(s, start, end);
    (start, start + end)
  }

  /** The reference from `start` to `end` replaced by the value of its trimmed name. */
  function Spliced(s: string, start: nat, end: nat, secrets: Vault): string
    requires start + |PREFIX| <= end && end + |SUFFIX| <= |s|
  {
    s[..start] + Lookup(secrets, TrimSpace(s[start + |PREFIX|..end])) + s[end + |SUFFIX|..]
  }

  function Rewrite(s: string, secrets: Vault): string
    requires !Settled(s)
  {
    Spliced(s, Site(s).0, Site(s).1, secrets)
  }

  /** One pass of the loop body, or None when the loop breaks. */
  function Next(secrets: Vault): string -> Option<string> {
    s => if Settled(s) then None else Some(Rewrite(s, secrets))
  }

  /** What the loop returns, on the inputs on which it returns. */
  ghost function Resolved(s: string, secrets: Vault): (r: string)
    requires Halts(Next(secrets), s)
    ensures Settled(r)
  {
    Outcome(Next(secrets), s)
  }

  lemma FirstSite(s: string, start: int, end: int)
    requires start == Index(s, PREFIX) && start != -1
    requires end == Index(s[start..], SUFFIX) && end != -1
    ensures !Settled(s) && Site(s) == (start, start + end)
  {
  }

  lemma RewriteAt(s: string, start: nat, end: nat, secrets: Vault)
    requires !Settled(s) && Site(s) == (start, end)
    ensures Rewrite(s, secrets) == Spliced(s, start, end, secrets)
  {
  }

  /** Find the first reference. */
  method FindFirst(s: string) returns (found: bool, start: nat, end: nat)
    ensures found <==> !Settled(s)
    ensures found ==> (start, end) == Site(s)
  {
    found, start, end := false, 0, 0;
    var i := Index(s, PREFIX);
    if i == -1 {
      return;
    }
    var j := Index(s[i..], SUFFIX);
    if j == -1 {
      return;
    }
    FirstSite(s, i, j);
    found, start, end := true, i, j + i;
  }

  /** The loop body: find the first reference and splice its value in. */
  method ReplaceFirst(s: string, secrets: Vault) returns (found: bool, r: string)
    ensures found <==> !Settled(s)
    ensures r == if found then Rewrite(s, secrets) else s
  {
    var start, end;
    found, start, end := FindFirst(s);
    r := s;
    if found {
      RewriteAt(s, start, end, secrets);
      var name := TrimSpace(s[start + |PREFIX|..end]);
      r := s[..start] + Lookup(secrets, name) + s[end + |SUFFIX|..];
    }
  }

  method ResolveSecrets(s: string, secrets: Vault) returns (result: string)
    requires Halts(Next(secrets), s)
    ensures result == Resolved(s, secrets)
  {
    result := s;
    ghost var next := Next(secrets);
    while true
      invariant Halts(next, result) && Outcome(next, result) == Outcome(next, s)
      decreases Remaining(next, result)
    {
      var found, r := ReplaceFirst(result, secrets);
      NextIs(result, secrets, found, r);
      if !found {
        break;
      }
      OutcomeStep(next, result);
      RemainingStep(next, result);
      result := r;
    }
    OutcomeFinal(next, result);
  }

  lemma NextIs(s: string, secrets: Vault, found: bool, r: string)
    requires found <==> !Settled(s)
    requires r == if found then Rewrite(s, secrets) else s
    ensures Next(secrets)(s) == if found then Some(r) else None
  {
  }

  /** Resolving a resolved text changes nothing. */
  lemma ResolvedIsFixpoint(s: string, secrets: Vault)
    requires Halts(Next(secrets), s)
    ensures Halts(Next(secrets), Resolved(s, secrets))
    ensures Resolved(Resolved(s, secrets), secrets) == Resolved(s, secrets)
  {
    OutcomeFinal(Next(secrets), Resolved(s, secrets));
  }

  // ── Termination ──────────────────────────────────────────────────────────

  function Count(c: char, s: string): nat {
    if s == [] then 0 else (if s[0] == c then 1 else 0) + Count(c, s[1..])
  }

  lemma {:induction false} CountAppend(c: char, s: string, t: string)
    ensures Count(c, s + t) == Count(c, s) + Count(c, t)
  {
    if s == [] {
      assert s + t == t;
    } else {
      assert (s + t)[1..] == s[1..] + t;
      CountAppend(c, s[1..], t);
    }
  }

  lemma {:induction false} CountMember(c: char, s: string)
    ensures c in s <==> Count(c, s) > 0
  {
    if s != [] {
      CountMember(c, s[1..]);
      assert s == [s[0]] + s[1..];
    }
  }

  /** Some character of the delimiters occurs in no secret value; `$`-free values are the usual case. */
  ghost predicate Tame(secrets: Vault, c: char) {
    (c in PREFIX || c in SUFFIX) && forall k :: k in secrets ==> c !in secrets[k]
  }

  /** Each iteration uses up at least one such character. */
  lemma RewriteDrops(s: string, secrets: Vault, c: char)
    requires !Settled(s) && Tame(secrets, c)
    ensures Count(c, Rewrite(s, secrets)) < Count(c, s)
  {
    var (start, end) := Site(s);
    var a, b := s[..start], s[end + |SUFFIX|..];
    var mid := s[start..end + |SUFFIX|];
    var value := Lookup(secrets, TrimSpace(s[start + |PREFIX|..end]));
    assert s == (a + mid) + b;
    CountThree(c, a, mid, b);
    CountThree(c, a, value, b);
    CountMember(c, value);
    CountMember(c, mid);
    DelimitersIn(s, start, end, c);
  }

  lemma CountThree(c: char, s: string, t: string, u: string)
    ensures Count(c, (s + t) + u) == Count(c, s) + Count(c, t) + Count(c, u)
  {
    CountAppend(c, s + t, u);
    CountAppend(c, s, t);
  }

  lemma DelimitersIn(s: string, start: nat, end: nat, c: char)
    requires OccursAt(s, PREFIX, start) && OccursAt(s, SUFFIX, end) && start + |PREFIX| <= end
    requires c in PREFIX || c in SUFFIX
    ensures c in s[start..end + |SUFFIX|]
  {
    if c in PREFIX {
      var k :| 0 <= k < |PREFIX| && PREFIX[k] == c;
      OccursChar(s, PREFIX, start, k);
      assert s[start..end + |SUFFIX|][k] == c;
    } else {
      var k :| 0 <= k < |SUFFIX| && SUFFIX[k] == c;
      OccursChar(s, SUFFIX, end, k);
      assert s[start..end + |SUFFIX|][end - start + k] == c;
    }
  }

  /** Then the loop terminates on every text. */
  lemma {:induction false} TameHalts(s: string, secrets: Vault, c: char)
    requires Tame(secrets, c)
    ensures Halts(Next(secrets), s)
    decreases Count(c, s)
  {
    if Settled(s) {
      OutcomeFinal(Next(secrets), s);
    } else {
      RewriteDrops(s, secrets, c);
      TameHalts(Rewrite(s, secrets), secrets, c);
      OutcomeStep(Next(secrets), s);
    }
  }

  // ── The reference: single-pass substitution ──────────────────────────────

  datatype Piece = Literal(text: string) | Reference(name: string)

  function Render(ts: seq<Piece>): string {
    if ts == [] then "" else
      (match ts[0]
       case Literal(text) => text
       case Reference(name) => "${{ secrets." + name + " }}")
      + Render(ts[1..])
  }

  function Meaning(p: Piece, secrets: Vault): string {
    match p
    case Literal(text) => text
    case Reference(name) => if TrimSpace(name) in secrets then secrets[TrimSpace(name)] else ""
  }

  /** Every reference replaced, once, by the value of its trimmed name; unknown names by "". */
  function Substitute(ts: seq<Piece>, secrets: Vault): string {
    if ts == [] then "" else Meaning(ts[0], secrets) + Substitute(ts[1..], secrets)
  }

  /** `s[i..]` and the opening delimiter agree as far as both go. */
  predicate OpensAt(s: string, i: nat)
    requires i < |s|
  {
    forall k :: 0 <= k < |PREFIX| && i + k < |s| ==> s[i + k] == PREFIX[k]
  }

  /** No position of `s` can be the start of a reference, whatever text follows `s`. */
  predicate Inert(s: string) {
    forall i :: 0 <= i < |s| ==> !OpensAt(s, i)
  }

  lemma DollarFreeIsInert(s: string)
    requires '$' !in s
    ensures Inert(s)
  {
    forall i | 0 <= i < |s| ensures !OpensAt(s, i) {
      assert s[i + 0] != PREFIX[0];
    }
  }

  lemma InertAppend(s: string, t: string)
    requires Inert(s) && Inert(t)
    ensures Inert(s + t)
  {
    forall i | 0 <= i < |s + t| ensures !OpensAt(s + t, i) {
      if i < |s| {
        assert !OpensAt(s, i);
        var k :| 0 <= k < |PREFIX| && i + k < |s| && s[i + k] != PREFIX[k];
        assert (s + t)[i + k] == s[i + k];
      } else {
        assert !OpensAt(t, i - |s|);
        var k :| 0 <= k < |PREFIX| && i - |s| + k < |t| && t[i - |s| + k] != PREFIX[k];
        assert (s + t)[i + k] == t[i - |s| + k];
      }
    }
  }

  /** After inert text, the first reference is the one written there, up to its own close. */
  lemma FirstReference(acc: string, name: string, rest: string, s: string)
    requires Inert(acc) && '}' !in name
    requires s == acc + (PREFIX + name + SUFFIX + rest)
    ensures !Settled(s) && Site(s) == (|acc|, |acc| + |PREFIX| + |name|)
  {
    var tail := PREFIX + name + SUFFIX + rest;
    assert s[|acc|..] == tail;
    FirstOpening(acc, tail, s);
    FirstClosing(name, rest, tail);
  }

  lemma FirstOpening(acc: string, tail: string, s: string)
    requires Inert(acc) && PREFIX <= tail && s == acc + tail
    ensures Index(s, PREFIX) == |acc|
  {
    IndexSpec(s, PREFIX, |acc|);
    assert s[|acc|..|acc| + |PREFIX|] == tail[..|PREFIX|];
    forall j | 0 <= j < |acc| ensures !OccursAt(s, PREFIX, j) {
      assert !OpensAt(acc, j);
      var k :| 0 <= k < |PREFIX| && j + k < |acc| && acc[j + k] != PREFIX[k];
      assert s[j + k] == acc[j + k];
      if OccursAt(s, PREFIX, j) {
        OccursChar(s, PREFIX, j, k);
      }
    }
  }

  lemma FirstClosing(name: string, rest: string, tail: string)
    requires '}' !in name && tail == PREFIX + name + SUFFIX + rest
    ensures Index(tail, SUFFIX) == |PREFIX| + |name|
  {
    var n := |PREFIX| + |name|;
    IndexSpec(tail, SUFFIX, n);
    assert tail[n..n + |SUFFIX|] == SUFFIX;
    forall j | 0 <= j < n ensures !OccursAt(tail, SUFFIX, j) {
      assert tail[j + 1] == (PREFIX + name + " ")[j + 1];
      if OccursAt(tail, SUFFIX, j) {
        OccursChar(tail, SUFFIX, j, 1);
      }
    }
  }

  /** Literal text opens no reference; a name does not contain the closing brace. */
  predicate Template(ts: seq<Piece>) {
    forall i :: 0 <= i < |ts| ==>
      match ts[i]
      case Literal(text) => Inert(text)
      case Reference(name) => '}' !in name
  }

  /** The names a reference can spell. */
  predicate Referable(name: string) {
    '}' !in name && TrimSpace(name) == name
  }

  /** No value that a reference can reach could itself open a reference. */
  ghost predicate InertVault(secrets: Vault) {
    forall k :: k in secrets && Referable(k) ==> Inert(secrets[k])
  }

  ghost predicate SinglePass(ts: seq<Piece>, secrets: Vault) {
    Halts(Next(secrets), Render(ts)) && Resolved(Render(ts), secrets) == Substitute(ts, secrets)
  }

  lemma RewriteReference(acc: string, name: string, rest: string, secrets: Vault, s: string)
    requires Inert(acc) && '}' !in name
    requires s == acc + (PREFIX + name + SUFFIX + rest)
    ensures !Settled(s) && Rewrite(s, secrets) == acc + Lookup(secrets, TrimSpace(name)) + rest
  {
    FirstReference(acc, name, rest, s);
    RewriteAt(s, |acc|, |acc| + |PREFIX| + |name|, secrets);
    SplicedIs(acc, name, rest, secrets, s);
  }

  lemma SplicedIs(acc: string, name: string, rest: string, secrets: Vault, s: string)
    requires s == acc + (PREFIX + name + SUFFIX + rest)
    ensures Spliced(s, |acc|, |acc| + |PREFIX| + |name|, secrets) == acc + Lookup(secrets, TrimSpace(name)) + rest
  {
    Slices(acc, name, rest, s);
  }

  lemma Slices(acc: string, name: string, rest: string, s: string)
    requires s == acc + (PREFIX + name + SUFFIX + rest)
    ensures var n := |acc| + |PREFIX| + |name|;
      s[..|acc|] == acc && s[|acc| + |PREFIX|..n] == name && s[n + |SUFFIX|..] == rest
  {
  }

  lemma InertIsSettled(s: string)
    requires Inert(s)
    ensures Settled(s)
  {
    IndexSpec(s, PREFIX, -1);
    forall j | 0 <= j ensures !OccursAt(s, PREFIX, j) {
      if OccursAt(s, PREFIX, j) {
        forall k | 0 <= k < |PREFIX| ensures s[j + k] == PREFIX[k] {
          OccursChar(s, PREFIX, j, k);
        }
        assert OpensAt(s, j);
      }
    }
  }

  ghost predicate ResolvesTo(s: string, secrets: Vault, r: string) {
    Halts(Next(secrets), s) && Resolved(s, secrets) == r
  }

  lemma ResolvesReference(acc: string, name: string, rest: string, secrets: Vault, r: string)
    requires Inert(acc) && '}' !in name
    requires ResolvesTo(acc + Lookup(secrets, TrimSpace(name)) + rest, secrets, r)
    ensures ResolvesTo(acc + (PREFIX + name + SUFFIX + rest), secrets, r)
  {
    var s := acc + (PREFIX + name + SUFFIX + rest);
    RewriteReference(acc, name, rest, secrets, s);
    OutcomeStep(Next(secrets), s);
  }

  lemma LookupInert(name: string, secrets: Vault)
    requires '}' !in name && InertVault(secrets)
    ensures Inert(Lookup(secrets, TrimSpace(name)))
  {
    TrimSpaceTwice(name);
  }

  lemma ResolvesNothing(acc: string, secrets: Vault)
    requires Inert(acc)
    ensures ResolvesTo(acc, secrets, acc)
  {
    InertIsSettled(acc);
    OutcomeFinal(Next(secrets), acc);
  }

  lemma Associative(s: string, t: string, u: string)
    ensures s + (t + u) == (s + t) + u
  {
  }

  lemma RenderStep(acc: string, ts: seq<Piece>, secrets: Vault)
    requires ts != []
    ensures ts[0].Literal? ==> acc + Render(ts) == (acc + ts[0].text) + Render(ts[1..])
    ensures ts[0].Reference? ==> acc + Render(ts) == acc + (PREFIX + ts[0].name + SUFFIX + Render(ts[1..]))
    ensures acc + Substitute(ts, secrets) == (acc + Meaning(ts[0], secrets)) + Substitute(ts[1..], secrets)
  {
    if ts[0].Literal? {
      Associative(acc, ts[0].text, Render(ts[1..]));
    }
    Associative(acc, Meaning(ts[0], secrets), Substitute(ts[1..], secrets));
  }

  lemma TemplateStep(acc: string, ts: seq<Piece>, secrets: Vault)
    requires ts != [] && Inert(acc) && Template(ts) && InertVault(secrets)
    ensures Template(ts[1..])
    ensures Inert(acc + Meaning(ts[0], secrets))
    ensures ts[0].Reference? ==> '}' !in ts[0].name
  {
    match ts[0]
    case Literal(text) =>
      InertAppend(acc, text);
    case Reference(name) =>
      LookupInert(name, secrets);
      InertAppend(acc, Lookup(secrets, TrimSpace(name)));
  }

  /** The loop, started after already resolved text, resolves the rest piece by piece. */
  lemma {:induction false} ResolvesRest(acc: string, ts: seq<Piece>, secrets: Vault)
    requires Inert(acc) && Template(ts) && InertVault(secrets)
    ensures ResolvesTo(acc + Render(ts), secrets, acc + Substitute(ts, secrets))
    decreases |ts|
  {
    if ts == [] {
      assert acc + "" == acc;
      ResolvesNothing(acc, secrets);
    } else {
      TemplateStep(acc, ts, secrets);
      RenderStep(acc, ts, secrets);
      ResolvesRest(acc + Meaning(ts[0], secrets), ts[1..], secrets);
      if ts[0].Reference? {
        ResolvesReference(acc, ts[0].name, Render(ts[1..]), secrets, acc + Substitute(ts, secrets));
      }
    }
  }

  /** With values that can open no reference, the loop is single-pass substitution. */
  lemma InertSuffices(ts: seq<Piece>, secrets: Vault)
    requires Template(ts) && InertVault(secrets)
    ensures SinglePass(ts, secrets)
  {
    ResolvesRest("", ts, secrets);
    assert "" + Render(ts) == Render(ts) && "" + Substitute(ts, secrets) == Substitute(ts, secrets);
  }

  // ── Exactly when it is single-pass ───────────────────────────────────────

  /** A text that opens a reference at `i` and later closes it is not settled. */
  lemma OpenAndClosed(s: string, i: nat, e: nat)
    requires OccursAt(s, PREFIX, i) && OccursAt(s, SUFFIX, e) && i <= e
    ensures !Settled(s)
  {
    var start := Index(s, PREFIX);
    IndexSpec(s, PREFIX, start);
    assert start != -1 && start <= i;
    var t := s[start..];
    IndexSpec(t, SUFFIX, -1);
    assert t[e - start..e - start + |SUFFIX|] == s[e..e + |SUFFIX|];
    assert OccursAt(t, SUFFIX, e - start);
  }

  /** Text that completes the reference opened at position `i` of `v`. */
  lemma Completion(v: string, i: nat) returns (rest: string)
    requires i < |v| && OpensAt(v, i)
    ensures '$' !in rest && !Settled(v + rest)
  {
    var n := if |v| - i < |PREFIX| then |v| - i else |PREFIX|;
    var missing := PREFIX[n..];
    rest := missing + SUFFIX;
    Completed(v, i, missing);
    Associative(v, missing, SUFFIX);
    ClosedBySuffix(v + missing, i);
    NoDollar(n);
  }

  lemma NoDollar(n: nat)
    requires 1 <= n <= |PREFIX|
    ensures '$' !in PREFIX[n..] + SUFFIX
  {
    assert forall k :: 1 <= k < |PREFIX| ==> PREFIX[k] != '$';
    assert forall k :: 0 <= k < |PREFIX[n..]| ==> PREFIX[n..][k] == PREFIX[n + k];
  }

  lemma ClosedBySuffix(t: string, i: nat)
    requires OccursAt(t, PREFIX, i)
    ensures !Settled(t + SUFFIX)
  {
    var s := t + SUFFIX;
    assert s[i..i + |PREFIX|] == t[i..i + |PREFIX|];
    assert s[|t|..|t| + |SUFFIX|] == SUFFIX;
    OpenAndClosed(s, i, |t|);
  }

  lemma Completed(v: string, i: nat, missing: string)
    requires i < |v| && OpensAt(v, i)
    requires missing == PREFIX[if |v| - i < |PREFIX| then |v| - i else |PREFIX|..]
    ensures OccursAt(v + missing, PREFIX, i)
  {
    var s := v + missing;
    forall k | 0 <= k < |PREFIX| ensures s[i + k] == PREFIX[k] {
      if i + k < |v| {
        assert v[i + k] == PREFIX[k];
      }
    }
    assert s[i..i + |PREFIX|] == PREFIX;
  }

  /** A reachable value that could open a reference breaks single-pass substitution on some template. */
  lemma InertNeeded(secrets: Vault, k: string) returns (ts: seq<Piece>)
    requires k in secrets && Referable(k) && !Inert(secrets[k])
    ensures Template(ts) && !SinglePass(ts, secrets)
  {
    var v := secrets[k];
    var i :| 0 <= i < |v| && OpensAt(v, i);
    var rest := Completion(v, i);
    DollarFreeIsInert(rest);
    ts := [Reference(k), Literal(rest)];
    assert Substitute(ts, secrets) == v + rest by {
      assert ts[1..] == [Literal(rest)] && ts[1..][1..] == [];
      assert Substitute(ts[1..], secrets) == rest;
    }
  }

  /** The loop is single-pass substitution on every template if and only if no reachable
      value could open a reference. */
  lemma SinglePassExactly(secrets: Vault)
    ensures InertVault(secrets) <==> forall ts :: Template(ts) ==> SinglePass(ts, secrets)
  {
    if InertVault(secrets) {
      forall ts | Template(ts) ensures SinglePass(ts, secrets) {
        InertSuffices(ts, secrets);
      }
    } else {
      var k :| k in secrets && Referable(k) && !Inert(secrets[k]);
      var ts := InertNeeded(secrets, k);
    }
  }

  /** The case the documentation has in mind: values without `$`. */
  lemma DollarFreeVault(secrets: Vault)
    requires forall k :: k in secrets ==> '$' !in secrets[k]
    ensures InertVault(secrets) && Tame(secrets, '$')
  {
    forall k | k in secrets ensures Inert(secrets[k]) {
      DollarFreeIsInert(secrets[k]);
    }
    assert PREFIX[0] == '$';
  }

  // ── Environment maps ─────────────────────────────────────────────────────

  method ResolveEnvSecrets(env: map<string, string>, secrets: Vault) returns (out: map<string, string>)
    requires forall k :: k in env ==> Halts(Next(secrets), env[k])
    ensures out.Keys == env.Keys
    ensures forall k :: k in env ==> out[k] == Resolved(env[k], secrets)
  {
    if |env| == 0 {
      return env;
    }
    out := map[];
    var todo := env.Keys;
    while todo != {}
      invariant todo <= env.Keys && out.Keys == env.Keys - todo
      invariant forall k :: k in out ==> out[k] == Resolved(env[k], secrets)
      decreases todo
    {
      var k :| k in todo;
      var v := ResolveSecrets(env[k], secrets);
      out := out[k := v];
      todo := todo - {k};
    }
  }

  /** Resolving an environment twice is resolving it once. */
  lemma EnvFixpoint(env: map<string, string>, out: map<string, string>, secrets: Vault)
    requires forall k :: k in env ==> Halts(Next(secrets), env[k])
    requires out.Keys == env.Keys && forall k :: k in env ==> out[k] == Resolved(env[k], secrets)
    ensures forall k :: k in out ==> Halts(Next(secrets), out[k]) && Resolved(out[k], secrets) == out[k]
  {
    forall k | k in out ensures Halts(Next(secrets), out[k]) && Resolved(out[k], secrets) == out[k] {
      ResolvedIsFixpoint(env[k], secrets);
    }
  }
}
