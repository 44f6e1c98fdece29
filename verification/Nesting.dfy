/** Secrets whose values refer to further secrets (internal/common/types.go, ResolveSecrets):
    the loop ends on every template exactly if no secret refers to itself, directly or through
    others. */
module Nesting {
  import opened Options
  import opened Strings
  import opened Rewriting
  import opened Secrets

  /** The templates that the values of the secrets spell. */
  type Bodies = map<string, seq<Piece>>

  ghost predicate Spells(bodies: Bodies, secrets: Vault) {
    && bodies.Keys == secrets.Keys
    && forall k :: k in bodies ==> Template(bodies[k]) && secrets[k] == Render(bodies[k])
  }

  function Body(bodies: Bodies, name: string): seq<Piece> {
    if TrimSpace(name) in bodies then bodies[TrimSpace(name)] else []
  }

  ghost predicate Ends(ts: seq<Piece>, secrets: Vault) {
    Halts(Next(secrets), Render(ts))
  }

  /** How many references the loop replaces. */
  ghost function Steps(ts: seq<Piece>, secrets: Vault): nat
    requires Ends(ts, secrets)
  {
    Remaining(Next(secrets), Render(ts))
  }

  // ── One iteration, on templates ──────────────────────────────────────────

  /** The position of the first reference. */
  function First(ts: seq<Piece>): (i: nat)
    ensures i <= |ts|
    ensures forall j :: 0 <= j < i ==> ts[j].Literal?
    ensures i < |ts| ==> ts[i].Reference?
  {
    if ts == [] || ts[0].Reference? then 0 else First(ts[1..]) + 1
  }

  /** Piece `i` replaced by the pieces of `body`. */
  function Splice(ts: seq<Piece>, i: nat, body: seq<Piece>): seq<Piece>
    requires i < |ts|
  {
    ts[..i] + (body + ts[i + 1..])
  }

  function Expand(ts: seq<Piece>, bodies: Bodies): seq<Piece>
    requires First(ts) < |ts|
  {
    Splice(ts, First(ts), Body(bodies, ts[First(ts)].name))
  }

  lemma {:induction false} RenderAppend(xs: seq<Piece>, ys: seq<Piece>)
    ensures Render(xs + ys) == Render(xs) + Render(ys)
  {
    if xs == [] {
      assert xs + ys == ys;
    } else {
      assert (xs + ys)[1..] == xs[1..] + ys;
      RenderAppend(xs[1..], ys);
      var head := Render([xs[0]]);
      RenderHead(xs);
      RenderHead(xs + ys);
      Associative(head, Render(xs[1..]), Render(ys));
    }
  }

  lemma RenderHead(ts: seq<Piece>)
    requires ts != []
    ensures Render(ts) == Render([ts[0]]) + Render(ts[1..])
  {
    assert [ts[0]][1..] == [];
  }

  lemma {:induction false} LiteralsInert(ts: seq<Piece>)
    requires Template(ts) && forall i :: 0 <= i < |ts| ==> ts[i].Literal?
    ensures Inert(Render(ts))
  {
    if ts != [] {
      LiteralsInert(ts[1..]);
      InertAppend(ts[0].text, Render(ts[1..]));
    }
  }

  /** Without references the loop has nothing to do. */
  lemma NoReference(ts: seq<Piece>, secrets: Vault)
    requires Template(ts) && First(ts) == |ts|
    ensures Ends(ts, secrets) && Steps(ts, secrets) == 0 && Final(Next(secrets), Render(ts))
  {
    LiteralsInert(ts);
    InertIsSettled(Render(ts));
    OutcomeFinal(Next(secrets), Render(ts));
    assert Iterate(Next(secrets), Render(ts), 0) == Render(ts);
    RemainingIs(Next(secrets), Render(ts), 0);
  }

  /** The text around the first reference. */
  lemma RenderAround(ts: seq<Piece>, body: seq<Piece>)
    requires First(ts) < |ts|
    ensures var i := First(ts);
      && Render(ts) == Render(ts[..i]) + (PREFIX + ts[i].name + SUFFIX + Render(ts[i + 1..]))
      && Render(ts[..i] + (body + ts[i + 1..])) == Render(ts[..i]) + Render(body) + Render(ts[i + 1..])
  {
    var i := First(ts);
    assert ts == ts[..i] + ts[i..] && ts[i..][1..] == ts[i + 1..];
    RenderAppend(ts[..i], ts[i..]);
    RenderAppend(ts[..i], body + ts[i + 1..]);
    RenderAppend(body, ts[i + 1..]);
    Associative(Render(ts[..i]), Render(body), Render(ts[i + 1..]));
  }

  lemma TemplateParts(ts: seq<Piece>, i: nat)
    requires Template(ts) && i <= |ts|
    ensures Template(ts[..i]) && Template(ts[i..])
  {
  }

  lemma TemplateAppend(xs: seq<Piece>, ys: seq<Piece>)
    requires Template(xs) && Template(ys)
    ensures Template(xs + ys)
  {
  }

  lemma ExpandTemplate(ts: seq<Piece>, bodies: Bodies, secrets: Vault)
    requires Template(ts) && Spells(bodies, secrets) && First(ts) < |ts|
    ensures Template(Expand(ts, bodies))
  {
    var i := First(ts);
    TemplateParts(ts, i);
    TemplateParts(ts, i + 1);
    TemplateAppend(Body(bodies, ts[i].name), ts[i + 1..]);
    TemplateAppend(ts[..i], Body(bodies, ts[i].name) + ts[i + 1..]);
  }

  /** Otherwise an iteration replaces the first reference by the template its secret spells. */
  lemma ExpandIsNext(ts: seq<Piece>, bodies: Bodies, secrets: Vault)
    requires Template(ts) && Spells(bodies, secrets) && First(ts) < |ts|
    ensures Next(secrets)(Render(ts)) == Some(Render(Expand(ts, bodies)))
  {
    var i := First(ts);
    var name, before, after := ts[i].name, Render(ts[..i]), Render(ts[i + 1..]);
    assert Inert(before) by {
      TemplateParts(ts, i);
      LiteralsInert(ts[..i]);
    }
    RenderAround(ts, Body(bodies, name));
    NextIs(before, name, after, secrets, Render(ts));
    BodyValue(bodies, secrets, name);
  }

  lemma BodyValue(bodies: Bodies, secrets: Vault, name: string)
    requires Spells(bodies, secrets)
    ensures Lookup(secrets, TrimSpace(name)) == Render(Body(bodies, name))
  {
  }

  lemma NextIs(acc: string, name: string, rest: string, secrets: Vault, s: string)
    requires Inert(acc) && '}' !in name && s == acc + (PREFIX + name + SUFFIX + rest)
    ensures Next(secrets)(s) == Some(acc + Lookup(secrets, TrimSpace(name)) + rest)
  {
    RewriteReference(acc, name, rest, secrets, s);
  }

  lemma StepDown(ts: seq<Piece>, bodies: Bodies, secrets: Vault)
    requires Template(ts) && Spells(bodies, secrets) && First(ts) < |ts|
    ensures Template(Expand(ts, bodies))
    ensures Ends(ts, secrets) <==> Ends(Expand(ts, bodies), secrets)
    ensures Ends(ts, secrets) ==> Steps(ts, secrets) == Steps(Expand(ts, bodies), secrets) + 1
  {
    ExpandTemplate(ts, bodies, secrets);
    ExpandIsNext(ts, bodies, secrets);
    OutcomeStep(Next(secrets), Render(ts));
    if Ends(ts, secrets) {
      RemainingStep(Next(secrets), Render(ts));
    }
  }

  // ── Templates resolve piece by piece ─────────────────────────────────────

  lemma Assoc(xs: seq<Piece>, ys: seq<Piece>, zs: seq<Piece>)
    ensures xs + (ys + zs) == (xs + ys) + zs
  {
  }

  lemma SpliceLeft(xs: seq<Piece>, ys: seq<Piece>, i: nat, body: seq<Piece>)
    requires i < |xs|
    ensures Splice(xs + ys, i, body) == Splice(xs, i, body) + ys
  {
    assert (xs + ys)[..i] == xs[..i];
    assert (xs + ys)[i + 1..] == xs[i + 1..] + ys;
    Assoc(body, xs[i + 1..], ys);
    Assoc(xs[..i], body + xs[i + 1..], ys);
  }

  lemma SpliceRight(xs: seq<Piece>, ys: seq<Piece>, j: nat, body: seq<Piece>)
    requires j < |ys|
    ensures Splice(xs + ys, |xs| + j, body) == xs + Splice(ys, j, body)
  {
    Slices(xs, ys, j);
    Assoc(xs, ys[..j], body + ys[j + 1..]);
  }

  lemma ExpandLeft(xs: seq<Piece>, ys: seq<Piece>, bodies: Bodies)
    requires First(xs) < |xs|
    ensures First(xs + ys) == First(xs) && Expand(xs + ys, bodies) == Expand(xs, bodies) + ys
  {
    FirstIs(xs + ys, First(xs));
    SpliceLeft(xs, ys, First(xs), Body(bodies, xs[First(xs)].name));
  }

  lemma FirstRight(xs: seq<Piece>, ys: seq<Piece>)
    requires First(xs) == |xs|
    ensures First(xs + ys) == |xs| + First(ys)
  {
    FirstIs(xs + ys, |xs| + First(ys));
  }

  lemma Slices(xs: seq<Piece>, ys: seq<Piece>, j: nat)
    requires j < |ys|
    ensures (xs + ys)[..|xs| + j] == xs + ys[..j] && (xs + ys)[|xs| + j + 1..] == ys[j + 1..]
    ensures ys == ys[..j] + ([ys[j]] + ys[j + 1..])
  {
  }

  lemma ExpandRight(xs: seq<Piece>, ys: seq<Piece>, bodies: Bodies)
    requires First(xs) == |xs| && First(ys) < |ys|
    ensures First(xs + ys) == |xs| + First(ys) && Expand(xs + ys, bodies) == xs + Expand(ys, bodies)
  {
    var j := First(ys);
    assert (xs + ys)[|xs| + j] == ys[j];
    SpliceRight(xs, ys, j, Body(bodies, ys[j].name));
    FirstRight(xs, ys);
  }

  lemma {:induction false} FirstIs(ts: seq<Piece>, i: nat)
    requires i <= |ts| && (forall j :: 0 <= j < i ==> ts[j].Literal?) && (i < |ts| ==> ts[i].Reference?)
    ensures First(ts) == i
  {
    if i > 0 {
      FirstIs(ts[1..], i - 1);
    }
  }

  /** If the loop ends on a template it ends on both parts of it, in as many steps together. */
  lemma {:induction false} Apart(xs: seq<Piece>, ys: seq<Piece>, bodies: Bodies, secrets: Vault)
    requires Template(xs) && Template(ys) && Spells(bodies, secrets) && Ends(xs + ys, secrets)
    ensures Ends(xs, secrets) && Ends(ys, secrets)
    ensures Steps(xs + ys, secrets) == Steps(xs, secrets) + Steps(ys, secrets)
    decreases Steps(xs + ys, secrets)
  {
    if First(xs) < |xs| {
      ExpandLeft(xs, ys, bodies);
      StepDown(xs + ys, bodies, secrets);
      StepDown(xs, bodies, secrets);
      Apart(Expand(xs, bodies), ys, bodies, secrets);
    } else if First(ys) < |ys| {
      ExpandRight(xs, ys, bodies);
      StepDown(xs + ys, bodies, secrets);
      StepDown(ys, bodies, secrets);
      Apart(xs, Expand(ys, bodies), bodies, secrets);
    } else {
      FirstIs(xs + ys, |xs + ys|);
      NoReference(xs, secrets);
      NoReference(ys, secrets);
      NoReference(xs + ys, secrets);
    }
  }

  /** And if it ends on both parts it ends on the whole. */
  lemma {:induction false} Together(xs: seq<Piece>, ys: seq<Piece>, bodies: Bodies, secrets: Vault)
    requires Template(xs) && Template(ys) && Spells(bodies, secrets) && Ends(xs, secrets) && Ends(ys, secrets)
    ensures Ends(xs + ys, secrets)
    decreases Steps(xs, secrets) + Steps(ys, secrets)
  {
    if First(xs) < |xs| {
      ExpandLeft(xs, ys, bodies);
      StepDown(xs, bodies, secrets);
      Together(Expand(xs, bodies), ys, bodies, secrets);
      StepDown(xs + ys, bodies, secrets);
    } else if First(ys) < |ys| {
      ExpandRight(xs, ys, bodies);
      StepDown(ys, bodies, secrets);
      Together(xs, Expand(ys, bodies), bodies, secrets);
      StepDown(xs + ys, bodies, secrets);
    } else {
      FirstIs(xs + ys, |xs + ys|);
      NoReference(xs + ys, secrets);
    }
  }

  // ── The reference graph ──────────────────────────────────────────────────

  /** The value of `k` contains a reference to `t`. */
  ghost predicate Refers(bodies: Bodies, k: string, t: string) {
    && k in bodies && t in bodies
    && exists i :: 0 <= i < |bodies[k]| && bodies[k][i].Reference? && TrimSpace(bodies[k][i].name) == t
  }

  ghost predicate Path(bodies: Bodies, p: seq<string>) {
    |p| >= 2 && forall i :: 0 <= i < |p| - 1 ==> Refers(bodies, p[i], p[i + 1])
  }

  ghost predicate Reaches(bodies: Bodies, k: string, t: string) {
    exists p :: Path(bodies, p) && p[0] == k && p[|p| - 1] == t
  }

  ghost predicate Acyclic(bodies: Bodies) {
    forall k :: !Reaches(bodies, k, k)
  }

  /** A single reference takes one step more than what it stands for. */
  lemma ReferenceSteps(name: string, bodies: Bodies, secrets: Vault)
    requires Spells(bodies, secrets) && '}' !in name
    ensures Ends([Reference(name)], secrets) <==> Ends(Body(bodies, name), secrets)
    ensures Ends([Reference(name)], secrets) ==>
      Steps([Reference(name)], secrets) == Steps(Body(bodies, name), secrets) + 1
  {
    var ts := [Reference(name)];
    FirstIs(ts, 0);
    StepDown(ts, bodies, secrets);
    assert Expand(ts, bodies) == Body(bodies, name);
  }

  /** A reference inside a template on which the loop ends. */
  lemma Inside(xs: seq<Piece>, name: string, ys: seq<Piece>, bodies: Bodies, secrets: Vault)
    requires Spells(bodies, secrets) && Template(xs) && Template(ys) && '}' !in name
    requires Ends(xs + ([Reference(name)] + ys), secrets)
    ensures Ends(Body(bodies, name), secrets)
    ensures Steps(Body(bodies, name), secrets) < Steps(xs + ([Reference(name)] + ys), secrets)
  {
    var one := [Reference(name)];
    TemplateAppend(one, ys);
    Apart(xs, one + ys, bodies, secrets);
    Apart(one, ys, bodies, secrets);
    ReferenceSteps(name, bodies, secrets);
  }

  /** Along a reference the number of steps drops. */
  lemma RefersDrops(bodies: Bodies, secrets: Vault, k: string, t: string)
    requires Spells(bodies, secrets) && Refers(bodies, k, t) && Ends(bodies[k], secrets)
    ensures Ends(bodies[t], secrets) && Steps(bodies[t], secrets) < Steps(bodies[k], secrets)
  {
    var ts := bodies[k];
    var i :| 0 <= i < |ts| && ts[i].Reference? && TrimSpace(ts[i].name) == t;
    TemplateParts(ts, i);
    TemplateParts(ts, i + 1);
    Slices([], ts, i);
    assert ts[i] == Reference(ts[i].name);
    Inside(ts[..i], ts[i].name, ts[i + 1..], bodies, secrets);
  }

  lemma PathTail(bodies: Bodies, p: seq<string>)
    requires Path(bodies, p) && |p| > 2
    ensures Path(bodies, p[1..])
  {
    var q := p[1..];
    forall i | 0 <= i < |q| - 1 ensures Refers(bodies, q[i], q[i + 1]) {
      assert q[i] == p[i + 1] && q[i + 1] == p[i + 1 + 1];
    }
  }

  lemma {:induction false} PathDrops(bodies: Bodies, secrets: Vault, p: seq<string>)
    requires Spells(bodies, secrets) && Path(bodies, p)
    ensures p[0] in bodies && p[|p| - 1] in bodies
    ensures Ends(bodies[p[0]], secrets) ==>
      Ends(bodies[p[|p| - 1]], secrets) && Steps(bodies[p[|p| - 1]], secrets) < Steps(bodies[p[0]], secrets)
  {
    assert Refers(bodies, p[0], p[0 + 1]);
    if |p| > 2 {
      PathTail(bodies, p);
      PathDrops(bodies, secrets, p[1..]);
    }
    if Ends(bodies[p[0]], secrets) {
      RefersDrops(bodies, secrets, p[0], p[1]);
    }
  }

  /** A template with a reference to a secret on a cycle: the loop never ends. */
  lemma CycleNeverEnds(bodies: Bodies, secrets: Vault, k: string, xs: seq<Piece>, name: string, ys: seq<Piece>)
    requires Spells(bodies, secrets) && Reaches(bodies, k, k)
    requires Template(xs) && Template(ys) && '}' !in name && TrimSpace(name) == k
    ensures !Ends(xs + ([Reference(name)] + ys), secrets)
    ensures k in bodies && !Ends(bodies[k], secrets)
  {
    var p :| Path(bodies, p) && p[0] == k && p[|p| - 1] == k;
    PathDrops(bodies, secrets, p);
    if Ends(xs + ([Reference(name)] + ys), secrets) {
      Inside(xs, name, ys, bodies, secrets);
    }
  }

  // ── Without a cycle it ends ──────────────────────────────────────────────

  /** What a secret refers to, directly or through others. */
  ghost function Below(bodies: Bodies, k: string): set<string> {
    set t | t in bodies && Reaches(bodies, k, t)
  }

  lemma RefersReaches(bodies: Bodies, k: string, t: string)
    requires Refers(bodies, k, t)
    ensures Reaches(bodies, k, t)
    ensures forall u :: Reaches(bodies, t, u) ==> Reaches(bodies, k, u)
  {
    var direct := [k, t];
    assert Path(bodies, direct) && direct[0] == k && direct[|direct| - 1] == t;
    forall u | Reaches(bodies, t, u) ensures Reaches(bodies, k, u) {
      var p :| Path(bodies, p) && p[0] == t && p[|p| - 1] == u;
      var q := [k] + p;
      forall i | 0 <= i < |q| - 1 ensures Refers(bodies, q[i], q[i + 1]) {
        assert i > 0 ==> q[i] == p[i - 1] && q[i + 1] == p[i];
      }
      assert Path(bodies, q) && q[0] == k && q[|q| - 1] == u;
    }
  }

  lemma BelowShrinks(bodies: Bodies, k: string, t: string)
    requires Acyclic(bodies) && Refers(bodies, k, t)
    ensures |Below(bodies, t)| < |Below(bodies, k)|
  {
    RefersReaches(bodies, k, t);
    assert Below(bodies, t) < Below(bodies, k) by {
      assert t in Below(bodies, k) && t !in Below(bodies, t);
    }
    Proper(Below(bodies, t), Below(bodies, k));
  }

  lemma Proper(a: set<string>, b: set<string>)
    requires a < b
    ensures |a| < |b|
  {
    assert b == a + (b - a);
  }

  lemma {:induction false} PiecesEnd(ts: seq<Piece>, bodies: Bodies, secrets: Vault)
    requires Template(ts) && Spells(bodies, secrets)
    requires forall i :: 0 <= i < |ts| ==> Ends([ts[i]], secrets)
    ensures Ends(ts, secrets)
  {
    if ts == [] {
      NoReference(ts, secrets);
    } else {
      PiecesEnd(ts[1..], bodies, secrets);
      Together([ts[0]], ts[1..], bodies, secrets);
      assert [ts[0]] + ts[1..] == ts;
    }
  }

  lemma {:induction false} BodyEnds(bodies: Bodies, secrets: Vault, k: string)
    requires Spells(bodies, secrets) && Acyclic(bodies) && k in bodies
    ensures Ends(bodies[k], secrets)
    decreases |Below(bodies, k)|
  {
    var ts := bodies[k];
    forall i | 0 <= i < |ts| ensures Ends([ts[i]], secrets) {
      if ts[i].Reference? && TrimSpace(ts[i].name) in bodies {
        var t := TrimSpace(ts[i].name);
        assert Refers(bodies, k, t);
        BelowShrinks(bodies, k, t);
        BodyEnds(bodies, secrets, t);
      }
      PieceEnds(ts[i], bodies, secrets);
    }
    PiecesEnd(ts, bodies, secrets);
  }

  lemma PieceEnds(piece: Piece, bodies: Bodies, secrets: Vault)
    requires Spells(bodies, secrets) && Template([piece])
    requires piece.Reference? && TrimSpace(piece.name) in bodies ==> Ends(bodies[TrimSpace(piece.name)], secrets)
    ensures Ends([piece], secrets)
  {
    if piece.Literal? {
      FirstIs([piece], 1);
      NoReference([piece], secrets);
    } else {
      NoReference([], secrets);
      assert Template([piece]) && [piece][0] == piece;
      ReferenceSteps(piece.name, bodies, secrets);
    }
  }

  /** For secrets whose values are templates: the loop ends on every template if and only if no
      secret refers to itself, directly or through others. */
  lemma EndsExactly(bodies: Bodies, secrets: Vault)
    requires Spells(bodies, secrets)
    ensures Acyclic(bodies) <==> forall ts: seq<Piece> :: Template(ts) ==> Ends(ts, secrets)
  {
    if Acyclic(bodies) {
      forall ts: seq<Piece> | Template(ts) ensures Ends(ts, secrets) {
        forall i | 0 <= i < |ts| ensures Ends([ts[i]], secrets) {
          if ts[i].Reference? && TrimSpace(ts[i].name) in bodies {
            BodyEnds(bodies, secrets, TrimSpace(ts[i].name));
          }
          PieceEnds(ts[i], bodies, secrets);
        }
        PiecesEnd(ts, bodies, secrets);
      }
    } else {
      var k :| Reaches(bodies, k, k);
      var p :| Path(bodies, p) && p[0] == k && p[|p| - 1] == k;
      PathDrops(bodies, secrets, p);
      assert Template(bodies[k]) && !Ends(bodies[k], secrets);
    }
  }
}
