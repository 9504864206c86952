/**
 * Sensitivity plans: which locations of a call's arguments must not be echoed.
 * `merge` is the union of hidden locations, and on the normal forms the compiler
 * builds two plans are equal exactly when they hide the same locations.
 */
module RedactionPlan {
  import opened Options

  /** A plan with no key at all is public. Absent and empty properties or prefixes are the same plan. */
  datatype Plan = Omit | Open(props: map<string, Plan>, prefix: seq<Plan>, items: Option<Plan>)

  const Public: Plan := Open(map[], [], None)

  /** One step down a JSON value. */
  datatype Step = Key(name: string) | Index(i: nat)

  type Path = seq<Step>

  predicate Sensitive(p: Plan) { p != Public }

  function Rest(p: Plan): Plan
    requires p.Open?
  {
    match p.items case Some(q) => q case None => Public
  }

  function Item(p: Plan, i: nat): Plan
    requires p.Open?
  {
    if i < |p.prefix| then p.prefix[i] else Rest(p)
  }

  function Field(p: Plan, k: string): Plan
    requires p.Open?
  {
    if k in p.props then p.props[k] else Public
  }

  /** The plan for the part of a value one step down. */
  function Under(p: Plan, s: Step): Plan
    requires p.Open?
  {
    match s case Key(k) => Field(p, k) case Index(i) => Item(p, i)
  }

  /** The location is inside an omitted one. */
  predicate Hides(p: Plan, path: Path)
    decreases path
  {
    var hidden := p.Omit? || (path != [] && Hides(Under(p, path[0]), path[1..]));
    hidden
  }

  /* ---- Merging --------------------------------------------------------------------------- */

  /** Drop the positions at the end of a prefix that the tail already describes. */
  function Trim(prefix: seq<Plan>, tail: Plan): (r: seq<Plan>)
    ensures r <= prefix && (r == [] || r[|r| - 1] != tail)
    ensures forall i :: |r| <= i < |prefix| ==> prefix[i] == tail
  {
    if prefix == [] || prefix[|prefix| - 1] != tail then prefix else Trim(prefix[..|prefix| - 1], tail)
  }

  function Build(props: map<string, Plan>, prefix: seq<Plan>, tail: Plan): Plan {
    Open(props, Trim(prefix, tail), if Sensitive(tail) then Some(tail) else None)
  }

  function Max(a: nat, b: nat): nat { if a < b then b else a }

  /** Merging with the public plan, which rebuilds the properties and leaves the items alone. */
  function Rebuilt(p: Plan): Plan {
    if p.Omit? then Omit
    else Build(map k | k in p.props :: Rebuilt(p.props[k]), p.prefix, Rest(p))
  }

  function MergeField(l: Plan, r: Plan, k: string): Plan
    requires l.Open? && r.Open? && (k in l.props || k in r.props)
    decreases l, r, 0, 0
  {
    if k !in r.props then Rebuilt(l.props[k])
    else if k !in l.props then Rebuilt(r.props[k])
    else Merge(l.props[k], r.props[k])
  }

  function MergeItem(l: Plan, r: Plan, i: nat): Plan
    requires l.Open? && r.Open?
    decreases l, r, 0, 0
  {
    if !Sensitive(Item(l, i)) then Item(r, i)
    else if !Sensitive(Item(r, i)) then Item(l, i)
    else Merge(Item(l, i), Item(r, i))
  }

  function MergeRest(l: Plan, r: Plan): Plan
    requires l.Open? && r.Open?
    decreases l, r, 0, 0
  {
    if !Sensitive(Rest(l)) then Rest(r)
    else if !Sensitive(Rest(r)) then Rest(l)
    else Merge(Rest(l), Rest(r))
  }

  /** Combine the restrictions of references, siblings and alternatives without losing array indices. */
  function Merge(l: Plan, r: Plan): Plan
    decreases l, r, 2, 0
  {
    if l.Omit? || r.Omit? then Omit
    else
      var props := map k | k in l.props.Keys + r.props.Keys :: MergeField(l, r, k);
      Build(props, MergePrefix(l, r, Max(|l.prefix|, |r.prefix|)), MergeRest(l, r))
  }

  function MergePrefix(l: Plan, r: Plan, n: nat): (s: seq<Plan>)
    requires l.Open? && r.Open?
    ensures |s| == n && forall i :: 0 <= i < n ==> s[i] == MergeItem(l, r, i)
    decreases l, r, 1, n
  {
    if n == 0 then [] else MergePrefix(l, r, n - 1) + [MergeItem(l, r, n - 1)]
  }

  /* ---- Merging is union ------------------------------------------------------------------ */

  lemma {:induction false} BuildItem(props: map<string, Plan>, prefix: seq<Plan>, tail: Plan, i: nat)
    ensures Item(Build(props, prefix, tail), i) == if i < |prefix| then prefix[i] else tail
  {
  }

  lemma {:induction false} MergedItem(l: Plan, r: Plan, i: nat)
    requires l.Open? && r.Open?
    ensures Item(Merge(l, r), i) == MergeItem(l, r, i)
  {
  }

  lemma {:induction false} MergedField(l: Plan, r: Plan, k: string)
    requires l.Open? && r.Open?
    ensures (k in Merge(l, r).props) <==> k in l.props || k in r.props
    ensures k in l.props || k in r.props ==> Merge(l, r).props[k] == MergeField(l, r, k)
  {
  }

  lemma {:induction false} PublicHidesNothing(path: Path)
    ensures !Hides(Public, path)
  {
    if path != [] { PublicHidesNothing(path[1..]); }
  }

  /** Merging with the public plan is rebuilding, on either side. */
  lemma {:induction false} MergePublic(p: Plan)
    ensures Merge(p, Public) == Rebuilt(p) && Merge(Public, p) == Rebuilt(p)
  {
    if p.Open? {
      PublicProps(p);
      assert MergePrefix(p, Public, |p.prefix|) == p.prefix && MergePrefix(Public, p, |p.prefix|) == p.prefix;
    }
  }

  lemma {:induction false} PublicProps(p: Plan)
    requires p.Open?
    ensures Merge(p, Public).props == Rebuilt(p).props && Merge(Public, p).props == Rebuilt(p).props
  {
    assert Rebuilt(p).props == map k | k in p.props :: Rebuilt(p.props[k]);
  }

  lemma {:induction false} RebuiltHides(p: Plan, path: Path)
    ensures Hides(Rebuilt(p), path) <==> Hides(p, path)
    decreases path
  {
    if p.Open? && path != [] {
      match path[0] {
        case Key(k) => if k in p.props { RebuiltHides(p.props[k], path[1..]); }
        case Index(i) => BuildItem(Rebuilt(p).props, p.prefix, Rest(p), i);
      }
    }
  }

  /** Merge hides a location exactly when one of its two plans does: properties, prefix positions and tail alike. */
  lemma {:induction false} MergeHides(l: Plan, r: Plan, path: Path)
    ensures Hides(Merge(l, r), path) <==> Hides(l, path) || Hides(r, path)
    decreases path, 0
  {
    if l.Open? && r.Open? && path != [] {
      match path[0] {
        case Key(k) => MergeHidesField(l, r, k, path[1..]);
        case Index(i) =>
          MergedItem(l, r, i);
          PublicHidesNothing(path[1..]);
          MergeHides(Item(l, i), Item(r, i), path[1..]);
      }
    }
  }

  lemma {:induction false} MergeHidesField(l: Plan, r: Plan, k: string, path: Path)
    requires l.Open? && r.Open?
    ensures Hides(Field(Merge(l, r), k), path) <==> Hides(Field(l, k), path) || Hides(Field(r, k), path)
    decreases path, 1
  {
    PublicHidesNothing(path);
    MergedField(l, r, k);
    if k in l.props && k in r.props {
      MergeHides(l.props[k], r.props[k], path);
    } else if k in l.props {
      RebuiltHides(l.props[k], path);
    } else if k in r.props {
      RebuiltHides(r.props[k], path);
    }
  }

  /* ---- Normal forms ---------------------------------------------------------------------- */

  /** Children are normal; a listed property is never public, and the tail may be. */
  predicate Loose(p: Plan) {
    p.Open? ==>
      && (forall k :: k in p.props ==> Sensitive(p.props[k]) && Normal(p.props[k]))
      && (forall i :: 0 <= i < |p.prefix| ==> Normal(p.prefix[i]))
      && (p.items.Some? ==> Normal(p.items.value))
  }

  /** No two different normal plans hide the same locations. */
  predicate Normal(p: Plan) {
    p.Open? ==>
      && (forall k :: k in p.props ==> Sensitive(p.props[k]) && Normal(p.props[k]))
      && (forall i :: 0 <= i < |p.prefix| ==> Normal(p.prefix[i]))
      && (p.items.Some? ==> Normal(p.items.value) && Sensitive(p.items.value))
      && (p.prefix != [] ==> p.prefix[|p.prefix| - 1] != Rest(p))
  }

  lemma {:induction false} NormalUnder(p: Plan, s: Step)
    requires p.Open? && Loose(p)
    ensures Normal(Under(p, s))
  {
  }

  lemma {:induction false} RebuiltNormal(p: Plan)
    requires Normal(p)
    ensures Rebuilt(p) == p
  {
    if p.Open? {
      forall k | k in p.props ensures Rebuilt(p.props[k]) == p.props[k] { RebuiltNormal(p.props[k]); }
      assert Rebuilt(p).props == p.props;
    }
  }

  /** A normal plan is sensitive exactly when it hides something. */
  lemma {:induction false} SensitiveHides(p: Plan) returns (path: Path)
    requires Normal(p) && Sensitive(p)
    ensures Hides(p, path)
  {
    if p.Omit? {
      path := [];
    } else if p.items.Some? {
      var rest := SensitiveHides(p.items.value);
      path := [Index(|p.prefix|)] + rest;
    } else if p.prefix != [] {
      var rest := SensitiveHides(p.prefix[|p.prefix| - 1]);
      path := [Index(|p.prefix| - 1)] + rest;
    } else {
      assert p.props != map[];
      var k :| k in p.props;
      var rest := SensitiveHides(p.props[k]);
      path := [Key(k)] + rest;
    }
    assert path != [] ==> path[1..] == path[1..];
  }

  lemma {:induction false} SensitiveIffHides(p: Plan)
    requires Normal(p)
    ensures Sensitive(p) ==> exists path :: Hides(p, path)
    ensures (exists path :: Hides(p, path)) ==> Sensitive(p)
  {
    if Sensitive(p) {
      var path := SensitiveHides(p);
      assert Hides(p, path);
    } else {
      forall path ensures !Hides(p, path) { PublicHidesNothing(path); }
    }
  }

  lemma {:induction false} MergeSensitive(l: Plan, r: Plan)
    requires Loose(l) && Loose(r) && Normal(Merge(l, r))
    requires exists path :: Hides(l, path) || Hides(r, path)
    ensures Sensitive(Merge(l, r))
  {
    var path :| Hides(l, path) || Hides(r, path);
    MergeHides(l, r, path);
    PublicHidesNothing(path);
  }

  /** Every plan merge returns is normal, even when one side spells out public positions or a public tail. */
  lemma {:induction false} MergeNormal(l: Plan, r: Plan)
    requires Loose(l) && Loose(r)
    ensures Normal(Merge(l, r))
    decreases l, r, 1
  {
    if l.Open? && r.Open? {
      var props := map k | k in l.props.Keys + r.props.Keys :: MergeField(l, r, k);
      var prefix := MergePrefix(l, r, Max(|l.prefix|, |r.prefix|));
      forall k | k in props ensures Sensitive(props[k]) && Normal(props[k]) { FieldNormal(l, r, k); }
      forall i | 0 <= i < |prefix| ensures Normal(prefix[i]) { ItemNormal(l, r, i); }
      ItemNormal(l, r, |prefix|);
      BuildNormal(props, prefix, MergeRest(l, r));
    }
  }

  lemma {:induction false} BuildNormal(props: map<string, Plan>, prefix: seq<Plan>, tail: Plan)
    requires forall k :: k in props ==> Sensitive(props[k]) && Normal(props[k])
    requires (forall i :: 0 <= i < |prefix| ==> Normal(prefix[i])) && Normal(tail)
    ensures Normal(Build(props, prefix, tail))
  {
  }

  lemma {:induction false} FieldNormal(l: Plan, r: Plan, k: string)
    requires Loose(l) && Loose(r) && l.Open? && r.Open? && (k in l.props || k in r.props)
    ensures Sensitive(MergeField(l, r, k)) && Normal(MergeField(l, r, k))
    decreases l, r, 0
  {
    if k !in r.props {
      RebuiltNormal(l.props[k]);
    } else if k !in l.props {
      RebuiltNormal(r.props[k]);
    } else {
      MergeNormal(l.props[k], r.props[k]);
      var path := SensitiveHides(l.props[k]);
      MergeSensitive(l.props[k], r.props[k]);
    }
  }

  lemma {:induction false} ItemNormal(l: Plan, r: Plan, i: nat)
    requires Loose(l) && Loose(r) && l.Open? && r.Open?
    ensures Normal(MergeItem(l, r, i))
    decreases l, r, 0
  {
    NormalUnder(l, Index(i));
    NormalUnder(r, Index(i));
    if Sensitive(Item(l, i)) && Sensitive(Item(r, i)) { MergeNormal(Item(l, i), Item(r, i)); }
  }

  /** Normal plans that hide the same locations are the same plan. */
  lemma {:induction false} Canonical(p: Plan, q: Plan)
    requires Normal(p) && Normal(q)
    requires forall path :: Hides(p, path) <==> Hides(q, path)
    ensures p == q
    decreases p, q
  {
    assert Hides(p, []) <==> Hides(q, []);
    if p.Open? {
      SameProps(p, q);
      SameProps(q, p);
      forall k | k in p.props ensures p.props[k] == q.props[k] {
        Below(p, q, Key(k));
        assert Under(p, Key(k)) == p.props[k] && Under(q, Key(k)) == q.props[k];
        Canonical(p.props[k], q.props[k]);
      }
      assert p.props == q.props;
      forall i: nat ensures Item(p, i) == Item(q, i) { SameItem(p, q, i); }
      SameArray(p, q);
    }
  }

  lemma {:induction false} Below(p: Plan, q: Plan, s: Step)
    requires p.Open? && q.Open? && forall path :: Hides(p, path) <==> Hides(q, path)
    ensures forall path :: Hides(Under(p, s), path) <==> Hides(Under(q, s), path)
  {
    forall path ensures Hides(Under(p, s), path) <==> Hides(Under(q, s), path) {
      assert ([s] + path)[1..] == path;
      assert Hides(p, [s] + path) <==> Hides(q, [s] + path);
    }
  }

  lemma {:induction false} SameProps(p: Plan, q: Plan)
    requires p.Open? && q.Open? && Normal(p)
    requires forall path :: Hides(p, path) <==> Hides(q, path)
    ensures p.props.Keys <= q.props.Keys
  {
    forall k | k in p.props ensures k in q.props {
      var path := SensitiveHides(p.props[k]);
      Below(p, q, Key(k));
      assert Hides(Under(p, Key(k)), path);
      PublicHidesNothing(path);
    }
  }

  lemma {:induction false} SameItem(p: Plan, q: Plan, i: nat)
    requires Normal(p) && Normal(q) && p.Open? && q.Open?
    requires forall path :: Hides(p, path) <==> Hides(q, path)
    ensures Item(p, i) == Item(q, i)
    decreases p, q, 0
  {
    Below(p, q, Index(i));
    if !Sensitive(Item(p, i)) {
      if Sensitive(Item(q, i)) {
        var path := SensitiveHides(Item(q, i));
        assert Hides(Under(p, Index(i)), path);
        PublicHidesNothing(path);
      }
    } else {
      var path := SensitiveHides(Item(p, i));
      assert Hides(Under(q, Index(i)), path);
      PublicHidesNothing(path);
      Canonical(Item(p, i), Item(q, i));
    }
  }

  lemma {:induction false} SamePrefix(p: Plan, q: Plan)
    requires Normal(p) && p.Open? && q.Open? && Rest(p) == Rest(q)
    requires forall i: nat :: Item(p, i) == Item(q, i)
    ensures |p.prefix| <= |q.prefix|
  {
    if |p.prefix| > 0 { var last := Item(p, |p.prefix| - 1); }
  }

  lemma {:induction false} SameArray(p: Plan, q: Plan)
    requires Normal(p) && Normal(q) && p.Open? && q.Open?
    requires forall i: nat :: Item(p, i) == Item(q, i)
    ensures p.prefix == q.prefix && p.items == q.items
  {
    assert Item(p, |p.prefix| + |q.prefix|) == Item(q, |p.prefix| + |q.prefix|);
    SamePrefix(p, q);
    SamePrefix(q, p);
    forall i | 0 <= i < |p.prefix| ensures p.prefix[i] == q.prefix[i] {
      assert Item(p, i) == Item(q, i);
    }
  }

  /** The comparison the compiler uses on alternatives decides whether they hide the same locations. */
  lemma {:induction false} EqualIffHidesSame(p: Plan, q: Plan)
    requires Normal(p) && Normal(q)
    ensures (forall path :: Hides(p, path) <==> Hides(q, path)) ==> p == q
    ensures p != q ==> exists path :: Hides(p, path) != Hides(q, path)
  {
    if forall path :: Hides(p, path) <==> Hides(q, path) {
      Canonical(p, q);
    } else {
      var path :| Hides(p, path) != Hides(q, path);
    }
  }

  /* ---- The algebra of merge -------------------------------------------------------------- */

  lemma {:induction false} MergeCommutes(p: Plan, q: Plan)
    requires Normal(p) && Normal(q)
    ensures Merge(p, q) == Merge(q, p)
  {
    MergeNormal(p, q);
    MergeNormal(q, p);
    forall path ensures Hides(Merge(p, q), path) <==> Hides(Merge(q, p), path) {
      MergeHides(p, q, path);
      MergeHides(q, p, path);
    }
    Canonical(Merge(p, q), Merge(q, p));
  }

  lemma {:induction false} MergeAssociates(p: Plan, q: Plan, r: Plan)
    requires Normal(p) && Normal(q) && Normal(r)
    ensures Merge(Merge(p, q), r) == Merge(p, Merge(q, r))
  {
    MergeNormal(p, q);
    MergeNormal(q, r);
    MergeNormal(Merge(p, q), r);
    MergeNormal(p, Merge(q, r));
    forall path ensures Hides(Merge(Merge(p, q), r), path) <==> Hides(Merge(p, Merge(q, r)), path) {
      MergeHides(Merge(p, q), r, path);
      MergeHides(p, q, path);
      MergeHides(p, Merge(q, r), path);
      MergeHides(q, r, path);
    }
    Canonical(Merge(Merge(p, q), r), Merge(p, Merge(q, r)));
  }

  /** Merging a plan that hides nothing more changes nothing; in particular merge is idempotent. */
  lemma {:induction false} MergeAbsorbs(p: Plan, q: Plan)
    requires Normal(p) && Normal(q) && forall path :: Hides(q, path) ==> Hides(p, path)
    ensures Merge(p, q) == p
  {
    MergeNormal(p, q);
    forall path ensures Hides(Merge(p, q), path) <==> Hides(p, path) { MergeHides(p, q, path); }
    Canonical(Merge(p, q), p);
  }

  lemma {:induction false} MergeIdempotent(p: Plan)
    requires Normal(p)
    ensures Merge(p, p) == p
  {
    MergeAbsorbs(p, p);
  }
}
