/**
 * A compiled plan hides exactly the locations a schema marks `writeOnly`, whatever the
 * shape of the schema graph, and the two modes of compilation agree whenever both succeed.
 */
module RedactionSoundness {
  import opened Options
  import opened RedactionPlan
  import opened RedactionSchema

  /* ---- What a schema marks, independently of how it is compiled -------------------------- */

  /** The subschemas that apply to the same location: the reference's target and the alternatives. */
  predicate InPlace(c: Context, v: Value, w: Value)
    requires IsObject(c.heap, v)
  {
    var holds :=
      || (Get(c.heap, v, "$ref") != Undefined && Reference(c, Get(c.heap, v, "$ref")) == Some(w))
      || Alternative(c.heap, v, "allOf", w) || Alternative(c.heap, v, "oneOf", w) || Alternative(c.heap, v, "anyOf", w);
    holds
  }

  predicate Alternative(h: Heap, v: Value, keyword: string, w: Value)
    requires IsObject(h, v)
  {
    IsArray(h, Get(h, v, keyword)) && w in Elements(h, Get(h, v, keyword))
  }

  /** The subschema that applies one step down: a named property, a listed position, or the tail. */
  predicate Descends(h: Heap, v: Value, s: Step, w: Value)
    requires IsObject(h, v)
  {
    var holds :=
      match s
      case Key(k) =>
        var properties := Get(h, v, "properties");
        IsObject(h, properties) && HasKey(Entries(h, properties), k) && Get(h, properties, k) == w
      case Index(i) =>
        var prefixes := Prefixes(h, v);
        if IsArray(h, prefixes) && i < |Elements(h, prefixes)| then Elements(h, prefixes)[i] == w
        else w != Undefined && Tail(h, v) == w;
    holds
  }

  /** A subschema of an applicator whose matching is not modelled: it may apply here or one step down. */
  predicate Unmatched(h: Heap, v: Value, w: Value)
    requires IsObject(h, v)
  {
    var holds :=
      || (w != Undefined && exists i :: 0 <= i < |ClosedKeywords| && Get(h, v, ClosedKeywords[i]) == w)
      || (exists i :: 0 <= i < |ClosedMaps| && UnmatchedIn(h, Get(h, v, ClosedMaps[i]), ClosedMaps[i] == "dependencies", w));
    holds
  }

  predicate UnmatchedIn(h: Heap, m: Value, lists: bool, w: Value) {
    IsObject(h, m) && !(lists && IsArray(h, w)) && exists i :: 0 <= i < |Entries(h, m)| && Entries(h, m)[i].value == w
  }

  predicate WriteOnly(h: Heap, v: Value)
    requires IsObject(h, v)
  {
    Get(h, v, "writeOnly") == Bool(true)
  }

  /**
   * Some chain of at most `n` subschemas leads from `v` at the top to a `writeOnly` one at or above
   * `path`. With `open`, the applicators whose matching is not modelled count as applying too.
   */
  ghost predicate Marks(c: Context, open: bool, v: Value, path: Path, n: nat)
    decreases n
  {
    var marks :=
      && n > 0 && IsObject(c.heap, v)
      && (|| WriteOnly(c.heap, v)
          || (exists w :: InPlace(c, v, w) && Marks(c, open, w, path, n - 1))
          || (path != [] && exists w :: Descends(c.heap, v, path[0], w) && Marks(c, open, w, path[1..], n - 1))
          || (open && exists w :: Unmatched(c.heap, v, w) && Marks(c, open, w, path, n - 1))
          || (open && path != [] && exists w :: Unmatched(c.heap, v, w) && Marks(c, open, w, path[1..], n - 1)));
    marks
  }

  /* ---- One section ----------------------------------------------------------------------- */

  /** What the plan of one subschema of a section hides in the schema's own terms. */
  predicate Lifts(role: Role, j: nat, q: Plan, path: Path) {
    match role
    case Skip => false
    case All => Hides(q, path)
    case Either => Hides(q, path)
    case Fields(names) => j < |names| && path != [] && path[0] == Key(names[j]) && Hides(q, path[1..])
    case Positions(n) =>
      path != [] && path[0].Index? && (if j < n then path[0].i == j else path[0].i >= n) && Hides(q, path[1..])
    case Closed => false
  }

  predicate AllNormal(plans: seq<Plan>) {
    forall j :: 0 <= j < |plans| ==> Normal(plans[j])
  }

  lemma {:induction false} MergeAllHides(plan: Plan, plans: seq<Plan>, path: Path)
    ensures Hides(MergeAll(plan, plans), path) <==> Hides(plan, path) || exists j :: 0 <= j < |plans| && Hides(plans[j], path)
    decreases plans
  {
    if plans != [] {
      MergeHides(plan, plans[0], path);
      MergeAllHides(Merge(plan, plans[0]), plans[1..], path);
      assert forall j :: 0 <= j < |plans| - 1 ==> plans[1..][j] == plans[j + 1];
      if j :| 0 <= j < |plans| && Hides(plans[j], path) {
        if j > 0 { assert plans[1..][j - 1] == plans[j]; }
      }
    }
  }

  lemma {:induction false} MergeAllNormal(plan: Plan, plans: seq<Plan>)
    requires Normal(plan) && AllNormal(plans)
    ensures Normal(MergeAll(plan, plans))
    decreases plans
  {
    if plans != [] {
      MergeNormal(plan, plans[0]);
      MergeAllNormal(Merge(plan, plans[0]), plans[1..]);
    }
  }

  /** Repeating one plan adds nothing. */
  lemma {:induction false} MergeAllSame(plan: Plan, plans: seq<Plan>)
    requires Normal(plan) && AllNormal(plans) && AllSame(plans) && plans != []
    ensures MergeAll(plan, plans) == Merge(plan, plans[0])
    decreases plans
  {
    var q := plans[0];
    MergeNormal(plan, q);
    if |plans| > 1 {
      MergeAllSame(Merge(plan, q), plans[1..]);
      forall path | Hides(q, path) ensures Hides(Merge(plan, q), path) { MergeHides(plan, q, path); }
      MergeAbsorbs(Merge(plan, q), q);
    }
  }

  predicate DistinctNames(names: seq<string>) {
    forall i, j :: 0 <= i < j < |names| ==> names[i] != names[j]
  }

  lemma {:induction false} FieldPlansAt(names: seq<string>, plans: seq<Plan>)
    requires |names| == |plans| && DistinctNames(names)
    ensures forall k :: k in FieldPlans(names, plans) ==>
      exists j :: 0 <= j < |names| && names[j] == k && FieldPlans(names, plans)[k] == plans[j] && Sensitive(plans[j])
    ensures forall j :: 0 <= j < |names| && Sensitive(plans[j]) ==>
      names[j] in FieldPlans(names, plans) && FieldPlans(names, plans)[names[j]] == plans[j]
  {
    if names != [] {
      var n := |names| - 1;
      FieldPlansAt(names[..n], plans[..n]);
    }
  }

  lemma {:induction false} FieldsHide(names: seq<string>, plans: seq<Plan>, path: Path)
    requires |names| == |plans| && DistinctNames(names)
    ensures Hides(Open(FieldPlans(names, plans), [], None), path) <==>
            exists j :: 0 <= j < |plans| && Lifts(Fields(names), j, plans[j], path)
  {
    FieldPlansAt(names, plans);
    var p := Open(FieldPlans(names, plans), [], None);
    if path != [] {
      PublicHidesNothing(path[1..]);
      if j :| 0 <= j < |plans| && Lifts(Fields(names), j, plans[j], path) {
        assert Sensitive(plans[j]);
        assert Hides(p, path);
      }
      if Hides(p, path) && path[0].Key? {
        var j :| 0 <= j < |names| && names[j] == path[0].name && p.props[path[0].name] == plans[j];
        assert Lifts(Fields(names), j, plans[j], path);
      }
    }
  }

  lemma {:induction false} ArrayHides(n: nat, plans: seq<Plan>, path: Path)
    requires n <= |plans| <= n + 1
    ensures Hides(ArrayPlan(n, plans), path) <==> exists j :: 0 <= j < |plans| && Lifts(Positions(n), j, plans[j], path)
  {
    var p := ArrayPlan(n, plans);
    if path != [] {
      PublicHidesNothing(path[1..]);
      if Hides(p, path) && path[0].Index? {
        var j := if path[0].i < n then path[0].i else n;
        assert Lifts(Positions(n), j, plans[j], path);
      }
    }
  }

  predicate Named(role: Role) { role.Fields? ==> DistinctNames(role.names) }

  /** Combining hides what was hidden before and what the section's subschemas hide, and nothing else. */
  lemma {:induction false} CombineHides(plan: Plan, role: Role, plans: seq<Plan>, union: bool, path: Path)
    requires Fits(role, |plans|) && Named(role) && Combine(plan, role, plans, union).Some?
    ensures Hides(Combine(plan, role, plans, union).value, path) <==>
            Hides(plan, path) || exists j :: 0 <= j < |plans| && Lifts(role, j, plans[j], path)
  {
    match role {
      case Skip =>
      case All => MergeAllHides(plan, plans, path); LiftsDirect(role, plans, path);
      case Either =>
        LiftsDirect(role, plans, path);
        if union { MergeAllHides(plan, plans, path); } else { MergeHides(plan, plans[0], path); }
      case Fields(names) =>
        MergeHides(plan, Open(FieldPlans(names, plans), [], None), path);
        FieldsHide(names, plans, path);
      case Positions(n) =>
        MergeHides(plan, ArrayPlan(n, plans), path);
        ArrayHides(n, plans, path);
      case Closed =>
    }
  }

  lemma {:induction false} LiftsDirect(role: Role, plans: seq<Plan>, path: Path)
    requires role.All? || role.Either?
    ensures forall j :: 0 <= j < |plans| ==> (Lifts(role, j, plans[j], path) <==> Hides(plans[j], path))
  {
  }

  lemma {:induction false} CombineNormal(plan: Plan, role: Role, plans: seq<Plan>, union: bool)
    requires Fits(role, |plans|) && Named(role) && Normal(plan) && AllNormal(plans)
    requires Combine(plan, role, plans, union).Some?
    ensures Normal(Combine(plan, role, plans, union).value)
  {
    match role {
      case Skip =>
      case All => MergeAllNormal(plan, plans);
      case Either => if union { MergeAllNormal(plan, plans); } else { MergeNormal(plan, plans[0]); }
      case Fields(names) =>
        FieldPlansAt(names, plans);
        MergeNormal(plan, Open(FieldPlans(names, plans), [], None));
      case Positions(n) => MergeNormal(plan, ArrayPlan(n, plans));
      case Closed =>
    }
  }

  /** What strict compilation accepts, uniting alternatives accepts with the same plan. */
  lemma {:induction false} CombineUnion(plan: Plan, role: Role, plans: seq<Plan>)
    requires Fits(role, |plans|) && Normal(plan) && AllNormal(plans) && Combine(plan, role, plans, false).Some?
    ensures Combine(plan, role, plans, true) == Combine(plan, role, plans, false)
  {
    if role.Either? { MergeAllSame(plan, plans); }
  }

  /* ---- The sections of a schema are what the schema says --------------------------------- */

  ghost predicate AllNamed(sections: seq<Section>) {
    forall i :: 0 <= i < |sections| ==> Named(sections[i].role)
  }

  lemma {:induction false} SectionsNamed(c: Context, v: Value)
    requires Plain(c.heap) && IsObject(c.heap, v) && Sections(c, v).Some?
    ensures AllNamed(Sections(c, v).value)
  {
  }

  /** Each subschema in a section applies in place, or one step down where its role says. */
  lemma {:induction false} SectionMeans(c: Context, v: Value, i: nat, j: nat, q: Plan, path: Path)
    requires Plain(c.heap) && IsObject(c.heap, v) && Sections(c, v).Some? && i < 7
    requires var s := Sections(c, v).value[i]; j < |s.values| && Lifts(s.role, j, q, path)
    ensures var w := Sections(c, v).value[i].values[j];
      || (InPlace(c, v, w) && Hides(q, path))
      || (path != [] && Descends(c.heap, v, path[0], w) && Hides(q, path[1..]))
  {
    if i == 1 {
      FindAt(Entries(c.heap, Get(c.heap, v, "properties")), j);
    }
  }

  lemma {:induction false} InPlaceSection(c: Context, v: Value, w: Value) returns (i: nat, j: nat)
    requires IsObject(c.heap, v) && Sections(c, v).Some? && InPlace(c, v, w)
    ensures i < 7 && j < |Sections(c, v).value[i].values| && Sections(c, v).value[i].values[j] == w
    ensures Sections(c, v).value[i].role.All? || Sections(c, v).value[i].role.Either?
  {
    if Get(c.heap, v, "$ref") != Undefined && Reference(c, Get(c.heap, v, "$ref")) == Some(w) {
      i, j := 0, 0;
    } else {
      i := if Alternative(c.heap, v, "allOf", w) then 3 else if Alternative(c.heap, v, "oneOf", w) then 4 else 5;
      var values := Sections(c, v).value[i].values;
      assert w in values;
      j :| 0 <= j < |values| && values[j] == w;
    }
  }

  lemma {:induction false} DescendsSection(c: Context, v: Value, s: Step, w: Value) returns (i: nat, j: nat)
    requires Plain(c.heap) && IsObject(c.heap, v) && Sections(c, v).Some? && Descends(c.heap, v, s, w)
    ensures i < 7 && j < |Sections(c, v).value[i].values| && Sections(c, v).value[i].values[j] == w
    ensures forall q, path :: path != [] && path[0] == s && Hides(q, path[1..]) ==>
                                Lifts(Sections(c, v).value[i].role, j, q, path)
  {
    if s.Key? {
      var entries := Entries(c.heap, Get(c.heap, v, "properties"));
      i, j := 1, 0;
      j :| 0 <= j < |entries| && entries[j].name == s.name;
      FindAt(entries, j);
    } else {
      i := 2;
      var n := Sections(c, v).value[2].role.n;
      j := if s.i < n then s.i else n;
    }
  }

  lemma {:induction false} ClosedValuesHold(h: Heap, v: Value, keywords: seq<string>, i: nat)
    requires IsObject(h, v) && i < |keywords| && Get(h, v, keywords[i]) != Undefined
    ensures Get(h, v, keywords[i]) in ClosedValues(h, v, keywords)
  {
    if i > 0 { ClosedValuesHold(h, v, keywords[1..], i - 1); }
  }

  lemma {:induction false} SchemasHold(h: Heap, entries: seq<Entry>, lists: bool, i: nat)
    requires i < |entries| && !(lists && IsArray(h, entries[i].value))
    ensures entries[i].value in SchemasOf(h, entries, lists)
  {
    if i > 0 { SchemasHold(h, entries[1..], lists, i - 1); }
  }

  lemma {:induction false} MapValuesHold(h: Heap, v: Value, keywords: seq<string>, i: nat, w: Value)
    requires IsObject(h, v) && i < |keywords| && MapValues(h, v, keywords).Some?
    requires UnmatchedIn(h, Get(h, v, keywords[i]), keywords[i] == "dependencies", w)
    ensures w in MapValues(h, v, keywords).value
  {
    if i > 0 {
      MapValuesHold(h, v, keywords[1..], i - 1, w);
    } else {
      var entries := Entries(h, Get(h, v, keywords[0]));
      var k :| 0 <= k < |entries| && entries[k].value == w;
      SchemasHold(h, entries, keywords[0] == "dependencies", k);
    }
  }

  lemma {:induction false} UnmatchedSection(c: Context, v: Value, w: Value) returns (j: nat)
    requires IsObject(c.heap, v) && Sections(c, v).Some? && Unmatched(c.heap, v, w)
    ensures j < |Sections(c, v).value[6].values| && Sections(c, v).value[6].values[j] == w
    ensures Sections(c, v).value[6].role == Closed
  {
    var values := Sections(c, v).value[6].values;
    if i :| 0 <= i < |ClosedMaps| && UnmatchedIn(c.heap, Get(c.heap, v, ClosedMaps[i]), ClosedMaps[i] == "dependencies", w) {
      MapValuesHold(c.heap, v, ClosedMaps, i, w);
    } else {
      var i :| 0 <= i < |ClosedKeywords| && Get(c.heap, v, ClosedKeywords[i]) == w;
      ClosedValuesHold(c.heap, v, ClosedKeywords, i);
    }
    assert w in values;
    j :| 0 <= j < |values| && values[j] == w;
  }

  /* ---- Walking --------------------------------------------------------------------------- */

  /** Every plan the walk returns is normal, and no walk goes over the schema budget. */
  lemma {:induction false} WalkNormal(c: Context, v: Value, depth: nat, visited: nat, active: set<nat>)
    requires Plain(c.heap) && Walk(c, v, depth, visited, active).Built?
    ensures Normal(Walk(c, v, depth, visited, active).result)
    ensures visited < Walk(c, v, depth, visited, active).visited <= MaxSchemas
    decreases Remaining(depth), 0, 0
  {
    if Early(c, v, active).None? {
      SectionsNamed(c, v);
      SectionsNormal(c, Public, Sections(c, v).value, depth, visited + 1, active + {v.ref});
    }
  }

  lemma {:induction false} SectionsNormal(
    c: Context, plan: Plan, sections: seq<Section>, depth: nat, visited: nat, active: set<nat>)
    requires Plain(c.heap) && depth <= MaxDepth && Wellformed(sections) && AllNamed(sections) && Normal(plan)
    requires visited <= MaxSchemas && WalkSections(c, plan, sections, depth, visited, active).Built?
    ensures Normal(WalkSections(c, plan, sections, depth, visited, active).result)
    ensures visited <= WalkSections(c, plan, sections, depth, visited, active).visited <= MaxSchemas
    decreases Remaining(depth + 1), 2, |sections|
  {
    if sections != [] {
      var s := sections[0];
      AllWalksNormal(c, s.values, depth + 1, visited, active);
      var walked := WalkAll(c, s.values, depth + 1, visited, active);
      CombineNormal(plan, s.role, walked.result, c.union);
      var next := Combine(plan, s.role, walked.result, c.union).value;
      SectionsNormal(c, next, sections[1..], depth, walked.visited, active);
    }
  }

  lemma {:induction false} AllWalksNormal(c: Context, values: seq<Value>, depth: nat, visited: nat, active: set<nat>)
    requires Plain(c.heap) && visited <= MaxSchemas && WalkAll(c, values, depth, visited, active).Built?
    ensures AllNormal(WalkAll(c, values, depth, visited, active).result)
    ensures visited <= WalkAll(c, values, depth, visited, active).visited <= MaxSchemas
    decreases Remaining(depth), 1, |values|
  {
    if values != [] {
      WalkNormal(c, values[0], depth, visited, active);
      AllWalksNormal(c, values[1..], depth, Walk(c, values[0], depth, visited, active).visited, active);
    }
  }

  lemma {:induction false} WalkAllAt(c: Context, values: seq<Value>, depth: nat, visited: nat, active: set<nat>, j: nat)
    returns (seen: nat)
    requires WalkAll(c, values, depth, visited, active).Built? && j < |values|
    ensures var r := Walk(c, values[j], depth, seen, active);
      r.Built? && r.result == WalkAll(c, values, depth, visited, active).result[j]
    decreases j
  {
    if j == 0 {
      seen := visited;
    } else {
      seen := WalkAllAt(c, values[1..], depth, Walk(c, values[0], depth, visited, active).visited, active, j - 1);
    }
  }

  lemma {:induction false} KeepsHidden(
    c: Context, plan: Plan, sections: seq<Section>, depth: nat, visited: nat, active: set<nat>, path: Path)
    requires depth <= MaxDepth && Wellformed(sections) && AllNamed(sections) && Hides(plan, path)
    requires WalkSections(c, plan, sections, depth, visited, active).Built?
    ensures Hides(WalkSections(c, plan, sections, depth, visited, active).result, path)
    decreases |sections|
  {
    if sections != [] {
      var walked := WalkAll(c, sections[0].values, depth + 1, visited, active);
      var next := Combine(plan, sections[0].role, walked.result, c.union).value;
      CombineHides(plan, sections[0].role, walked.result, c.union, path);
      KeepsHidden(c, next, sections[1..], depth, walked.visited, active, path);
    }
  }

  /** What a subschema of a section hides ends up in the schema's plan; closed sections hide nothing. */
  lemma {:induction false} SectionHides(
    c: Context, plan: Plan, sections: seq<Section>, depth: nat, visited: nat, active: set<nat>, i: nat, j: nat)
    returns (seen: nat)
    requires depth <= MaxDepth && Wellformed(sections) && AllNamed(sections)
    requires i < |sections| && j < |sections[i].values| && WalkSections(c, plan, sections, depth, visited, active).Built?
    ensures var r := Walk(c, sections[i].values[j], depth + 1, seen, active);
      && r.Built? && (sections[i].role.Closed? ==> !Sensitive(r.result))
      && forall path :: Lifts(sections[i].role, j, r.result, path) ==>
                          Hides(WalkSections(c, plan, sections, depth, visited, active).result, path)
    decreases |sections|
  {
    var walked := WalkAll(c, sections[0].values, depth + 1, visited, active);
    var next := Combine(plan, sections[0].role, walked.result, c.union).value;
    if i > 0 {
      seen := SectionHides(c, next, sections[1..], depth, walked.visited, active, i - 1, j);
    } else {
      seen := WalkAllAt(c, sections[0].values, depth + 1, visited, active, j);
      forall path | Lifts(sections[0].role, j, walked.result[j], path)
        ensures Hides(WalkSections(c, plan, sections, depth, visited, active).result, path)
      {
        CombineHides(plan, sections[0].role, walked.result, c.union, path);
        KeepsHidden(c, next, sections[1..], depth, walked.visited, active, path);
      }
    }
  }

  /** Whatever the sections add to a plan comes from one of their subschemas. */
  lemma {:induction false} SectionSource(
    c: Context, plan: Plan, sections: seq<Section>, depth: nat, visited: nat, active: set<nat>, path: Path)
    returns (i: nat, j: nat, seen: nat)
    requires depth <= MaxDepth && Wellformed(sections) && AllNamed(sections) && !Hides(plan, path)
    requires WalkSections(c, plan, sections, depth, visited, active).Built?
    requires Hides(WalkSections(c, plan, sections, depth, visited, active).result, path)
    ensures i < |sections| && j < |sections[i].values|
    ensures var r := Walk(c, sections[i].values[j], depth + 1, seen, active);
      r.Built? && Lifts(sections[i].role, j, r.result, path)
    decreases |sections|
  {
    var walked := WalkAll(c, sections[0].values, depth + 1, visited, active);
    var next := Combine(plan, sections[0].role, walked.result, c.union).value;
    CombineHides(plan, sections[0].role, walked.result, c.union, path);
    if Hides(next, path) {
      i := 0;
      j :| 0 <= j < |walked.result| && Lifts(sections[0].role, j, walked.result[j], path);
      seen := WalkAllAt(c, sections[0].values, depth + 1, visited, active, j);
    } else {
      i, j, seen := SectionSource(c, next, sections[1..], depth, walked.visited, active, path);
      i := i + 1;
    }
  }

  /* ---- Soundness and exactness ----------------------------------------------------------- */

  /** The subschemas of a walked schema are walked too, and hide no more than the schema. */
  lemma {:induction false} SubWalk(c: Context, v: Value, depth: nat, visited: nat, active: set<nat>, i: nat, j: nat) returns (seen: nat)
    requires Plain(c.heap) && IsObject(c.heap, v) && !WriteOnly(c.heap, v) && Walk(c, v, depth, visited, active).Built?
    requires i < 7 && Sections(c, v).Some? && j < |Sections(c, v).value[i].values|
    ensures depth < MaxDepth + 1
    ensures var s := Sections(c, v).value[i];
      var r := Walk(c, s.values[j], depth + 1, seen, active + {v.ref});
      && r.Built? && (s.role.Closed? ==> !Sensitive(r.result))
      && forall path :: Lifts(s.role, j, r.result, path) ==> Hides(Walk(c, v, depth, visited, active).result, path)
  {
    SectionsNamed(c, v);
    seen := SectionHides(c, Public, Sections(c, v).value, depth, visited + 1, active + {v.ref}, i, j);
  }

  lemma {:induction false} WalkHasSections(c: Context, v: Value, depth: nat, visited: nat, active: set<nat>)
    requires IsObject(c.heap, v) && !WriteOnly(c.heap, v) && Walk(c, v, depth, visited, active).Built?
    ensures Sections(c, v).Some?
  {
  }

  lemma {:induction false} InPlaceHides(c: Context, v: Value, depth: nat, visited: nat, active: set<nat>, w: Value, path: Path)
    returns (seen: nat)
    requires Plain(c.heap) && IsObject(c.heap, v) && !WriteOnly(c.heap, v) && Walk(c, v, depth, visited, active).Built?
    requires InPlace(c, v, w)
    ensures Walk(c, w, depth + 1, seen, active + {v.ref}).Built?
    ensures Hides(Walk(c, w, depth + 1, seen, active + {v.ref}).result, path) ==>
            Hides(Walk(c, v, depth, visited, active).result, path)
  {
    WalkHasSections(c, v, depth, visited, active);
    var i, j := InPlaceSection(c, v, w);
    seen := SubWalk(c, v, depth, visited, active, i, j);
  }

  lemma {:induction false} DescentHides(c: Context, v: Value, depth: nat, visited: nat, active: set<nat>, w: Value, path: Path)
    returns (seen: nat)
    requires Plain(c.heap) && IsObject(c.heap, v) && !WriteOnly(c.heap, v) && Walk(c, v, depth, visited, active).Built?
    requires path != [] && Descends(c.heap, v, path[0], w)
    ensures Walk(c, w, depth + 1, seen, active + {v.ref}).Built?
    ensures Hides(Walk(c, w, depth + 1, seen, active + {v.ref}).result, path[1..]) ==>
            Hides(Walk(c, v, depth, visited, active).result, path)
  {
    WalkHasSections(c, v, depth, visited, active);
    var i, j := DescendsSection(c, v, path[0], w);
    seen := SubWalk(c, v, depth, visited, active, i, j);
  }

  /** A public subschema marks nothing, so an applicator that must be public cannot mark anything either. */
  lemma {:induction false} Sound(c: Context, v: Value, depth: nat, visited: nat, active: set<nat>, path: Path, n: nat)
    requires Plain(c.heap) && Walk(c, v, depth, visited, active).Built? && Marks(c, true, v, path, n)
    ensures Hides(Walk(c, v, depth, visited, active).result, path)
    decreases n
  {
    if WriteOnly(c.heap, v) {
      WalkOmits(c, v, depth, visited, active);
    } else {
      var w, rest := MarksThrough(c, v, path, n);
      if Unmatched(c.heap, v, w) {
        NothingUnmatched(c, v, depth, visited, active, w, rest, n);
      } else if InPlace(c, v, w) && rest == path {
        var seen := InPlaceHides(c, v, depth, visited, active, w, path);
        Sound(c, w, depth + 1, seen, active + {v.ref}, path, n - 1);
      } else {
        var seen := DescentHides(c, v, depth, visited, active, w, path);
        Sound(c, w, depth + 1, seen, active + {v.ref}, rest, n - 1);
      }
    }
  }

  lemma {:induction false} WalkOmits(c: Context, v: Value, depth: nat, visited: nat, active: set<nat>)
    requires IsObject(c.heap, v) && WriteOnly(c.heap, v) && Walk(c, v, depth, visited, active).Built?
    ensures Walk(c, v, depth, visited, active).result == Omit
  {
  }

  /** The subschema through which a schema that is not itself `writeOnly` marks a location. */
  lemma {:induction false} MarksThrough(c: Context, v: Value, path: Path, n: nat) returns (w: Value, rest: Path)
    requires Marks(c, true, v, path, n) && IsObject(c.heap, v) && !WriteOnly(c.heap, v)
    ensures n > 0 && Marks(c, true, w, rest, n - 1)
    ensures || ((InPlace(c, v, w) || Unmatched(c.heap, v, w)) && rest == path)
            || (path != [] && (Descends(c.heap, v, path[0], w) || Unmatched(c.heap, v, w)) && rest == path[1..])
  {
    if w' :| InPlace(c, v, w') && Marks(c, true, w', path, n - 1) {
      w, rest := w', path;
    } else if w' :| Unmatched(c.heap, v, w') && Marks(c, true, w', path, n - 1) {
      w, rest := w', path;
    } else {
      rest := path[1..];
      w :| (Descends(c.heap, v, path[0], w) || Unmatched(c.heap, v, w)) && Marks(c, true, w, rest, n - 1);
    }
  }

  lemma {:induction false} NothingUnmatched(
    c: Context, v: Value, depth: nat, visited: nat, active: set<nat>, w: Value, path: Path, n: nat)
    requires Plain(c.heap) && IsObject(c.heap, v) && !WriteOnly(c.heap, v) && Walk(c, v, depth, visited, active).Built?
    requires n > 0 && Unmatched(c.heap, v, w)
    ensures !Marks(c, true, w, path, n - 1)
    decreases n, 0
  {
    if Marks(c, true, w, path, n - 1) {
      WalkHasSections(c, v, depth, visited, active);
      var j := UnmatchedSection(c, v, w);
      var seen := SubWalk(c, v, depth, visited, active, 6, j);
      Sound(c, w, depth + 1, seen, active + {v.ref}, path, n - 1);
      PublicHidesNothing(path);
    }
  }

  /** A plan hides nothing the schema does not mark. */
  lemma {:induction false} Exact(c: Context, v: Value, depth: nat, visited: nat, active: set<nat>, path: Path)
    requires Plain(c.heap) && Walk(c, v, depth, visited, active).Built?
    requires Hides(Walk(c, v, depth, visited, active).result, path)
    ensures Marks(c, false, v, path, Remaining(depth))
    decreases Remaining(depth)
  {
    PublicHidesNothing(path);
    if Early(c, v, active).None? {
      SectionsNamed(c, v);
      var sections := Sections(c, v).value;
      var i, j, seen := SectionSource(c, Public, sections, depth, visited + 1, active + {v.ref}, path);
      var w := sections[i].values[j];
      var q := Walk(c, w, depth + 1, seen, active + {v.ref}).result;
      SectionMeans(c, v, i, j, q, path);
      assert Remaining(depth + 1) == Remaining(depth) - 1;
      if InPlace(c, v, w) && Hides(q, path) {
        Exact(c, w, depth + 1, seen, active + {v.ref}, path);
        MarksInPlace(c, v, w, path, Remaining(depth));
      } else {
        Exact(c, w, depth + 1, seen, active + {v.ref}, path[1..]);
        MarksBelow(c, v, w, path, Remaining(depth));
      }
    }
  }

  lemma {:induction false} MarksInPlace(c: Context, v: Value, w: Value, path: Path, n: nat)
    requires n > 0 && IsObject(c.heap, v) && InPlace(c, v, w) && Marks(c, false, w, path, n - 1)
    ensures Marks(c, false, v, path, n)
  {
  }

  lemma {:induction false} MarksBelow(c: Context, v: Value, w: Value, path: Path, n: nat)
    requires n > 0 && IsObject(c.heap, v) && path != [] && Descends(c.heap, v, path[0], w) && Marks(c, false, w, path[1..], n - 1)
    ensures Marks(c, false, v, path, n)
  {
  }

  lemma {:induction false} MarksOpen(c: Context, v: Value, path: Path, n: nat)
    requires Marks(c, false, v, path, n)
    ensures Marks(c, true, v, path, n)
    decreases n
  {
    if !WriteOnly(c.heap, v) {
      if w :| InPlace(c, v, w) && Marks(c, false, w, path, n - 1) {
        MarksOpen(c, w, path, n - 1);
      } else {
        var w :| Descends(c.heap, v, path[0], w) && Marks(c, false, w, path[1..], n - 1);
        MarksOpen(c, w, path[1..], n - 1);
      }
    }
  }

  /** Some location of the schema marks `path`, however long the chain of subschemas that leads there. */
  ghost predicate Private(c: Context, open: bool, path: Path) {
    exists n: nat :: Marks(c, open, c.root, path, n)
  }

  /**
   * A compiled plan is normal and hides exactly the private locations of its schema. Nothing is private
   * only through an applicator whose matching is not implemented: such schemas do not compile.
   */
  lemma {:induction false} CompiledExactly(c: Context, path: Path)
    requires Plain(c.heap) && Compile(c).Some?
    ensures Normal(Compile(c).value)
    ensures Hides(Compile(c).value, path) <==> Private(c, false, path)
    ensures Private(c, false, path) <==> Private(c, true, path)
  {
    WalkNormal(c, c.root, 0, 0, {});
    if Private(c, false, path) {
      var n: nat :| Marks(c, false, c.root, path, n);
      MarksOpen(c, c.root, path, n);
    }
    if Private(c, true, path) {
      var n: nat :| Marks(c, true, c.root, path, n);
      Sound(c, c.root, 0, 0, {}, path, n);
    }
    if Hides(Compile(c).value, path) { Exact(c, c.root, 0, 0, {}, path); }
  }

  /* ---- The two modes --------------------------------------------------------------------- */

  lemma {:induction false} WalkUnion(c: Context, v: Value, depth: nat, visited: nat, active: set<nat>)
    requires Plain(c.heap) && !c.union && Walk(c, v, depth, visited, active).Built?
    ensures Walk(c.(union := true), v, depth, visited, active) == Walk(c, v, depth, visited, active)
    decreases Remaining(depth), 0, 0
  {
    var u := c.(union := true);
    SameReading(c, v, active);
    if Early(c, v, active).None? {
      SectionsNamed(c, v);
      SectionsUnion(c, Public, Sections(c, v).value, depth, visited + 1, active + {v.ref});
    }
  }

  lemma {:induction false} SameStops(c: Context, v: Value, active: set<nat>)
    ensures Early(c.(union := true), v, active) == Early(c, v, active)
  {
  }

  lemma {:induction false} SameSections(c: Context, v: Value)
    requires IsObject(c.heap, v)
    ensures Sections(c.(union := true), v) == Sections(c, v)
  {
  }

  lemma {:induction false} SameReading(c: Context, v: Value, active: set<nat>)
    ensures Early(c.(union := true), v, active) == Early(c, v, active)
    ensures IsObject(c.heap, v) ==> Sections(c.(union := true), v) == Sections(c, v)
  {
    SameStops(c, v, active);
    if IsObject(c.heap, v) { SameSections(c, v); }
  }

  lemma {:induction false} SectionsUnion(
    c: Context, plan: Plan, sections: seq<Section>, depth: nat, visited: nat, active: set<nat>)
    requires Plain(c.heap) && !c.union && depth <= MaxDepth && Wellformed(sections) && AllNamed(sections) && Normal(plan)
    requires visited <= MaxSchemas && WalkSections(c, plan, sections, depth, visited, active).Built?
    ensures WalkSections(c.(union := true), plan, sections, depth, visited, active)
            == WalkSections(c, plan, sections, depth, visited, active)
    decreases Remaining(depth + 1), 2, |sections|
  {
    if sections != [] {
      var s := sections[0];
      AllWalksUnion(c, s.values, depth + 1, visited, active);
      AllWalksNormal(c, s.values, depth + 1, visited, active);
      var walked := WalkAll(c, s.values, depth + 1, visited, active);
      CombineUnion(plan, s.role, walked.result);
      CombineNormal(plan, s.role, walked.result, false);
      var next := Combine(plan, s.role, walked.result, false).value;
      SectionsUnion(c, next, sections[1..], depth, walked.visited, active);
    }
  }

  lemma {:induction false} AllWalksUnion(c: Context, values: seq<Value>, depth: nat, visited: nat, active: set<nat>)
    requires Plain(c.heap) && !c.union && visited <= MaxSchemas && WalkAll(c, values, depth, visited, active).Built?
    ensures WalkAll(c.(union := true), values, depth, visited, active) == WalkAll(c, values, depth, visited, active)
    decreases Remaining(depth), 1, |values|
  {
    if values != [] {
      WalkUnion(c, values[0], depth, visited, active);
      WalkNormal(c, values[0], depth, visited, active);
      AllWalksUnion(c, values[1..], depth, Walk(c, values[0], depth, visited, active).visited, active);
    }
  }

  /** Whenever strict compilation succeeds, uniting the alternatives yields the same plan. */
  lemma {:induction false} StrictIsUnion(c: Context)
    requires Plain(c.heap) && Compile(c.(union := false)).Some?
    ensures Compile(c.(union := true)) == Compile(c.(union := false))
  {
    var strict := c.(union := false);
    WalkUnion(strict, strict.root, 0, 0, {});
    assert strict.(union := true) == c.(union := true);
  }

  /* ---- Depth ----------------------------------------------------------------------------- */

  /** The plan distinguishes locations at most `n` steps down. */
  predicate Within(p: Plan, n: nat)
    decreases n, p
  {
    p.Open? && Sensitive(p) ==>
      && n > 0
      && (forall k :: k in p.props ==> Within(p.props[k], n - 1))
      && (forall i :: 0 <= i < |p.prefix| ==> Within(p.prefix[i], n - 1))
      && (p.items.Some? ==> Within(p.items.value, n - 1))
  }

  lemma {:induction false} WithinMore(p: Plan, m: nat, n: nat)
    requires Within(p, m) && m <= n
    ensures Within(p, n)
    decreases m
  {
    if p.Open? && Sensitive(p) {
      forall k | k in p.props ensures Within(p.props[k], n - 1) { WithinMore(p.props[k], m - 1, n - 1); }
      forall i | 0 <= i < |p.prefix| ensures Within(p.prefix[i], n - 1) { WithinMore(p.prefix[i], m - 1, n - 1); }
      if p.items.Some? { WithinMore(p.items.value, m - 1, n - 1); }
    }
  }

  lemma {:induction false} WithinUnder(p: Plan, s: Step, n: nat)
    requires p.Open? && n > 0 && Within(p, n)
    ensures Within(Under(p, s), n - 1)
  {
  }

  lemma {:induction false} RebuiltWithin(p: Plan, n: nat)
    requires Within(p, n)
    ensures Within(Rebuilt(p), n)
    decreases n
  {
    if p.Open? && Sensitive(p) {
      var q := Rebuilt(p);
      forall k | k in q.props ensures Within(q.props[k], n - 1) { RebuiltWithin(p.props[k], n - 1); }
    }
  }

  lemma {:induction false} MergeWithin(l: Plan, r: Plan, n: nat)
    requires Within(l, n) && Within(r, n)
    ensures Within(Merge(l, r), n)
    decreases n, 1
  {
    if l.Omit? || r.Omit? {
    } else if !Sensitive(r) {
      MergePublic(l);
      RebuiltWithin(l, n);
    } else if !Sensitive(l) {
      MergePublic(r);
      RebuiltWithin(r, n);
    } else {
      var m := Merge(l, r);
      forall k | k in m.props ensures Within(m.props[k], n - 1) { MergeWithinUnder(l, r, Key(k), n); }
      forall i | 0 <= i < |m.prefix| ensures Within(m.prefix[i], n - 1) { MergeWithinUnder(l, r, Index(i), n); }
      if m.items.Some? { MergeWithinUnder(l, r, Index(Max(|l.prefix|, |r.prefix|)), n); }
    }
  }

  lemma {:induction false} MergeWithinUnder(l: Plan, r: Plan, s: Step, n: nat)
    requires l.Open? && r.Open? && n > 0 && Within(l, n) && Within(r, n)
    ensures Within(Under(Merge(l, r), s), n - 1)
    decreases n, 0
  {
    WithinUnder(l, s, n);
    WithinUnder(r, s, n);
    match s {
      case Key(k) =>
        MergedField(l, r, k);
        if k in l.props { RebuiltWithin(l.props[k], n - 1); }
        if k in r.props { RebuiltWithin(r.props[k], n - 1); }
        if k in l.props && k in r.props { MergeWithin(l.props[k], r.props[k], n - 1); }
      case Index(i) =>
        MergedItem(l, r, i);
        MergeWithin(Item(l, i), Item(r, i), n - 1);
    }
  }

  predicate AllWithin(plans: seq<Plan>, n: nat) {
    forall j :: 0 <= j < |plans| ==> Within(plans[j], n)
  }

  lemma {:induction false} MergeAllWithin(plan: Plan, plans: seq<Plan>, n: nat)
    requires Within(plan, n) && AllWithin(plans, n)
    ensures Within(MergeAll(plan, plans), n)
    decreases plans
  {
    if plans != [] {
      MergeWithin(plan, plans[0], n);
      MergeAllWithin(Merge(plan, plans[0]), plans[1..], n);
    }
  }

  lemma {:induction false} CombineWithin(plan: Plan, role: Role, plans: seq<Plan>, union: bool, n: nat)
    requires Fits(role, |plans|) && Named(role) && Within(plan, n) && (plans != [] ==> n > 0 && AllWithin(plans, n - 1))
    requires Combine(plan, role, plans, union).Some?
    ensures Within(Combine(plan, role, plans, union).value, n)
  {
    forall j | 0 <= j < |plans| ensures Within(plans[j], n) { WithinMore(plans[j], n - 1, n); }
    match role {
      case Skip =>
      case All => MergeAllWithin(plan, plans, n);
      case Either => if union { MergeAllWithin(plan, plans, n); } else { MergeWithin(plan, plans[0], n); }
      case Fields(names) =>
        FieldPlansAt(names, plans);
        MergeWithin(plan, Open(FieldPlans(names, plans), [], None), n);
      case Positions(m) => MergeWithin(plan, ArrayPlan(m, plans), n);
      case Closed =>
    }
  }

  /** A plan compiled `depth` levels down reaches no further than the levels that are left. */
  lemma {:induction false} WalkWithin(c: Context, v: Value, depth: nat, visited: nat, active: set<nat>)
    requires Plain(c.heap) && Walk(c, v, depth, visited, active).Built?
    ensures Within(Walk(c, v, depth, visited, active).result, MaxDepth - depth)
    decreases Remaining(depth), 0, 0
  {
    if Early(c, v, active).None? {
      SectionsNamed(c, v);
      SectionsWithin(c, Public, Sections(c, v).value, depth, visited + 1, active + {v.ref});
    }
  }

  lemma {:induction false} SectionsWithin(
    c: Context, plan: Plan, sections: seq<Section>, depth: nat, visited: nat, active: set<nat>)
    requires Plain(c.heap) && depth <= MaxDepth && Wellformed(sections) && AllNamed(sections)
    requires Within(plan, MaxDepth - depth) && WalkSections(c, plan, sections, depth, visited, active).Built?
    ensures Within(WalkSections(c, plan, sections, depth, visited, active).result, MaxDepth - depth)
    decreases Remaining(depth + 1), 2, |sections|
  {
    if sections != [] {
      var s := sections[0];
      AllWalksWithin(c, s.values, depth + 1, visited, active);
      var walked := WalkAll(c, s.values, depth + 1, visited, active);
      CombineWithin(plan, s.role, walked.result, c.union, MaxDepth - depth);
      var next := Combine(plan, s.role, walked.result, c.union).value;
      SectionsWithin(c, next, sections[1..], depth, walked.visited, active);
    }
  }

  lemma {:induction false} AllWalksWithin(c: Context, values: seq<Value>, depth: nat, visited: nat, active: set<nat>)
    requires Plain(c.heap) && WalkAll(c, values, depth, visited, active).Built?
    ensures values != [] ==> depth <= MaxDepth && AllWithin(WalkAll(c, values, depth, visited, active).result, MaxDepth - depth)
    decreases Remaining(depth), 1, |values|
  {
    if values != [] {
      WalkWithin(c, values[0], depth, visited, active);
      AllWalksWithin(c, values[1..], depth, Walk(c, values[0], depth, visited, active).visited, active);
    }
  }

  /* ---- Cycles ---------------------------------------------------------------------------- */

  /** Some keyword of `v` applies `w`, to the same location or below. */
  ghost predicate Applies(c: Context, v: Value, w: Value)
    requires IsObject(c.heap, v)
  {
    var holds :=
      InPlace(c, v, w) || Unmatched(c.heap, v, w) || exists s :: Descends(c.heap, v, s, w);
    holds
  }

  lemma {:induction false} AppliedSection(c: Context, v: Value, w: Value) returns (i: nat, j: nat)
    requires Plain(c.heap) && IsObject(c.heap, v) && Sections(c, v).Some? && Applies(c, v, w)
    ensures i < 7 && j < |Sections(c, v).value[i].values| && Sections(c, v).value[i].values[j] == w
  {
    if InPlace(c, v, w) {
      i, j := InPlaceSection(c, v, w);
    } else if Unmatched(c.heap, v, w) {
      i := 6;
      j := UnmatchedSection(c, v, w);
    } else {
      var s :| Descends(c.heap, v, s, w);
      i, j := DescendsSection(c, v, s, w);
    }
  }

  lemma {:induction false} AppliedWalk(c: Context, v: Value, depth: nat, visited: nat, active: set<nat>, w: Value) returns (seen: nat)
    requires Plain(c.heap) && IsObject(c.heap, v) && !WriteOnly(c.heap, v) && Walk(c, v, depth, visited, active).Built?
    requires Applies(c, v, w)
    ensures depth <= MaxDepth && Walk(c, w, depth + 1, seen, active + {v.ref}).Built?
  {
    WalkHasSections(c, v, depth, visited, active);
    var i, j := AppliedSection(c, v, w);
    seen := SubWalk(c, v, depth, visited, active, i, j);
  }

  /** Each schema of the chain is an object that is not `writeOnly` and applies the next one. */
  ghost predicate Chain(c: Context, vs: seq<Value>) {
    forall i :: 0 <= i < |vs| - 1 ==> Linked(c, vs[i], vs[i + 1])
  }

  ghost predicate Linked(c: Context, v: Value, w: Value) {
    var linked := IsObject(c.heap, v) && !WriteOnly(c.heap, v) && Applies(c, v, w);
    linked
  }

  /** A schema compiles only if no such chain is longer than the depth limit, so a cyclic one never does. */
  lemma {:induction false} ChainsEnd(c: Context, vs: seq<Value>, depth: nat, visited: nat, active: set<nat>)
    requires Plain(c.heap) && vs != [] && Walk(c, vs[0], depth, visited, active).Built? && Chain(c, vs)
    ensures |vs| - 1 <= Remaining(depth)
    decreases |vs|
  {
    if |vs| > 1 {
      assert Linked(c, vs[0], vs[1]);
      var seen := AppliedWalk(c, vs[0], depth, visited, active, vs[1]);
      ChainsEnd(c, vs[1..], depth + 1, seen, active + {vs[0].ref});
    }
  }
}
