/**
 * Which schemas compile, told from the schema graph alone: keywords have the kinds they
 * need, references resolve, chains of subschemas end within the depth limit, applicators
 * whose matching is not implemented mark nothing, strict alternatives mark the same
 * locations, and no more schemas are met than the limit allows.
 */
module RedactionCompiles {
  import opened Options
  import opened RedactionPlan
  import opened RedactionSchema
  import opened RedactionSoundness
  import opened RedactionPointer

  /* ---- One schema ------------------------------------------------------------------------ */

  predicate Absent(h: Heap, v: Value, k: string)
    requires IsObject(h, v)
  {
    Get(h, v, k) == Undefined
  }

  ghost predicate ReferenceReads(c: Context, v: Value)
    requires IsObject(c.heap, v)
  {
    Absent(c.heap, v, "$ref") || exists w :: Refers(c, Get(c.heap, v, "$ref"), w)
  }

  /** Positional subschemas come under one spelling only. */
  predicate ItemsRead(h: Heap, v: Value)
    requires IsObject(h, v)
  {
    || Absent(h, v, "prefixItems")
    || (!IsArray(h, Get(h, v, "items")) && (Get(h, v, "prefixItems") == Null || IsArray(h, Get(h, v, "prefixItems"))))
  }

  predicate BranchesRead(h: Heap, v: Value, k: string)
    requires IsObject(h, v)
  {
    Absent(h, v, k) || (IsArray(h, Get(h, v, k)) && Elements(h, Get(h, v, k)) != [])
  }

  predicate MapReads(h: Heap, v: Value, k: string)
    requires IsObject(h, v)
  {
    Absent(h, v, k) || IsObject(h, Get(h, v, k))
  }

  ghost predicate KeywordsRead(c: Context, v: Value)
    requires IsObject(c.heap, v)
  {
    var h := c.heap;
    && (v == c.root || Absent(h, v, "$id")) && Absent(h, v, "$dynamicRef") && Absent(h, v, "$recursiveRef")
    && ReferenceReads(c, v) && ItemsRead(h, v)
    && BranchesRead(h, v, "allOf") && BranchesRead(h, v, "oneOf") && BranchesRead(h, v, "anyOf")
    && MapReads(h, v, "properties") && MapReads(h, v, "patternProperties")
    && MapReads(h, v, "dependentSchemas") && MapReads(h, v, "dependencies")
  }

  /** A boolean, an object marked `writeOnly`, or an object whose keywords have the kinds they need. */
  ghost predicate Readable(c: Context, v: Value) {
    v.Bool? || (IsObject(c.heap, v) && (
      || WriteOnly(c.heap, v)
      || ((Absent(c.heap, v, "writeOnly") || Get(c.heap, v, "writeOnly").Bool?) && KeywordsRead(c, v))))
  }

  /** Some chain of subschemas from `v` marks `path`. */
  ghost predicate Marked(c: Context, v: Value, path: Path) {
    exists n: nat :: Marks(c, false, v, path, n)
  }

  ghost predicate Harmless(c: Context, v: Value) {
    forall path :: !Marked(c, v, path)
  }

  ghost predicate ClosedHarmless(c: Context, v: Value)
    requires IsObject(c.heap, v)
  {
    forall w :: Unmatched(c.heap, v, w) ==> Harmless(c, w)
  }

  ghost predicate MarkSame(c: Context, v: Value, w: Value) {
    forall path :: Marked(c, v, path) <==> Marked(c, w, path)
  }

  ghost predicate Agree(c: Context, v: Value, keyword: string)
    requires IsObject(c.heap, v)
  {
    forall a, b :: Alternative(c.heap, v, keyword, a) && Alternative(c.heap, v, keyword, b) ==> MarkSame(c, a, b)
  }

  /** The schema itself stops no compilation. */
  ghost predicate Fine(c: Context, v: Value) {
    && Readable(c, v)
    && (IsObject(c.heap, v) && !WriteOnly(c.heap, v) ==>
          ClosedHarmless(c, v) && (c.union || (Agree(c, v, "oneOf") && Agree(c, v, "anyOf"))))
  }

  /* ---- The schema graph ------------------------------------------------------------------ */

  /** A chain of `n` links leads from `v` to `w`. */
  ghost predicate Leads(link: (Value, Value) -> bool, v: Value, w: Value, n: nat)
    decreases n
  {
    if n == 0 then v == w else exists u :: link(v, u) && Leads(link, u, w, n - 1)
  }

  ghost function Links(c: Context): (Value, Value) -> bool { (v, w) => Linked(c, v, w) }

  /** A chain of `n` applied subschemas leads from `v` to `w`. */
  ghost predicate Reaches(c: Context, v: Value, w: Value, n: nat) { Leads(Links(c), v, w, n) }

  /** Chains of applied subschemas end within the levels, and all schemas on them are fine. */
  ghost predicate Sane(c: Context, v: Value, levels: nat) {
    forall n: nat, w :: Reaches(c, v, w, n) ==> n < levels && Fine(c, w)
  }

  function Defined(v: Value): seq<Value> { if v == Undefined then [] else [v] }

  /** The members of an array or of an object. */
  function Members(h: Heap, v: Value): seq<Value> {
    if IsArray(h, v) then Elements(h, v) else if IsObject(h, v) then Values(Entries(h, v)) else []
  }

  /** What is not an array. */
  function Unlisted(h: Heap, values: seq<Value>): seq<Value> {
    if values == [] then [] else (if IsArray(h, values[0]) then [] else [values[0]]) + Unlisted(h, values[1..])
  }

  function Target(c: Context, ref: Value): seq<Value> {
    if ref == Undefined then []
    else match Reference(c, ref) case None => [] case Some(w) => [w]
  }

  /** Every occurrence of a subschema under a keyword of `v`. */
  function Occurrences(c: Context, v: Value): seq<Value>
    requires IsObject(c.heap, v)
  {
    var h := c.heap;
    Target(c, Get(h, v, "$ref"))
    + (Members(h, Get(h, v, "properties"))
    + ((Members(h, Prefixes(h, v)) + Defined(Tail(h, v)))
    + (Members(h, Get(h, v, "allOf"))
    + (Members(h, Get(h, v, "oneOf"))
    + (Members(h, Get(h, v, "anyOf"))
    + ClosedOccurrences(h, v))))))
  }

  function ClosedOccurrences(h: Heap, v: Value): seq<Value>
    requires IsObject(h, v)
  {
    SingleOccurrences(h, v)
    + (Members(h, Get(h, v, "patternProperties")) + (Members(h, Get(h, v, "dependentSchemas"))
    + Unlisted(h, Members(h, Get(h, v, "dependencies")))))
  }

  function SingleOccurrences(h: Heap, v: Value): seq<Value>
    requires IsObject(h, v)
  {
    Defined(Get(h, v, "additionalProperties"))
    + (Defined(Get(h, v, "unevaluatedProperties"))
    + (Defined(Get(h, v, "unevaluatedItems"))
    + (Defined(Get(h, v, "contains"))
    + (Defined(Get(h, v, "not"))
    + (Defined(Get(h, v, "if"))
    + (Defined(Get(h, v, "then"))
    +  Defined(Get(h, v, "else"))))))))
  }

  /** How many schemas are met from `v` on, itself included, down to so many levels. */
  function Visits(c: Context, v: Value, levels: nat): nat
    decreases levels, 0
  {
    if levels == 0 then 0
    else if !IsObject(c.heap, v) || WriteOnly(c.heap, v) then 1
    else 1 + Total(c, Occurrences(c, v), levels - 1)
  }

  function Total(c: Context, values: seq<Value>, levels: nat): nat
    decreases levels, 1, |values|
  {
    if values == [] then 0 else Visits(c, values[0], levels) + Total(c, values[1..], levels)
  }

  ghost predicate Compilable(c: Context) {
    Sane(c, c.root, MaxDepth + 1) && Visits(c, c.root, MaxDepth + 1) <= MaxSchemas
  }

  /* ---- Sections against keywords --------------------------------------------------------- */

  lemma {:induction false} ReferenceIffTarget(c: Context, v: Value)
    requires IsObject(c.heap, v)
    ensures ReferenceReads(c, v) <==> RefSection(c, v).Some?
  {
    var ref := Get(c.heap, v, "$ref");
    if w :| Refers(c, ref, w) { ReferenceIff(c, ref, w); }
    if ref != Undefined && Reference(c, ref).Some? { ReferenceIff(c, ref, Reference(c, ref).value); }
  }

  lemma {:induction false} MapsFirst(h: Heap, v: Value, k: string, more: seq<string>)
    requires IsObject(h, v)
    ensures MapValues(h, v, [k] + more).Some? <==> MapReads(h, v, k) && MapValues(h, v, more).Some?
  {
    assert ([k] + more)[1..] == more;
  }

  lemma {:induction false} MapsIff(h: Heap, v: Value)
    requires IsObject(h, v)
    ensures MapValues(h, v, ClosedMaps).Some? <==>
            MapReads(h, v, "patternProperties") && MapReads(h, v, "dependentSchemas") && MapReads(h, v, "dependencies")
  {
    assert ClosedMaps == ["patternProperties"] + (["dependentSchemas"] + ["dependencies"]);
    MapsFirst(h, v, "dependencies", []);
    MapsFirst(h, v, "dependentSchemas", ["dependencies"]);
    MapsFirst(h, v, "patternProperties", ["dependentSchemas"] + ["dependencies"]);
  }

  lemma {:induction false} SectionsIff(c: Context, v: Value)
    requires IsObject(c.heap, v)
    ensures Sections(c, v).Some? <==>
      && ReferenceReads(c, v) && ItemsRead(c.heap, v)
      && BranchesRead(c.heap, v, "allOf") && BranchesRead(c.heap, v, "oneOf") && BranchesRead(c.heap, v, "anyOf")
      && MapReads(c.heap, v, "properties") && MapReads(c.heap, v, "patternProperties")
      && MapReads(c.heap, v, "dependentSchemas") && MapReads(c.heap, v, "dependencies")
  {
    ReferenceIffTarget(c, v);
    MapsIff(c.heap, v);
    assert PropertySection(c, v).Some? <==> MapReads(c.heap, v, "properties");
    assert ArraySection(c, v).Some? <==> ItemsRead(c.heap, v);
  }

  lemma {:induction false} ReadableIff(c: Context, v: Value, active: set<nat>)
    requires !(IsObject(c.heap, v) && v.ref in active)
    ensures Readable(c, v) <==> Early(c, v, active) != Some(None) && (Early(c, v, active).None? ==> Sections(c, v).Some?)
  {
    if IsObject(c.heap, v) { SectionsIff(c, v); }
  }

  lemma {:induction false} ClosedValuesFrom(h: Heap, v: Value, keywords: seq<string>, i: nat)
    requires IsObject(h, v) && i < |keywords|
    ensures ClosedValues(h, v, keywords[i..]) == Defined(Get(h, v, keywords[i])) + ClosedValues(h, v, keywords[i + 1..])
  {
    assert keywords[i..][1..] == keywords[i + 1..];
  }

  lemma {:induction false} ClosedValuesFour(h: Heap, v: Value, ks: seq<string>, i: nat, more: seq<Value>)
    requires IsObject(h, v) && i + 4 <= |ks| && ClosedValues(h, v, ks[i + 4..]) == more
    ensures ClosedValues(h, v, ks[i..]) ==
      Defined(Get(h, v, ks[i]))
      + (Defined(Get(h, v, ks[i + 1]))
      + (Defined(Get(h, v, ks[i + 2]))
      + (Defined(Get(h, v, ks[i + 3])) + more)))
  {
    ClosedValuesFrom(h, v, ks, i);
    ClosedValuesFrom(h, v, ks, i + 1);
    ClosedValuesFrom(h, v, ks, i + 2);
    ClosedValuesFrom(h, v, ks, i + 3);
  }

  lemma {:induction false} ClosedValuesAre(h: Heap, v: Value)
    requires IsObject(h, v)
    ensures ClosedValues(h, v, ClosedKeywords) == SingleOccurrences(h, v)
  {
    var ks := ClosedKeywords;
    assert ks[0..] == ks && ks[8..] == [];
    ClosedValuesFour(h, v, ks, 4, []);
    ClosedValuesFour(h, v, ks, 0, ClosedValues(h, v, ks[4..]));
    assert Defined(Get(h, v, "else")) + [] == Defined(Get(h, v, "else"));
  }

  lemma {:induction false} SchemasAre(h: Heap, entries: seq<Entry>, lists: bool)
    ensures SchemasOf(h, entries, lists) == if lists then Unlisted(h, Values(entries)) else Values(entries)
  {
    if entries != [] {
      SchemasAre(h, entries[1..], lists);
      assert Values(entries)[1..] == Values(entries[1..]);
    }
  }

  lemma {:induction false} MapValuesFrom(h: Heap, v: Value, ks: seq<string>, i: nat)
    requires IsObject(h, v) && i < |ks| && MapValues(h, v, ks[i..]).Some?
    ensures MapValues(h, v, ks[i + 1..]).Some?
    ensures var m := Members(h, Get(h, v, ks[i]));
      MapValues(h, v, ks[i..]).value
      == (if ks[i] == "dependencies" then Unlisted(h, m) else m) + MapValues(h, v, ks[i + 1..]).value
  {
    assert ks[i..][1..] == ks[i + 1..];
    var m := Get(h, v, ks[i]);
    if m != Undefined { SchemasAre(h, Entries(h, m), ks[i] == "dependencies"); }
  }

  lemma {:induction false} MapValuesAre(h: Heap, v: Value)
    requires IsObject(h, v) && MapValues(h, v, ClosedMaps).Some?
    ensures MapValues(h, v, ClosedMaps).value ==
      Members(h, Get(h, v, "patternProperties")) + (Members(h, Get(h, v, "dependentSchemas"))
      + Unlisted(h, Members(h, Get(h, v, "dependencies"))))
  {
    var ks := ClosedMaps;
    assert ks[0..] == ks && ks[3..] == [];
    MapValuesFrom(h, v, ks, 0);
    MapValuesFrom(h, v, ks, 1);
    MapValuesFrom(h, v, ks, 2);
    var last := Unlisted(h, Members(h, Get(h, v, "dependencies")));
    assert last + [] == last;
  }

  function AllValues(sections: seq<Section>): seq<Value> {
    if sections == [] then [] else sections[0].values + AllValues(sections[1..])
  }

  lemma {:induction false} SectionValues(c: Context, v: Value)
    requires IsObject(c.heap, v) && Sections(c, v).Some?
    ensures var s, h := Sections(c, v).value, c.heap;
      && s[0].values == Target(c, Get(h, v, "$ref"))
      && s[1].values == Members(h, Get(h, v, "properties"))
      && s[2].values == Members(h, Prefixes(h, v)) + Defined(Tail(h, v))
      && s[3].values == Members(h, Get(h, v, "allOf"))
      && s[4].values == Members(h, Get(h, v, "oneOf"))
      && s[5].values == Members(h, Get(h, v, "anyOf"))
  {
  }

  lemma {:induction false} SectionsOccur(c: Context, v: Value)
    requires IsObject(c.heap, v) && Sections(c, v).Some?
    ensures AllValues(Sections(c, v).value) == Occurrences(c, v)
  {
    ClosedValuesAre(c.heap, v);
    MapValuesAre(c.heap, v);
    SectionValues(c, v);
    AllValuesSeven(Sections(c, v).value);
  }

  lemma {:induction false} AllValuesSeven(s: seq<Section>)
    requires |s| == 7
    ensures AllValues(s) ==
      s[0].values + (s[1].values + (s[2].values + (s[3].values + (s[4].values + (s[5].values + s[6].values)))))
  {
    assert AllValues(s[7..]) == [];
    assert AllValues(s[6..]) == s[6].values by { assert s[6..][1..] == s[7..]; }
    assert AllValues(s[5..]) == s[5].values + AllValues(s[6..]) by { assert s[5..][1..] == s[6..]; }
    assert AllValues(s[4..]) == s[4].values + AllValues(s[5..]) by { assert s[4..][1..] == s[5..]; }
    assert AllValues(s[3..]) == s[3].values + AllValues(s[4..]) by { assert s[3..][1..] == s[4..]; }
    assert AllValues(s[2..]) == s[2].values + AllValues(s[3..]) by { assert s[2..][1..] == s[3..]; }
    assert AllValues(s[1..]) == s[1].values + AllValues(s[2..]) by { assert s[1..][1..] == s[2..]; }
  }

  /* ---- What compiles meets the conditions ------------------------------------------------ */

  lemma {:induction false} TotalAppend(c: Context, a: seq<Value>, b: seq<Value>, levels: nat)
    ensures Total(c, a + b, levels) == Total(c, a, levels) + Total(c, b, levels)
    decreases |a|
  {
    if a == [] {
      assert a + b == b;
    } else {
      assert (a + b)[1..] == a[1..] + b;
      TotalAppend(c, a[1..], b, levels);
    }
  }

  lemma {:induction false} VisitsFrom(c: Context, v: Value, depth: nat, active: set<nat>)
    requires depth <= MaxDepth && Early(c, v, active).None? && Sections(c, v).Some?
    ensures Visits(c, v, Remaining(depth)) == 1 + Total(c, AllValues(Sections(c, v).value), Remaining(depth + 1))
  {
    SectionsOccur(c, v);
  }

  lemma {:induction false} VisitsAlone(c: Context, v: Value, depth: nat, active: set<nat>)
    requires depth <= MaxDepth && Early(c, v, active).Some? && Early(c, v, active).value.Some?
    ensures Visits(c, v, Remaining(depth)) == 1
  {
  }

  /** A finished walk has visited as many schemas as the graph holds below its own. */
  lemma {:induction false} WalkCounts(c: Context, v: Value, depth: nat, visited: nat, active: set<nat>)
    requires Walk(c, v, depth, visited, active).Built?
    ensures Walk(c, v, depth, visited, active).visited == visited + Visits(c, v, Remaining(depth))
    decreases Remaining(depth), 0, 0
  {
    if Early(c, v, active).None? {
      SectionsCount(c, Public, Sections(c, v).value, depth, visited + 1, active + {v.ref});
      VisitsFrom(c, v, depth, active);
    } else {
      VisitsAlone(c, v, depth, active);
    }
  }

  lemma {:induction false} SectionsCount(
    c: Context, plan: Plan, sections: seq<Section>, depth: nat, visited: nat, active: set<nat>)
    requires depth <= MaxDepth && Wellformed(sections) && WalkSections(c, plan, sections, depth, visited, active).Built?
    ensures WalkSections(c, plan, sections, depth, visited, active).visited
            == visited + Total(c, AllValues(sections), Remaining(depth + 1))
    decreases Remaining(depth + 1), 2, |sections|
  {
    if sections != [] {
      var s := sections[0];
      AllWalksCount(c, s.values, depth + 1, visited, active);
      var walked := WalkAll(c, s.values, depth + 1, visited, active);
      var next := Combine(plan, s.role, walked.result, c.union).value;
      SectionsCount(c, next, sections[1..], depth, walked.visited, active);
      TotalAppend(c, s.values, AllValues(sections[1..]), Remaining(depth + 1));
    }
  }

  lemma {:induction false} AllWalksCount(c: Context, values: seq<Value>, depth: nat, visited: nat, active: set<nat>)
    requires WalkAll(c, values, depth, visited, active).Built?
    ensures WalkAll(c, values, depth, visited, active).visited == visited + Total(c, values, Remaining(depth))
    decreases Remaining(depth), 1, |values|
  {
    if values != [] {
      WalkCounts(c, values[0], depth, visited, active);
      AllWalksCount(c, values[1..], depth, Walk(c, values[0], depth, visited, active).visited, active);
    }
  }

  /** A schema's section has been walked and combined. */
  lemma {:induction false} SectionCombines(
    c: Context, plan: Plan, sections: seq<Section>, depth: nat, visited: nat, active: set<nat>, i: nat)
    returns (before: Plan, seen: nat)
    requires depth <= MaxDepth && Wellformed(sections) && i < |sections|
    requires WalkSections(c, plan, sections, depth, visited, active).Built?
    ensures var walked := WalkAll(c, sections[i].values, depth + 1, seen, active);
      walked.Built? && Combine(before, sections[i].role, walked.result, c.union).Some?
    decreases i
  {
    if i == 0 {
      before, seen := plan, visited;
    } else {
      var walked := WalkAll(c, sections[0].values, depth + 1, visited, active);
      var next := Combine(plan, sections[0].role, walked.result, c.union).value;
      before, seen := SectionCombines(c, next, sections[1..], depth, walked.visited, active, i - 1);
    }
  }

  /** A walked schema marks what its plan hides. */
  lemma {:induction false} MarkedIffHidden(c: Context, v: Value, depth: nat, visited: nat, active: set<nat>, path: Path)
    requires Plain(c.heap) && Walk(c, v, depth, visited, active).Built?
    ensures Marked(c, v, path) <==> Hides(Walk(c, v, depth, visited, active).result, path)
  {
    if Marked(c, v, path) {
      var n: nat :| Marks(c, false, v, path, n);
      MarksOpen(c, v, path, n);
      Sound(c, v, depth, visited, active, path, n);
    }
    if Hides(Walk(c, v, depth, visited, active).result, path) { Exact(c, v, depth, visited, active, path); }
  }

  lemma {:induction false} WalkedHarmless(c: Context, v: Value, depth: nat, visited: nat, active: set<nat>)
    requires Plain(c.heap) && IsObject(c.heap, v) && !WriteOnly(c.heap, v) && Walk(c, v, depth, visited, active).Built?
    ensures ClosedHarmless(c, v)
  {
    forall w, path | Unmatched(c.heap, v, w) ensures !Marked(c, w, path) {
      if Marked(c, w, path) {
        var n: nat :| Marks(c, false, w, path, n);
        MarksOpen(c, w, path, n);
        NothingUnmatched(c, v, depth, visited, active, w, path, n + 1);
      }
    }
  }

  lemma {:induction false} AlternativeSection(c: Context, v: Value, keyword: string, a: Value) returns (i: nat, j: nat)
    requires IsObject(c.heap, v) && Sections(c, v).Some? && (keyword == "oneOf" || keyword == "anyOf")
    requires Alternative(c.heap, v, keyword, a)
    ensures i == if keyword == "oneOf" then 4 else 5
    ensures j < |Sections(c, v).value[i].values| && Sections(c, v).value[i].values[j] == a
    ensures Sections(c, v).value[i].role == Either
  {
    i := if keyword == "oneOf" then 4 else 5;
    var values := Sections(c, v).value[i].values;
    assert a in values;
    j :| 0 <= j < |values| && values[j] == a;
  }

  lemma {:induction false} WalkedAgrees(c: Context, v: Value, depth: nat, visited: nat, active: set<nat>, keyword: string)
    requires Plain(c.heap) && IsObject(c.heap, v) && !WriteOnly(c.heap, v) && Walk(c, v, depth, visited, active).Built?
    requires !c.union && (keyword == "oneOf" || keyword == "anyOf")
    ensures Agree(c, v, keyword)
  {
    WalkHasSections(c, v, depth, visited, active);
    forall a, b | Alternative(c.heap, v, keyword, a) && Alternative(c.heap, v, keyword, b) ensures MarkSame(c, a, b) {
      var i, j := AlternativeSection(c, v, keyword, a);
      var _, k := AlternativeSection(c, v, keyword, b);
      var sections, inside := Sections(c, v).value, active + {v.ref};
      var before, seen := SectionCombines(c, Public, sections, depth, visited + 1, inside, i);
      var plans := WalkAll(c, sections[i].values, depth + 1, seen, inside).result;
      assert plans[j] == plans[k];
      var s := WalkAllAt(c, sections[i].values, depth + 1, seen, inside, j);
      var t := WalkAllAt(c, sections[i].values, depth + 1, seen, inside, k);
      forall path ensures Marked(c, a, path) <==> Marked(c, b, path) {
        MarkedIffHidden(c, a, depth + 1, s, inside, path);
        MarkedIffHidden(c, b, depth + 1, t, inside, path);
      }
    }
  }

  lemma {:induction false} WalkedFine(c: Context, v: Value, depth: nat, visited: nat, active: set<nat>)
    requires Plain(c.heap) && Walk(c, v, depth, visited, active).Built?
    ensures Fine(c, v)
  {
    ReadableIff(c, v, active);
    if IsObject(c.heap, v) && !WriteOnly(c.heap, v) {
      WalkedHarmless(c, v, depth, visited, active);
      if !c.union {
        WalkedAgrees(c, v, depth, visited, active, "oneOf");
        WalkedAgrees(c, v, depth, visited, active, "anyOf");
      }
    }
  }

  lemma {:induction false} ReachesNext(c: Context, v: Value, w: Value, n: nat) returns (u: Value)
    requires n > 0 && Reaches(c, v, w, n)
    ensures Linked(c, v, u) && Reaches(c, u, w, n - 1)
  {
    u :| Links(c)(v, u) && Leads(Links(c), u, w, n - 1);
  }

  lemma {:induction false} LinkedWalk(c: Context, v: Value, depth: nat, visited: nat, active: set<nat>, w: Value)
    returns (seen: nat)
    requires Plain(c.heap) && Walk(c, v, depth, visited, active).Built? && Linked(c, v, w)
    ensures Remaining(depth) == Remaining(depth + 1) + 1 && Walk(c, w, depth + 1, seen, active + {v.ref}).Built?
  {
    seen := AppliedWalk(c, v, depth, visited, active, w);
  }

  lemma {:induction false} WalkedSane(
    c: Context, v: Value, depth: nat, visited: nat, active: set<nat>, n: nat, w: Value)
    requires Plain(c.heap) && Walk(c, v, depth, visited, active).Built? && Reaches(c, v, w, n)
    ensures n < Remaining(depth) && Fine(c, w)
    decreases n
  {
    if n == 0 {
      WalkedFine(c, v, depth, visited, active);
    } else {
      var u := ReachesNext(c, v, w, n);
      var seen := LinkedWalk(c, v, depth, visited, active, u);
      WalkedSane(c, u, depth + 1, seen, active + {v.ref}, n - 1, w);
    }
  }

  /* ---- What meets the conditions compiles ------------------------------------------------ */

  /** Chains can be put together. */
  lemma {:induction false} LeadsOn(link: (Value, Value) -> bool, u: Value, v: Value, w: Value, m: nat, n: nat)
    requires Leads(link, u, v, m) && Leads(link, v, w, n)
    ensures Leads(link, u, w, m + n)
    decreases m
  {
    if m > 0 {
      var x :| link(u, x) && Leads(link, x, v, m - 1);
      LeadsOn(link, x, v, w, m - 1, n);
      assert Leads(link, x, w, m + n - 1);
    }
  }

  /** Going round a cycle gives chains of any length. */
  lemma {:induction false} Round(link: (Value, Value) -> bool, v: Value, m: nat, n: nat) returns (k: nat)
    requires m > 0 && Leads(link, v, v, m)
    ensures k >= n && Leads(link, v, v, k)
    decreases n
  {
    if n == 0 {
      k := 0;
    } else {
      k := Round(link, v, m, n - 1);
      LeadsOn(link, v, v, v, m, k);
      k := k + m;
    }
  }

  lemma {:induction false} ReachesOn(c: Context, u: Value, v: Value, w: Value, m: nat, n: nat)
    requires Reaches(c, u, v, m) && Reaches(c, v, w, n)
    ensures Reaches(c, u, w, m + n)
  {
    LeadsOn(Links(c), u, v, w, m, n);
  }

  lemma {:induction false} ReachesRound(c: Context, v: Value, m: nat, n: nat) returns (k: nat)
    requires m > 0 && Reaches(c, v, v, m)
    ensures k >= n && Reaches(c, v, v, k)
  {
    k := Round(Links(c), v, m, n);
  }

  lemma {:induction false} ReachesOne(c: Context, v: Value, w: Value)
    requires Linked(c, v, w)
    ensures Reaches(c, v, w, 1)
  {
    assert Links(c)(v, w) && Leads(Links(c), w, w, 0);
  }

  lemma {:induction false} SaneBelow(c: Context, v: Value, w: Value, levels: nat)
    requires Sane(c, v, levels) && Linked(c, v, w)
    ensures levels > 1 && Sane(c, w, levels - 1)
  {
    assert Reaches(c, w, w, 0);
    ReachesOne(c, v, w);
    forall n: nat, u | Reaches(c, w, u, n) ensures n < levels - 1 && Fine(c, u) {
      ReachesOn(c, v, w, u, 1, n);
    }
  }

  /** Every schema being walked leads to `v`. */
  ghost predicate Above(c: Context, v: Value, active: set<nat>) {
    forall r :: r in active ==> exists m: nat :: m > 0 && Reaches(c, Pointer(r), v, m)
  }

  lemma {:induction false} NotActive(c: Context, v: Value, levels: nat, active: set<nat>)
    requires Sane(c, v, levels) && Above(c, v, active) && v.Pointer?
    ensures v.ref !in active
  {
    if v.ref in active {
      var m: nat :| m > 0 && Reaches(c, v, v, m);
      var k := ReachesRound(c, v, m, levels);
      assert false;
    }
  }

  lemma {:induction false} AboveBelow(c: Context, v: Value, w: Value, active: set<nat>)
    requires Above(c, v, active) && Linked(c, v, w)
    ensures Above(c, w, active + {v.ref})
  {
    assert Reaches(c, w, w, 0);
    ReachesOne(c, v, w);
    forall r | r in active + {v.ref} ensures exists m: nat :: m > 0 && Reaches(c, Pointer(r), w, m) {
      if r != v.ref {
        var m: nat :| m > 0 && Reaches(c, Pointer(r), v, m);
        ReachesOn(c, Pointer(r), v, w, m, 1);
      }
    }
  }

  lemma {:induction false} ClosedValueFrom(h: Heap, v: Value, keywords: seq<string>, w: Value) returns (i: nat)
    requires IsObject(h, v) && w in ClosedValues(h, v, keywords)
    ensures w != Undefined && i < |keywords| && Get(h, v, keywords[i]) == w
  {
    if Get(h, v, keywords[0]) == w && w != Undefined {
      i := 0;
    } else {
      i := ClosedValueFrom(h, v, keywords[1..], w);
      i := i + 1;
    }
  }

  lemma {:induction false} SchemaFrom(h: Heap, entries: seq<Entry>, lists: bool, w: Value) returns (i: nat)
    requires w in SchemasOf(h, entries, lists)
    ensures i < |entries| && entries[i].value == w && !(lists && IsArray(h, w))
  {
    if w == entries[0].value && !(lists && IsArray(h, w)) {
      i := 0;
    } else {
      i := SchemaFrom(h, entries[1..], lists, w);
      i := i + 1;
    }
  }

  lemma {:induction false} MapValueFrom(h: Heap, v: Value, keywords: seq<string>, w: Value) returns (i: nat)
    requires IsObject(h, v) && MapValues(h, v, keywords).Some? && w in MapValues(h, v, keywords).value
    ensures i < |keywords| && UnmatchedIn(h, Get(h, v, keywords[i]), keywords[i] == "dependencies", w)
  {
    var m, lists := Get(h, v, keywords[0]), keywords[0] == "dependencies";
    if m != Undefined && w in SchemasOf(h, Entries(h, m), lists) {
      i := 0;
      var _ := SchemaFrom(h, Entries(h, m), lists, w);
    } else {
      i := MapValueFrom(h, v, keywords[1..], w);
      i := i + 1;
    }
  }

  lemma {:induction false} ClosedIsUnmatched(c: Context, v: Value, j: nat)
    requires IsObject(c.heap, v) && Sections(c, v).Some? && j < |Sections(c, v).value[6].values|
    ensures Unmatched(c.heap, v, Sections(c, v).value[6].values[j])
  {
    var w := Sections(c, v).value[6].values[j];
    if w in ClosedValues(c.heap, v, ClosedKeywords) {
      var _ := ClosedValueFrom(c.heap, v, ClosedKeywords, w);
    } else {
      var _ := MapValueFrom(c.heap, v, ClosedMaps, w);
    }
  }

  lemma {:induction false} SectionApplies(c: Context, v: Value, i: nat, j: nat)
    requires Plain(c.heap) && IsObject(c.heap, v) && Sections(c, v).Some? && i < 7 && j < |Sections(c, v).value[i].values|
    ensures Applies(c, v, Sections(c, v).value[i].values[j])
  {
    var h := c.heap;
    match i {
      case 1 =>
        var entries := Entries(h, Get(h, v, "properties"));
        FindAt(entries, j);
        assert Descends(h, v, Key(entries[j].name), Sections(c, v).value[1].values[j]);
      case 2 => assert Descends(h, v, Index(j), Sections(c, v).value[2].values[j]);
      case 6 => ClosedIsUnmatched(c, v, j);
      case _ =>
    }
  }

  /** Walking these values next runs into nothing above them and nothing that stops it. */
  ghost predicate Clear(c: Context, values: seq<Value>, levels: nat, active: set<nat>) {
    forall j :: 0 <= j < |values| ==> Sane(c, values[j], levels) && Above(c, values[j], active)
  }

  /** Whatever plans the values of a section have, they can be combined. */
  ghost predicate Joins(c: Context, s: Section) {
    && (s.role.Closed? ==> forall j :: 0 <= j < |s.values| ==> Harmless(c, s.values[j]))
    && (s.role.Either? && !c.union ==>
          forall j, k :: 0 <= j < |s.values| && 0 <= k < |s.values| ==> MarkSame(c, s.values[j], s.values[k]))
  }

  ghost predicate SectionsClear(c: Context, sections: seq<Section>, levels: nat, active: set<nat>) {
    forall i :: 0 <= i < |sections| ==> Clear(c, sections[i].values, levels, active) && Joins(c, sections[i])
  }

  lemma {:induction false} SectionJoins(c: Context, v: Value, i: nat)
    requires IsObject(c.heap, v) && !WriteOnly(c.heap, v) && Sections(c, v).Some? && Fine(c, v) && i < 7
    ensures Joins(c, Sections(c, v).value[i])
  {
    var s := Sections(c, v).value[i];
    if s.role.Closed? {
      forall j | 0 <= j < |s.values| ensures Harmless(c, s.values[j]) { ClosedIsUnmatched(c, v, j); }
    }
    if s.role.Either? {
      var keyword := if i == 4 then "oneOf" else "anyOf";
      assert forall j :: 0 <= j < |s.values| ==> Alternative(c.heap, v, keyword, s.values[j]);
    }
  }

  lemma {:induction false} AllSectionsClear(c: Context, v: Value, levels: nat, active: set<nat>)
    requires Plain(c.heap) && IsObject(c.heap, v) && !WriteOnly(c.heap, v) && Sections(c, v).Some? && levels > 0
    requires Sane(c, v, levels) && Above(c, v, active)
    ensures SectionsClear(c, Sections(c, v).value, levels - 1, active + {v.ref})
  {
    var sections := Sections(c, v).value;
    assert Reaches(c, v, v, 0);
    forall i | 0 <= i < 7
      ensures Clear(c, sections[i].values, levels - 1, active + {v.ref}) && Joins(c, sections[i])
    {
      SectionJoins(c, v, i);
      forall j | 0 <= j < |sections[i].values|
        ensures Sane(c, sections[i].values[j], levels - 1) && Above(c, sections[i].values[j], active + {v.ref})
      {
        var w := sections[i].values[j];
        SectionApplies(c, v, i, j);
        assert Linked(c, v, w);
        SaneBelow(c, v, w, levels);
        AboveBelow(c, v, w, active);
      }
    }
  }

  lemma {:induction false} NothingStops(c: Context, v: Value, depth: nat, active: set<nat>)
    requires Sane(c, v, Remaining(depth)) && Above(c, v, active)
    ensures depth <= MaxDepth && Early(c, v, active) != Some(None)
    ensures Early(c, v, active).None? ==> Sections(c, v).Some?
  {
    assert Reaches(c, v, v, 0);
    if v.Pointer? { NotActive(c, v, Remaining(depth), active); }
    ReadableIff(c, v, active);
  }

  /** A schema that meets the conditions is walked to the end. */
  lemma {:induction false} WalkBuilds(c: Context, v: Value, depth: nat, visited: nat, active: set<nat>)
    requires Plain(c.heap) && Sane(c, v, Remaining(depth)) && Above(c, v, active)
    requires visited + Visits(c, v, Remaining(depth)) <= MaxSchemas
    ensures Walk(c, v, depth, visited, active).Built?
    decreases Remaining(depth), 0, 0
  {
    NothingStops(c, v, depth, active);
    if Early(c, v, active).None? {
      VisitsFrom(c, v, depth, active);
      AllSectionsClear(c, v, Remaining(depth), active);
      SectionsNamed(c, v);
      SectionsBuild(c, Public, Sections(c, v).value, depth, visited + 1, active + {v.ref});
    } else {
      VisitsAlone(c, v, depth, active);
    }
  }

  lemma {:induction false} SectionsBuild(
    c: Context, plan: Plan, sections: seq<Section>, depth: nat, visited: nat, active: set<nat>)
    requires Plain(c.heap) && depth <= MaxDepth && Wellformed(sections) && AllNamed(sections) && Normal(plan)
    requires SectionsClear(c, sections, Remaining(depth + 1), active)
    requires visited + Total(c, AllValues(sections), Remaining(depth + 1)) <= MaxSchemas
    ensures WalkSections(c, plan, sections, depth, visited, active).Built?
    decreases Remaining(depth + 1), 2, |sections|
  {
    if sections != [] {
      var s := sections[0];
      TotalAppend(c, s.values, AllValues(sections[1..]), Remaining(depth + 1));
      AllBuild(c, s.values, depth + 1, visited, active);
      AllWalksCount(c, s.values, depth + 1, visited, active);
      var walked := WalkAll(c, s.values, depth + 1, visited, active);
      Combines(c, plan, s, depth + 1, visited, active);
      AllWalksNormal(c, s.values, depth + 1, visited, active);
      CombineNormal(plan, s.role, walked.result, c.union);
      var next := Combine(plan, s.role, walked.result, c.union).value;
      SectionsBuild(c, next, sections[1..], depth, walked.visited, active);
    }
  }

  lemma {:induction false} AllBuild(c: Context, values: seq<Value>, depth: nat, visited: nat, active: set<nat>)
    requires Plain(c.heap) && Clear(c, values, Remaining(depth), active)
    requires visited + Total(c, values, Remaining(depth)) <= MaxSchemas
    ensures WalkAll(c, values, depth, visited, active).Built?
    decreases Remaining(depth), 1, |values|
  {
    if values != [] {
      WalkBuilds(c, values[0], depth, visited, active);
      WalkCounts(c, values[0], depth, visited, active);
      AllBuild(c, values[1..], depth, Walk(c, values[0], depth, visited, active).visited, active);
    }
  }

  lemma {:induction false} Combines(c: Context, plan: Plan, s: Section, depth: nat, visited: nat, active: set<nat>)
    requires Plain(c.heap) && visited <= MaxSchemas && Fits(s.role, |s.values|) && Joins(c, s)
    requires WalkAll(c, s.values, depth, visited, active).Built?
    ensures Combine(plan, s.role, WalkAll(c, s.values, depth, visited, active).result, c.union).Some?
  {
    var plans := WalkAll(c, s.values, depth, visited, active).result;
    AllWalksNormal(c, s.values, depth, visited, active);
    if s.role.Closed? {
      forall j | 0 <= j < |plans| ensures !Sensitive(plans[j]) { PlanPublic(c, s.values, depth, visited, active, j); }
    }
    if s.role.Either? && !c.union {
      forall j | 0 <= j < |plans| ensures plans[j] == plans[0] { PlansSame(c, s.values, depth, visited, active, j, 0); }
    }
  }

  lemma {:induction false} PlanPublic(c: Context, values: seq<Value>, depth: nat, visited: nat, active: set<nat>, j: nat)
    requires Plain(c.heap) && WalkAll(c, values, depth, visited, active).Built? && j < |values| && Harmless(c, values[j])
    requires Normal(WalkAll(c, values, depth, visited, active).result[j])
    ensures !Sensitive(WalkAll(c, values, depth, visited, active).result[j])
  {
    var plan := WalkAll(c, values, depth, visited, active).result[j];
    if Sensitive(plan) {
      var path := SensitiveHides(plan);
      var seen := WalkAllAt(c, values, depth, visited, active, j);
      MarkedIffHidden(c, values[j], depth, seen, active, path);
      assert false;
    }
  }

  lemma {:induction false} PlansSame(
    c: Context, values: seq<Value>, depth: nat, visited: nat, active: set<nat>, j: nat, k: nat)
    requires Plain(c.heap) && WalkAll(c, values, depth, visited, active).Built? && j < |values| && k < |values|
    requires MarkSame(c, values[j], values[k])
    requires AllNormal(WalkAll(c, values, depth, visited, active).result)
    ensures WalkAll(c, values, depth, visited, active).result[j] == WalkAll(c, values, depth, visited, active).result[k]
  {
    var plans := WalkAll(c, values, depth, visited, active).result;
    var s := WalkAllAt(c, values, depth, visited, active, j);
    var t := WalkAllAt(c, values, depth, visited, active, k);
    forall path ensures Hides(plans[j], path) <==> Hides(plans[k], path) {
      MarkedIffHidden(c, values[j], depth, s, active, path);
      MarkedIffHidden(c, values[k], depth, t, active, path);
    }
    Canonical(plans[j], plans[k]);
  }

  /**
   * A schema compiles if and only if all schemas its chains reach are fine, no chain is longer than the
   * depth limit, and no more schemas are met than the other limit allows.
   */
  lemma {:induction false} CompilesIff(c: Context)
    requires Plain(c.heap)
    ensures Compile(c).Some? <==> Compilable(c)
  {
    assert Remaining(0) == MaxDepth + 1;
    if Compilable(c) {
      assert Above(c, c.root, {});
      WalkBuilds(c, c.root, 0, 0, {});
    }
    if Compile(c).Some? {
      WalkCounts(c, c.root, 0, 0, {});
      WalkNormal(c, c.root, 0, 0, {});
      forall n: nat, w | Reaches(c, c.root, w, n) ensures n < MaxDepth + 1 && Fine(c, w) {
        WalkedSane(c, c.root, 0, 0, {}, n, w);
      }
    }
  }
}
