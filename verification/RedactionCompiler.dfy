/**
 * The compiler as it runs: one visited counter and one set of active schemas, changed as the
 * walk goes down and up, and the worklist that looks for a private annotation anywhere.
 */
module RedactionCompiler {
  import opened Options
  import opened RedactionPlan
  import opened RedactionSchema
  import opened RedactionSoundness
  import opened RedactionCompiles
  import opened RedactionApply
  import opened RedactionTheorems

  class Compiler {
    const c: Context
    var visited: nat
    var active: set<nat>

    constructor (c: Context)
      ensures this.c == c && visited == 0 && active == {}
    {
      this.c := c;
      visited, active := 0, {};
    }

    /** A plan, or none once anything is unresolved; either way the set of active schemas is as it was before. */
    method Walk(v: Value, depth: nat) returns (r: Option<Plan>)
      modifies this
      ensures var w := RedactionSchema.Walk(c, v, depth, old(visited), old(active));
        && (r.None? <==> w.Refused?)
        && (r.Some? ==> w == Built(r.value, visited)) && active == old(active)
      decreases Remaining(depth), 0, 0
    {
      visited := visited + 1;
      if visited > MaxSchemas || depth > MaxDepth { return None; }
      match Early(c, v, active) {
        case Some(stop) => return stop;
        case None =>
      }
      var parts := Sections(c, v);
      if parts.None? { return None; }
      active := active + {v.ref};
      r := Compose(parts.value, depth);
      active := active - {v.ref};
    }

    /** The running plan of one schema, section by section. */
    method Compose(sections: seq<Section>, depth: nat) returns (r: Option<Plan>)
      requires depth <= MaxDepth && Wellformed(sections)
      modifies this
      ensures var w := WalkSections(c, Public, sections, depth, old(visited), old(active));
        && (r.None? <==> w.Refused?)
        && (r.Some? ==> w == Built(r.value, visited)) && active == old(active)
      decreases Remaining(depth + 1), 2, |sections|
    {
      var plan := Public;
      ghost var whole := WalkSections(c, Public, sections, depth, visited, active);
      for i := 0 to |sections|
        invariant active == old(active)
        invariant whole == WalkSections(c, plan, sections[i..], depth, visited, active)
      {
        assert sections[i..][0] == sections[i] && sections[i..][1..] == sections[i + 1..];
        var plans := Subschemas(sections[i].values, depth + 1);
        if plans.None? { return None; }
        var next := Merged(plan, sections[i].role, plans.value);
        if next.None? { return None; }
        plan := next.value;
      }
      return Some(plan);
    }

    method Subschemas(values: seq<Value>, depth: nat) returns (r: Option<seq<Plan>>)
      modifies this
      ensures var w := WalkAll(c, values, depth, old(visited), old(active));
        && (r.None? <==> w.Refused?)
        && (r.Some? ==> w == Built(r.value, visited)) && active == old(active)
      decreases Remaining(depth), 1, |values|
    {
      var plans := [];
      ghost var whole := WalkAll(c, values, depth, visited, active);
      assert values[0..] == values && (whole.Built? ==> [] + whole.result == whole.result);
      for i := 0 to |values|
        invariant active == old(active) && |plans| == i
        invariant var rest := WalkAll(c, values[i..], depth, visited, active);
          whole == if rest.Refused? then Refused else Built(plans + rest.result, rest.visited)
      {
        assert values[i..][0] == values[i] && values[i..][1..] == values[i + 1..];
        ghost var n, before := visited, plans;
        var plan := Walk(values[i], depth);
        if plan.None? { return None; }
        plans := plans + [plan.value];
        ghost var rest := WalkAll(c, values[i + 1..], depth, visited, active);
        if rest.Built? { assert before + ([plan.value] + rest.result) == plans + rest.result; }
      }
      assert plans + [] == plans;
      return Some(plans);
    }

    method Merged(plan: Plan, role: Role, plans: seq<Plan>) returns (r: Option<Plan>)
      requires Fits(role, |plans|)
      ensures r == Combine(plan, role, plans, c.union)
    {
      if role.All? || (role.Either? && c.union) {
        var all := plan;
        for j := 0 to |plans|
          invariant MergeAll(all, plans[j..]) == MergeAll(plan, plans)
        {
          assert plans[j..][1..] == plans[j + 1..];
          all := Merge(all, plans[j]);
        }
        return Some(all);
      }
      return Combine(plan, role, plans, c.union);
    }
  }

  method RunCompile(c: Context) returns (r: Option<Plan>)
    ensures r == Compile(c)
  {
    var compiler := new Compiler(c);
    r := compiler.Walk(c.root, 0);
  }

  /* ---- Is anything private? -------------------------------------------------------------- */

  function Contents(h: Heap, v: Value): seq<Value> {
    if IsObject(h, v) then Values(Entries(h, v)) else if IsArray(h, v) then Elements(h, v) else []
  }

  /** Each value of the thread is in the one before it. */
  ghost predicate Thread(h: Heap, vs: seq<Value>) {
    var thread := forall i :: 0 < i < |vs| ==> vs[i] in Contents(h, vs[i - 1]);
    thread
  }

  ghost predicate Leads(h: Heap, vs: seq<Value>, v: Value, w: Value) {
    vs != [] && vs[0] == v && vs[|vs| - 1] == w && Thread(h, vs)
  }

  ghost predicate PartOf(h: Heap, v: Value, w: Value) { exists vs :: Leads(h, vs, v, w) }

  lemma {:induction false} PartOfPart(h: Heap, root: Value, v: Value, w: Value)
    requires PartOf(h, root, v) && w in Contents(h, v)
    ensures PartOf(h, root, w)
  {
    var vs :| Leads(h, vs, root, v);
    assert Leads(h, vs + [w], root, w);
  }

  lemma {:induction false} PartOfSelf(h: Heap, v: Value)
    ensures PartOf(h, v, v)
  {
    assert Leads(h, [v], v, v);
  }

  predicate Annotated(h: Heap, v: Value) { IsObject(h, v) && WriteOnly(h, v) }

  /** Some object in the graph, however it is reached, carries `writeOnly: true`. */
  ghost predicate AnyWriteOnly(h: Heap, root: Value) {
    exists w :: PartOf(h, root, w) && Annotated(h, w)
  }

  predicate Compound(h: Heap, v: Value) { IsObject(h, v) || IsArray(h, v) }

  /** Everything in one value is itself seen or still pending. */
  ghost predicate Expanded(h: Heap, v: Value, seen: set<nat>, pending: seq<Value>) {
    var expanded := forall w :: w in Contents(h, v) && Compound(h, w) ==> w.ref in seen || w in pending;
    expanded
  }

  ghost predicate Frontier(h: Heap, seen: set<nat>, pending: seq<Value>) {
    forall r :: r in seen ==> Expanded(h, Pointer(r), seen, pending)
  }

  lemma {:induction false} NotEmpty(h: Heap, v: Value, w: Value)
    requires w in Contents(h, v)
    ensures Compound(h, v) && v == Pointer(v.ref)
  {
  }

  /** Taking a value off the list keeps the frontier once the value is seen or is no compound. */
  lemma {:induction false} Popped(h: Heap, seen: set<nat>, pending: seq<Value>, v: Value, seen': set<nat>)
    requires Frontier(h, seen, pending + [v]) && seen <= seen' && (Compound(h, v) ==> v.ref in seen')
    ensures forall r :: r in seen ==> Expanded(h, Pointer(r), seen', pending)
  {
    forall r | r in seen ensures Expanded(h, Pointer(r), seen', pending) {
      assert Expanded(h, Pointer(r), seen, pending + [v]);
    }
  }

  lemma {:induction false} Pushed(h: Heap, seen: set<nat>, pending: seq<Value>, v: Value)
    requires Compound(h, v) && v.ref in seen
    requires forall r :: r in seen && r != v.ref ==> Expanded(h, Pointer(r), seen, pending)
    ensures Frontier(h, seen, pending + Contents(h, v))
  {
    forall r | r in seen ensures Expanded(h, Pointer(r), seen, pending + Contents(h, v)) {
      if r != v.ref { assert Expanded(h, Pointer(r), seen, pending); } else { assert v == Pointer(r); }
    }
  }

  lemma {:induction false} AllSeen(h: Heap, seen: set<nat>, vs: seq<Value>, i: nat)
    requires Frontier(h, seen, []) && Thread(h, vs) && i < |vs| && Compound(h, vs[i])
    requires Compound(h, vs[0]) ==> vs[0].ref in seen
    ensures vs[i].ref in seen
    decreases i
  {
    if i > 0 {
      NotEmpty(h, vs[i - 1], vs[i]);
      AllSeen(h, seen, vs, i - 1);
      assert Expanded(h, Pointer(vs[i - 1].ref), seen, []);
    }
  }

  /** What the search knows between two visits. */
  ghost predicate Searching(h: Heap, root: Value, seen: set<nat>, pending: seq<Value>) {
    var searching :=
      && seen <= h.Keys && Frontier(h, seen, pending)
      && (forall v :: v in pending ==> PartOf(h, root, v))
      && (Compound(h, root) ==> root.ref in seen || root in pending)
      && (forall r :: r in seen ==> !Annotated(h, Pointer(r)));
    searching
  }

  lemma {:induction false} SearchSkips(h: Heap, root: Value, seen: set<nat>, rest: seq<Value>, v: Value)
    requires Searching(h, root, seen, rest + [v]) && (Compound(h, v) ==> v.ref in seen)
    ensures Searching(h, root, seen, rest)
  {
    Popped(h, seen, rest, v, seen);
  }

  lemma {:induction false} SearchVisits(h: Heap, root: Value, seen: set<nat>, rest: seq<Value>, v: Value)
    requires Searching(h, root, seen, rest + [v]) && Compound(h, v) && v.ref !in seen && !Annotated(h, v)
    ensures Searching(h, root, seen + {v.ref}, rest + Contents(h, v))
    ensures |h.Keys - (seen + {v.ref})| < |h.Keys - seen|
  {
    Popped(h, seen, rest, v, seen + {v.ref});
    Pushed(h, seen + {v.ref}, rest, v);
    assert v in rest + [v] && v == Pointer(v.ref);
    forall w | w in Contents(h, v) ensures PartOf(h, root, w) { PartOfPart(h, root, v, w); }
    assert v.ref in h.Keys - seen;
    Fewer(h.Keys - (seen + {v.ref}), h.Keys - seen);
  }

  lemma {:induction false} SearchFinds(h: Heap, root: Value, seen: set<nat>, pending: seq<Value>, v: Value)
    requires Searching(h, root, seen, pending) && v in pending && Annotated(h, v)
    ensures AnyWriteOnly(h, root)
  {
  }

  /** Visits each object once, whatever cycles there are. */
  method FindPrivate(h: Heap, root: Value) returns (found: bool)
    ensures found <==> AnyWriteOnly(h, root)
  {
    var pending: seq<Value> := [root];
    var seen: set<nat> := {};
    PartOfSelf(h, root);
    while pending != []
      invariant Searching(h, root, seen, pending)
      decreases |h.Keys - seen|, |pending|
    {
      var v, rest := pending[|pending| - 1], pending[..|pending| - 1];
      assert pending == rest + [v];
      if !Compound(h, v) || v.ref in seen {
        SearchSkips(h, root, seen, rest, v);
        pending := rest;
      } else if Annotated(h, v) {
        SearchFinds(h, root, seen, pending, v);
        return true;
      } else {
        SearchVisits(h, root, seen, rest, v);
        seen := seen + {v.ref};
        pending := rest + Contents(h, v);
      }
    }
    SearchEnds(h, root, seen);
    return false;
  }

  lemma {:induction false} SearchEnds(h: Heap, root: Value, seen: set<nat>)
    requires Searching(h, root, seen, [])
    ensures !AnyWriteOnly(h, root)
  {
    forall w | PartOf(h, root, w) && Compound(h, w) ensures !Annotated(h, w) {
      var vs :| Leads(h, vs, root, w);
      AllSeen(h, seen, vs, |vs| - 1);
      assert w == Pointer(w.ref);
    }
  }

  lemma {:induction false} Fewer(a: set<nat>, b: set<nat>)
    requires a < b
    ensures |a| < |b|
  {
    var x :| x in b && x !in a;
    assert b == (b - a) + a && |b| == |b - a| + |a|;
  }

  /* ---- Without an annotation nothing is private ------------------------------------------ */

  ghost predicate Part(c: Context, v: Value) { !Compound(c.heap, v) || PartOf(c.heap, c.root, v) }

  lemma {:induction false} ContentsPart(c: Context, v: Value, w: Value)
    requires Part(c, v) && w in Contents(c.heap, v)
    ensures Part(c, w)
  {
    PartOfPart(c.heap, c.root, v, w);
  }

  lemma {:induction false} FindPart(h: Heap, v: Value, k: string)
    requires IsObject(h, v)
    ensures Get(h, v, k) == Undefined || Get(h, v, k) in Contents(h, v)
  {
    if Get(h, v, k) != Undefined {
      var i := FoundAt(Entries(h, v), k);
      assert Values(Entries(h, v))[i] == Get(h, v, k);
    }
  }

  lemma {:induction false} GetPart(c: Context, v: Value, k: string)
    requires IsObject(c.heap, v) && Part(c, v)
    ensures Part(c, Get(c.heap, v, k))
  {
    FindPart(c.heap, v, k);
    if Get(c.heap, v, k) != Undefined { ContentsPart(c, v, Get(c.heap, v, k)); }
  }

  lemma {:induction false} NamedIsElement(elements: seq<Value>, k: string, n: nat)
    requires n <= |elements|
    ensures ElementNamed(elements, k, n).Some? ==> ElementNamed(elements, k, n).value in elements
  {
    if n > 0 { NamedIsElement(elements, k, n - 1); }
  }

  lemma {:induction false} OwnPart(c: Context, v: Value, k: string)
    requires Part(c, v)
    ensures Own(c.heap, v, k).Some? ==> Part(c, Own(c.heap, v, k).value)
  {
    if IsObject(c.heap, v) {
      GetPart(c, v, k);
    } else if IsArray(c.heap, v) && k != "length" {
      var es := Elements(c.heap, v);
      NamedIsElement(es, k, |es|);
      if Own(c.heap, v, k).Some? { ContentsPart(c, v, Own(c.heap, v, k).value); }
    }
  }

  lemma {:induction false} FollowPart(c: Context, v: Value, tokens: seq<string>)
    requires Part(c, v)
    ensures Follow(c.heap, v, tokens).Some? ==> Part(c, Follow(c.heap, v, tokens).value)
    decreases tokens
  {
    if tokens != [] && Escaped(tokens[0]) {
      OwnPart(c, v, Unescape(tokens[0]));
      var w := Own(c.heap, v, Unescape(tokens[0]));
      if w.Some? { FollowPart(c, w.value, tokens[1..]); }
    }
  }

  lemma {:induction false} ReferencePart(c: Context, ref: Value)
    requires Part(c, c.root)
    ensures Reference(c, ref).Some? ==> Part(c, Reference(c, ref).value)
  {
    if Reference(c, ref).Some? {
      var pointer := c.decode(ref.s[1..]).value;
      if pointer != "" { FollowPart(c, c.root, Split(pointer[1..])); }
    }
  }

  lemma {:induction false} RootPart(c: Context)
    ensures Part(c, c.root)
  {
    PartOfSelf(c.heap, c.root);
  }

  lemma {:induction false} AlternativePart(c: Context, v: Value, keyword: string, w: Value)
    requires IsObject(c.heap, v) && Part(c, v) && Alternative(c.heap, v, keyword, w)
    ensures Part(c, w)
  {
    GetPart(c, v, keyword);
    ContentsPart(c, Get(c.heap, v, keyword), w);
  }

  lemma {:induction false} InPlacePart(c: Context, v: Value, w: Value)
    requires IsObject(c.heap, v) && Part(c, v) && InPlace(c, v, w)
    ensures Part(c, w)
  {
    RootPart(c);
    if Alternative(c.heap, v, "allOf", w) { AlternativePart(c, v, "allOf", w); }
    else if Alternative(c.heap, v, "oneOf", w) { AlternativePart(c, v, "oneOf", w); }
    else if Alternative(c.heap, v, "anyOf", w) { AlternativePart(c, v, "anyOf", w); }
    else { ReferencePart(c, Get(c.heap, v, "$ref")); }
  }

  lemma {:induction false} DescendsPart(c: Context, v: Value, s: Step, w: Value)
    requires IsObject(c.heap, v) && Part(c, v) && Descends(c.heap, v, s, w)
    ensures Part(c, w)
  {
    GetPart(c, v, "properties");
    GetPart(c, v, "prefixItems");
    GetPart(c, v, "items");
    GetPart(c, v, "additionalItems");
    if s.Key? {
      GetPart(c, Get(c.heap, v, "properties"), s.name);
    } else if IsArray(c.heap, Prefixes(c.heap, v)) && s.i < |Elements(c.heap, Prefixes(c.heap, v))| {
      ContentsPart(c, Prefixes(c.heap, v), w);
    }
  }

  lemma {:induction false} UnmatchedPart(c: Context, v: Value, w: Value)
    requires IsObject(c.heap, v) && Part(c, v) && Unmatched(c.heap, v, w)
    ensures Part(c, w)
  {
    if i :| 0 <= i < |ClosedMaps| && UnmatchedIn(c.heap, Get(c.heap, v, ClosedMaps[i]), ClosedMaps[i] == "dependencies", w) {
      var m := Get(c.heap, v, ClosedMaps[i]);
      GetPart(c, v, ClosedMaps[i]);
      var j :| 0 <= j < |Entries(c.heap, m)| && Entries(c.heap, m)[j].value == w;
      assert Values(Entries(c.heap, m))[j] == w;
      ContentsPart(c, m, w);
    } else {
      var i :| 0 <= i < |ClosedKeywords| && Get(c.heap, v, ClosedKeywords[i]) == w;
      GetPart(c, v, ClosedKeywords[i]);
    }
  }

  /** A graph without the annotation marks no location, so skipping its compilation misses nothing. */
  lemma {:induction false} NothingMarked(c: Context, v: Value, path: Path, n: nat)
    requires !AnyWriteOnly(c.heap, c.root) && Part(c, v)
    ensures !Marks(c, true, v, path, n)
    decreases n
  {
    if Marks(c, true, v, path, n) {
      assert !Annotated(c.heap, v);
      var w, rest := MarksThrough(c, v, path, n);
      if Unmatched(c.heap, v, w) {
        UnmatchedPart(c, v, w);
      } else if InPlace(c, v, w) && rest == path {
        InPlacePart(c, v, w);
      } else {
        DescendsPart(c, v, path[0], w);
      }
      NothingMarked(c, w, rest, n - 1);
    }
  }

  /* ---- Reporting private arguments ------------------------------------------------------- */

  /** The values handed to the visitor, in order. */
  ghost function Visited(args: Json, c: Context): seq<Json> {
    if !AnyWriteOnly(c.heap, c.root) then []
    else
      match Compile(c.(union := true))
      case None => [args]
      case Some(plan) =>
        match Apply(args, plan, 0)
        case TooDeep => [args]
        case Done(_, marks) => marks
  }

  method VisitPrivateCallArguments(args: Json, c: Context) returns (visits: seq<Json>)
    ensures visits == Visited(args, c)
  {
    var found := FindPrivate(c.heap, c.root);
    if !found { return []; }
    var plan := RunCompile(c.(union := true));
    if plan.None? { return [args]; }
    match Apply(args, plan.value, 0) {
      case TooDeep => return [args];
      case Done(_, marks) => return marks;
    }
  }

  lemma {:induction false} ModeMarks(c: Context, v: Value, path: Path, n: nat)
    requires Marks(c, true, v, path, n)
    ensures Marks(c.(union := true), true, v, path, n)
    decreases n
  {
    var u := c.(union := true);
    if !WriteOnly(c.heap, v) {
      var w, rest := MarksThrough(c, v, path, n);
      ModeMarks(c, w, rest, n - 1);
      assert InPlace(c, v, w) <==> InPlace(u, v, w) by {
        assert Reference(c, Get(c.heap, v, "$ref")) == Reference(u, Get(c.heap, v, "$ref"));
      }
    }
  }

  /**
   * Every private value among the arguments is handed to the visitor, itself or inside a value that is;
   * when the schema is unresolved the whole argument is. Without any annotation there is none to hand over.
   */
  lemma {:induction false} EveryPrivateVisited(args: Json, c: Context, path: Path)
    requires Plain(c.heap) && Proper(args) && Private(c, true, path) && At(args, path).Some?
    ensures Reported(args, path, Visited(args, c))
  {
    var n: nat :| Marks(c, true, c.root, path, n);
    RootPart(c);
    if !AnyWriteOnly(c.heap, c.root) { NothingMarked(c, c.root, path, n); }
    var u := c.(union := true);
    if Compile(u).Some? {
      ModeMarks(c, c.root, path, n);
      CompiledExactly(u, path);
      CompiledApplies(args, u);
      HiddenIsMarked(args, Compile(u).value, 0, path);
    } else {
      assert At(args, path[..0]) == Some(args);
    }
  }

  /**
   * Nothing else is visited: the whole argument when the schema has the annotation but does not compile,
   * and otherwise values at private locations only.
   */
  lemma {:induction false} OnlyPrivateVisited(args: Json, c: Context)
    requires Plain(c.heap) && Proper(args)
    ensures var u := c.(union := true);
      && (AnyWriteOnly(c.heap, c.root) && !Compilable(u) ==> Visited(args, c) == [args])
      && (Compilable(u) || !AnyWriteOnly(c.heap, c.root) ==>
            forall x :: x in Visited(args, c) ==> exists path :: Private(u, true, path) && At(args, path) == Some(x))
  {
    var u := c.(union := true);
    CompilesIff(u);
    if Compile(u).Some? {
      CompiledApplies(args, u);
      forall x | x in Visited(args, c) ensures exists path :: Private(u, true, path) && At(args, path) == Some(x) {
        MarkedIsHidden(args, Compile(u).value, 0, x);
        var path :| HiddenAt(args, Compile(u).value, path) && At(args, path) == Some(x);
        CompiledExactly(u, path);
      }
    }
  }
}
