/**
 * Compiling a JSON schema to a sensitivity plan. A schema is a graph of objects and
 * arrays with identity, so that shared and cyclic schemas are inputs like any other.
 */
module RedactionSchema {
  import opened Options
  import opened RedactionPlan

  const MaxDepth: nat := 32
  const MaxSchemas: nat := 2048

  /* ---- Schema graphs --------------------------------------------------------------------- */

  datatype Value = Undefined | Null | Bool(b: bool) | Number | Str(s: string) | Pointer(ref: nat)

  datatype Entry = Entry(name: string, value: Value)

  datatype Node = Object(entries: seq<Entry>) | Array(elements: seq<Value>)

  type Heap = map<nat, Node>

  /** One compilation: the graph, its root, the URI decoder, and whether alternatives are united. */
  datatype Context = Context(heap: Heap, root: Value, decode: string -> Option<string>, union: bool)

  /** Own property names of an object are distinct. */
  predicate Distinct(entries: seq<Entry>) {
    forall i, j :: 0 <= i < j < |entries| ==> entries[i].name != entries[j].name
  }

  predicate Plain(h: Heap) {
    forall r :: r in h && h[r].Object? ==> Distinct(h[r].entries)
  }

  predicate IsObject(h: Heap, v: Value) { v.Pointer? && v.ref in h && h[v.ref].Object? }

  predicate IsArray(h: Heap, v: Value) { v.Pointer? && v.ref in h && h[v.ref].Array? }

  function Entries(h: Heap, v: Value): seq<Entry>
    requires IsObject(h, v)
  {
    h[v.ref].entries
  }

  function Elements(h: Heap, v: Value): seq<Value>
    requires IsArray(h, v)
  {
    h[v.ref].elements
  }

  predicate HasKey(entries: seq<Entry>, k: string) {
    exists i :: 0 <= i < |entries| && entries[i].name == k
  }

  function Find(entries: seq<Entry>, k: string): Value {
    if entries == [] then Undefined
    else if entries[0].name == k then entries[0].value
    else Find(entries[1..], k)
  }

  /** `schema[k]` */
  function Get(h: Heap, v: Value, k: string): Value
    requires IsObject(h, v)
  {
    Find(Entries(h, v), k)
  }

  lemma {:induction false} FindAt(entries: seq<Entry>, i: nat)
    requires Distinct(entries) && i < |entries|
    ensures Find(entries, entries[i].name) == entries[i].value
  {
    if i > 0 {
      assert entries[0].name != entries[i].name;
      assert entries[1..][i - 1] == entries[i];
      FindAt(entries[1..], i - 1);
    }
  }

  lemma {:induction false} FoundAt(entries: seq<Entry>, k: string) returns (i: nat)
    requires Find(entries, k) != Undefined
    ensures i < |entries| && entries[i] == Entry(k, Find(entries, k))
  {
    if entries[0].name == k {
      i := 0;
    } else {
      var j := FoundAt(entries[1..], k);
      i := j + 1;
    }
  }

  /* ---- References (JSON pointers, RFC 6901) ----------------------------------------------- */

  function Split(s: string): (r: seq<string>)
    ensures |r| > 0
  {
    if s == [] then [""]
    else if s[0] == '/' then [""] + Split(s[1..])
    else var rest := Split(s[1..]); [[s[0]] + rest[0]] + rest[1..]
  }

  /** A tilde is followed by 0 or 1. */
  predicate Escaped(s: string) {
    forall i :: 0 <= i < |s| && s[i] == '~' ==> i + 1 < |s| && (s[i + 1] == '0' || s[i + 1] == '1')
  }

  /** Replace every `~d` by one character, from left to right. */
  function Replace(s: string, d: char, c: char): string {
    if s == [] then []
    else if |s| > 1 && s[0] == '~' && s[1] == d then [c] + Replace(s[2..], d, c)
    else [s[0]] + Replace(s[1..], d, c)
  }

  function Unescape(s: string): string { Replace(Replace(s, '1', '/'), '0', '~') }

  function Digits(n: nat): string {
    if n < 10 then ["0123456789"[n]] else Digits(n / 10) + ["0123456789"[n % 10]]
  }

  function ElementNamed(elements: seq<Value>, k: string, n: nat): Option<Value>
    requires n <= |elements|
  {
    if n == 0 then None
    else if Digits(n - 1) == k then Some(elements[n - 1])
    else ElementNamed(elements, k, n - 1)
  }

  /** The value of an own property; an array owns its indices and its length. */
  function Own(h: Heap, v: Value, k: string): Option<Value> {
    if IsObject(h, v) then
      if HasKey(Entries(h, v), k) then Some(Get(h, v, k)) else None
    else if IsArray(h, v) then
      if k == "length" then Some(Number) else ElementNamed(Elements(h, v), k, |Elements(h, v)|)
    else None
  }

  function Follow(h: Heap, v: Value, tokens: seq<string>): Option<Value>
    decreases tokens
  {
    if tokens == [] then Some(v)
    else if !Escaped(tokens[0]) then None
    else
      match Own(h, v, Unescape(tokens[0]))
      case None => None
      case Some(w) => Follow(h, w, tokens[1..])
  }

  function Reference(c: Context, ref: Value): Option<Value> {
    if !ref.Str? || |ref.s| == 0 || ref.s[0] != '#' then None
    else
      match c.decode(ref.s[1..])
      case None => None
      case Some(pointer) =>
        if pointer == "" then Some(c.root)
        else if pointer[0] != '/' then None
        else Follow(c.heap, c.root, Split(pointer[1..]))
  }

  /* ---- What the keywords of one schema apply to what ------------------------------------- */

  /** How the plans of a group of subschemas enter the plan of the schema. */
  datatype Role = Skip | All | Either | Fields(names: seq<string>) | Positions(n: nat) | Closed

  datatype Section = Section(role: Role, values: seq<Value>)

  predicate Fits(role: Role, count: nat) {
    match role
    case Skip => count == 0
    case Either => count > 0
    case Fields(names) => |names| == count
    case Positions(n) => n <= count <= n + 1
    case _ => true
  }

  predicate Wellformed(sections: seq<Section>) {
    forall i :: 0 <= i < |sections| ==> Fits(sections[i].role, |sections[i].values|)
  }

  const Nothing: Section := Section(Skip, [])

  function RefSection(c: Context, v: Value): Option<Section>
    requires IsObject(c.heap, v)
  {
    var ref := Get(c.heap, v, "$ref");
    if ref == Undefined then Some(Nothing)
    else
      match Reference(c, ref)
      case None => None
      case Some(target) => Some(Section(All, [target]))
  }

  function Names(entries: seq<Entry>): (r: seq<string>)
    ensures |r| == |entries| && forall i :: 0 <= i < |r| ==> r[i] == entries[i].name
  {
    if entries == [] then [] else [entries[0].name] + Names(entries[1..])
  }

  function Values(entries: seq<Entry>): (r: seq<Value>)
    ensures |r| == |entries| && forall i :: 0 <= i < |r| ==> r[i] == entries[i].value
  {
    if entries == [] then [] else [entries[0].value] + Values(entries[1..])
  }

  function PropertySection(c: Context, v: Value): Option<Section>
    requires IsObject(c.heap, v)
  {
    var properties := Get(c.heap, v, "properties");
    if properties == Undefined then Some(Nothing)
    else if !IsObject(c.heap, properties) then None
    else Some(Section(Fields(Names(Entries(c.heap, properties))), Values(Entries(c.heap, properties))))
  }

  /** `a ?? b`: null and undefined give way. */
  predicate Nullish(v: Value) { v == Undefined || v == Null }

  function Prefixes(h: Heap, v: Value): Value
    requires IsObject(h, v)
  {
    if !Nullish(Get(h, v, "prefixItems")) then Get(h, v, "prefixItems")
    else if IsArray(h, Get(h, v, "items")) then Get(h, v, "items")
    else Undefined
  }

  function Tail(h: Heap, v: Value): Value
    requires IsObject(h, v)
  {
    if IsArray(h, Get(h, v, "items")) then Get(h, v, "additionalItems") else Get(h, v, "items")
  }

  function ArraySection(c: Context, v: Value): Option<Section>
    requires IsObject(c.heap, v)
  {
    var prefixes, tail := Prefixes(c.heap, v), Tail(c.heap, v);
    if prefixes != Undefined && !IsArray(c.heap, prefixes) then None
    else if Get(c.heap, v, "prefixItems") != Undefined && IsArray(c.heap, Get(c.heap, v, "items")) then None
    else
      var first := if prefixes == Undefined then [] else Elements(c.heap, prefixes);
      Some(Section(Positions(|first|), first + if tail == Undefined then [] else [tail]))
  }

  function BranchSection(c: Context, v: Value, keyword: string, role: Role): Option<Section>
    requires IsObject(c.heap, v)
  {
    var branches := Get(c.heap, v, keyword);
    if branches == Undefined then Some(Nothing)
    else if !IsArray(c.heap, branches) || Elements(c.heap, branches) == [] then None
    else Some(Section(role, Elements(c.heap, branches)))
  }

  /** Applicators whose matching rules are not implemented: their subschemas must be public. */
  const ClosedKeywords: seq<string> :=
    ["additionalProperties", "unevaluatedProperties", "unevaluatedItems", "contains", "not", "if", "then", "else"]

  const ClosedMaps: seq<string> := ["patternProperties", "dependentSchemas", "dependencies"]

  function ClosedValues(h: Heap, v: Value, keywords: seq<string>): seq<Value>
    requires IsObject(h, v)
  {
    if keywords == [] then []
    else
      var w := Get(h, v, keywords[0]);
      (if w == Undefined then [] else [w]) + ClosedValues(h, v, keywords[1..])
  }

  /** A list among the dependencies names required properties and holds no schema. */
  function SchemasOf(h: Heap, entries: seq<Entry>, lists: bool): seq<Value> {
    if entries == [] then []
    else
      var w := entries[0].value;
      (if lists && IsArray(h, w) then [] else [w]) + SchemasOf(h, entries[1..], lists)
  }

  function MapValues(h: Heap, v: Value, keywords: seq<string>): Option<seq<Value>>
    requires IsObject(h, v)
  {
    if keywords == [] then Some([])
    else
      var w := Get(h, v, keywords[0]);
      match MapValues(h, v, keywords[1..])
      case None => None
      case Some(rest) =>
        if w == Undefined then Some(rest)
        else if !IsObject(h, w) then None
        else Some(SchemasOf(h, Entries(h, w), keywords[0] == "dependencies") + rest)
  }

  function ClosedSection(c: Context, v: Value): Option<Section>
    requires IsObject(c.heap, v)
  {
    match MapValues(c.heap, v, ClosedMaps)
    case None => None
    case Some(values) => Some(Section(Closed, ClosedValues(c.heap, v, ClosedKeywords) + values))
  }

  /** The sections of a schema in the order they are compiled, or none when a keyword is malformed. */
  function Sections(c: Context, v: Value): (r: Option<seq<Section>>)
    requires IsObject(c.heap, v)
    ensures r.Some? ==> |r.value| == 7 && Wellformed(r.value)
  {
    var ref, props, arr := RefSection(c, v), PropertySection(c, v), ArraySection(c, v);
    var allOf, oneOf := BranchSection(c, v, "allOf", All), BranchSection(c, v, "oneOf", Either);
    var anyOf, rest := BranchSection(c, v, "anyOf", Either), ClosedSection(c, v);
    if ref.None? || props.None? || arr.None? || allOf.None? || oneOf.None? || anyOf.None? || rest.None? then None
    else Some([ref.value, props.value, arr.value, allOf.value, oneOf.value, anyOf.value, rest.value])
  }

  /* ---- Compiling ------------------------------------------------------------------------- */

  function MergeAll(plan: Plan, plans: seq<Plan>): Plan
    decreases plans
  {
    if plans == [] then plan else MergeAll(Merge(plan, plans[0]), plans[1..])
  }

  predicate AllSame(plans: seq<Plan>) {
    forall j :: 0 <= j < |plans| ==> plans[j] == plans[0]
  }

  predicate AllPublic(plans: seq<Plan>) {
    forall j :: 0 <= j < |plans| ==> !Sensitive(plans[j])
  }

  function FieldPlans(names: seq<string>, plans: seq<Plan>): map<string, Plan>
    requires |names| == |plans|
  {
    if names == [] then map[]
    else
      var n := |names| - 1;
      var rest := FieldPlans(names[..n], plans[..n]);
      if Sensitive(plans[n]) then rest[names[n] := plans[n]] else rest
  }

  function ArrayPlan(n: nat, plans: seq<Plan>): Plan
    requires n <= |plans|
  {
    Open(map[], plans[..n], if n < |plans| then Some(plans[n]) else None)
  }

  function Combine(plan: Plan, role: Role, plans: seq<Plan>, union: bool): Option<Plan>
    requires Fits(role, |plans|)
  {
    match role
    case Skip => Some(plan)
    case All => Some(MergeAll(plan, plans))
    case Either =>
      if union then Some(MergeAll(plan, plans))
      else if AllSame(plans) then Some(Merge(plan, plans[0]))
      else None
    case Fields(names) => Some(Merge(plan, Open(FieldPlans(names, plans), [], None)))
    case Positions(n) => Some(Merge(plan, ArrayPlan(n, plans)))
    case Closed => if AllPublic(plans) then Some(plan) else None
  }

  /** A finished walk: what was built, and how many schemas have been visited so far. */
  datatype Walked<T> = Refused | Built(result: T, visited: nat)

  function Remaining(depth: nat): nat { if depth > MaxDepth then 0 else MaxDepth + 1 - depth }

  /** Schemas that stop the walk before any keyword is read. */
  function Early(c: Context, v: Value, active: set<nat>): Option<Option<Plan>> {
    if v.Bool? then Some(Some(Public))
    else if !IsObject(c.heap, v) || v.ref in active then Some(None)
    else if Get(c.heap, v, "writeOnly") != Undefined && !Get(c.heap, v, "writeOnly").Bool? then Some(None)
    else if Get(c.heap, v, "writeOnly") == Bool(true) then Some(Some(Omit))
    else if v != c.root && Get(c.heap, v, "$id") != Undefined then Some(None)
    else if Get(c.heap, v, "$dynamicRef") != Undefined || Get(c.heap, v, "$recursiveRef") != Undefined then Some(None)
    else None
  }

  function Walk(c: Context, v: Value, depth: nat, visited: nat, active: set<nat>): Walked<Plan>
    decreases Remaining(depth), 0, 0
  {
    if visited + 1 > MaxSchemas || depth > MaxDepth then Refused
    else
      match Early(c, v, active)
      case Some(None) => Refused
      case Some(Some(plan)) => Built(plan, visited + 1)
      case None =>
        match Sections(c, v)
        case None => Refused
        case Some(sections) => WalkSections(c, Public, sections, depth, visited + 1, active + {v.ref})
  }

  function WalkSections(
    c: Context, plan: Plan, sections: seq<Section>, depth: nat, visited: nat, active: set<nat>): Walked<Plan>
    requires depth <= MaxDepth && Wellformed(sections)
    decreases Remaining(depth + 1), 2, |sections|
  {
    if sections == [] then Built(plan, visited)
    else
      match WalkAll(c, sections[0].values, depth + 1, visited, active)
      case Refused => Refused
      case Built(plans, seen) =>
        match Combine(plan, sections[0].role, plans, c.union)
        case None => Refused
        case Some(next) => WalkSections(c, next, sections[1..], depth, seen, active)
  }

  function WalkAll(c: Context, values: seq<Value>, depth: nat, visited: nat, active: set<nat>): (r: Walked<seq<Plan>>)
    ensures r.Built? ==> |r.result| == |values|
    decreases Remaining(depth), 1, |values|
  {
    if values == [] then Built([], visited)
    else
      match Walk(c, values[0], depth, visited, active)
      case Refused => Refused
      case Built(plan, seen) =>
        match WalkAll(c, values[1..], depth, seen, active)
        case Refused => Refused
        case Built(plans, total) => Built([plan] + plans, total)
  }

  function Compile(c: Context): Option<Plan> {
    match Walk(c, c.root, 0, 0, {}) case Refused => None case Built(plan, _) => Some(plan)
  }
}
