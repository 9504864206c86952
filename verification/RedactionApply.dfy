/** Applying a plan to a JSON value: what is dropped, what is kept and what is reported. */
module RedactionApply {
  import opened Options
  import opened RedactionPlan
  import opened RedactionSchema
  import opened RedactionSoundness

  /** Scalars are known by their text. */
  datatype Json = Scalar(text: string) | Sequence(elements: seq<Json>) | Record(fields: seq<Member>)

  datatype Member = Member(name: string, value: Json)

  predicate DistinctFields(fields: seq<Member>) {
    forall i, j :: 0 <= i < j < |fields| ==> fields[i].name != fields[j].name
  }

  /** Objects do not repeat a name. */
  predicate Proper(v: Json) {
    match v
    case Scalar(_) => true
    case Sequence(es) => forall i :: 0 <= i < |es| ==> Proper(es[i])
    case Record(fs) => DistinctFields(fs) && forall i :: 0 <= i < |fs| ==> Proper(fs[i].value)
  }

  /* ---- The applier ----------------------------------------------------------------------- */

  /** The outcome, and the values reported as private on the way. */
  datatype Applied<T> = TooDeep | Done(out: T, marks: seq<Json>)

  function Width(v: Json): nat {
    match v case Scalar(_) => 0 case Sequence(es) => |es| case Record(fs) => |fs|
  }

  /** `None` is the omitted value. An array with an omitted element is omitted whole, so that no index shifts. */
  function Apply(v: Json, p: Plan, depth: nat): Applied<Option<Json>>
    decreases v, Width(v) + 1
  {
    if !Sensitive(p) then Done(Some(v), [])
    else if depth > MaxDepth then TooDeep
    else if p.Omit? then Done(None, [v])
    else
      match v
      case Scalar(_) => Done(Some(v), [])
      case Sequence(es) =>
        (match ApplyElements(v, p, 0, depth)
         case TooDeep => TooDeep
         case Done(out, marks) => Done(if out.Some? then Some(Sequence(out.value)) else None, marks))
      case Record(fs) =>
        (match ApplyFields(v, p, 0, depth)
         case TooDeep => TooDeep
         case Done(out, marks) => Done(Some(Record(out)), marks))
  }

  /** The elements from `i` on, or nothing once one of them is omitted; every element is still looked at. */
  function ApplyElements(v: Json, p: Plan, i: nat, depth: nat): Applied<Option<seq<Json>>>
    requires v.Sequence? && p.Open? && i <= |v.elements|
    decreases v, |v.elements| - i
  {
    if i == |v.elements| then Done(Some([]), [])
    else
      match Apply(v.elements[i], Item(p, i), depth + 1)
      case TooDeep => TooDeep
      case Done(first, marks) =>
        match ApplyElements(v, p, i + 1, depth)
        case TooDeep => TooDeep
        case Done(rest, more) =>
          Done(if first.Some? && rest.Some? then Some([first.value] + rest.value) else None, marks + more)
  }

  function ApplyFields(v: Json, p: Plan, i: nat, depth: nat): Applied<seq<Member>>
    requires v.Record? && p.Open? && i <= |v.fields|
    decreases v, |v.fields| - i
  {
    if i == |v.fields| then Done([], [])
    else
      match Apply(v.fields[i].value, Field(p, v.fields[i].name), depth + 1)
      case TooDeep => TooDeep
      case Done(first, marks) =>
        match ApplyFields(v, p, i + 1, depth)
        case TooDeep => TooDeep
        case Done(rest, more) =>
          Done((if first.Some? then [Member(v.fields[i].name, first.value)] else []) + rest, marks + more)
  }

  /* ---- Locations ------------------------------------------------------------------------- */

  function FieldAt(fields: seq<Member>, k: string): Option<Json> {
    if fields == [] then None
    else if fields[0].name == k then Some(fields[0].value)
    else FieldAt(fields[1..], k)
  }

  function Down(v: Json, s: Step): Option<Json> {
    match s
    case Key(k) => if v.Record? then FieldAt(v.fields, k) else None
    case Index(i) => if v.Sequence? && i < |v.elements| then Some(v.elements[i]) else None
  }

  /** The value at a location, if there is one. */
  function At(v: Json, path: Path): Option<Json>
    decreases path
  {
    if path == [] then Some(v)
    else
      match Down(v, path[0])
      case None => None
      case Some(w) => At(w, path[1..])
  }

  lemma {:induction false} FieldAtIndex(fields: seq<Member>, i: nat)
    requires DistinctFields(fields) && i < |fields|
    ensures FieldAt(fields, fields[i].name) == Some(fields[i].value)
  {
    if i > 0 {
      assert fields[0].name != fields[i].name;
      assert fields[1..][i - 1] == fields[i];
      FieldAtIndex(fields[1..], i - 1);
    }
  }

  lemma {:induction false} FieldAtFound(fields: seq<Member>, k: string) returns (i: nat)
    requires FieldAt(fields, k).Some?
    ensures i < |fields| && fields[i] == Member(k, FieldAt(fields, k).value)
  {
    if fields[0].name == k {
      i := 0;
    } else {
      i := FieldAtFound(fields[1..], k);
      i := i + 1;
    }
  }

  lemma {:induction false} ProperDown(v: Json, s: Step)
    requires Proper(v) && Down(v, s).Some?
    ensures Proper(Down(v, s).value)
  {
    if s.Key? { var i := FieldAtFound(v.fields, s.name); }
  }

  /* ---- Depth ----------------------------------------------------------------------------- */

  /** A compiled plan is never too deep to apply. */
  lemma {:induction false} NeverTooDeep(v: Json, p: Plan, depth: nat)
    requires depth <= MaxDepth && Within(p, MaxDepth - depth)
    ensures Apply(v, p, depth).Done?
    decreases v, Width(v) + 1
  {
    if Sensitive(p) && p.Open? {
      if v.Sequence? { ElementsNotDeep(v, p, 0, depth); }
      if v.Record? { FieldsNotDeep(v, p, 0, depth); }
    }
  }

  lemma {:induction false} ElementsNotDeep(v: Json, p: Plan, i: nat, depth: nat)
    requires v.Sequence? && p.Open? && Sensitive(p) && i <= |v.elements|
    requires depth <= MaxDepth && Within(p, MaxDepth - depth)
    ensures ApplyElements(v, p, i, depth).Done?
    decreases v, |v.elements| - i
  {
    if i < |v.elements| {
      WithinUnder(p, Index(i), MaxDepth - depth);
      NeverTooDeep(v.elements[i], Item(p, i), depth + 1);
      ElementsNotDeep(v, p, i + 1, depth);
    }
  }

  lemma {:induction false} FieldsNotDeep(v: Json, p: Plan, i: nat, depth: nat)
    requires v.Record? && p.Open? && Sensitive(p) && i <= |v.fields|
    requires depth <= MaxDepth && Within(p, MaxDepth - depth)
    ensures ApplyFields(v, p, i, depth).Done?
    decreases v, |v.fields| - i
  {
    if i < |v.fields| {
      WithinUnder(p, Key(v.fields[i].name), MaxDepth - depth);
      NeverTooDeep(v.fields[i].value, Field(p, v.fields[i].name), depth + 1);
      FieldsNotDeep(v, p, i + 1, depth);
    }
  }

  /* ---- One level ------------------------------------------------------------------------- */

  /** What becomes of one element or field. */
  function Part(w: Json, p: Plan, depth: nat): Option<Json> {
    match Apply(w, p, depth) case TooDeep => None case Done(out, _) => out
  }

  lemma {:induction false} ElementsAre(v: Json, p: Plan, i: nat, depth: nat)
    requires v.Sequence? && p.Open? && i <= |v.elements| && ApplyElements(v, p, i, depth).Done?
    ensures forall k :: i <= k < |v.elements| ==> Apply(v.elements[k], Item(p, k), depth + 1).Done?
    ensures var out := ApplyElements(v, p, i, depth).out;
      && (out.None? <==> exists k :: i <= k < |v.elements| && Part(v.elements[k], Item(p, k), depth + 1).None?)
      && (out.Some? ==>
            && |out.value| == |v.elements| - i
            && forall k :: i <= k < |v.elements| ==>
                             Part(v.elements[k], Item(p, k), depth + 1) == Some(out.value[k - i]))
    decreases |v.elements| - i
  {
    if i < |v.elements| { ElementsAre(v, p, i + 1, depth); }
  }

  /** Looking up a field of the output is looking it up in the input and keeping what is left of it. */
  lemma {:induction false} FieldsAre(v: Json, p: Plan, i: nat, depth: nat, k: string)
    requires v.Record? && p.Open? && i <= |v.fields| && DistinctFields(v.fields) && ApplyFields(v, p, i, depth).Done?
    ensures forall j :: i <= j < |v.fields| ==> Apply(v.fields[j].value, Field(p, v.fields[j].name), depth + 1).Done?
    ensures var out := ApplyFields(v, p, i, depth).out;
      var was := FieldAt(v.fields[i..], k);
      FieldAt(out, k) == if was.None? then None else Part(was.value, Field(p, k), depth + 1)
    decreases |v.fields| - i
  {
    if i < |v.fields| {
      FieldsAre(v, p, i + 1, depth, k);
      assert v.fields[i..][1..] == v.fields[i + 1..];
      var out, rest := ApplyFields(v, p, i, depth).out, ApplyFields(v, p, i + 1, depth).out;
      var first := Part(v.fields[i].value, Field(p, v.fields[i].name), depth + 1);
      if first.Some? { assert out[0] == Member(v.fields[i].name, first.value) && out[1..] == rest; }
      else { assert out == rest; }
      if v.fields[i].name == k { NotLater(v.fields, i); }
    }
  }

  lemma {:induction false} NotLater(fields: seq<Member>, i: nat)
    requires DistinctFields(fields) && i < |fields|
    ensures FieldAt(fields[i + 1..], fields[i].name) == None
  {
    var later := fields[i + 1..];
    assert forall j :: 0 <= j < |later| ==> later[j].name != fields[i].name;
    if FieldAt(later, fields[i].name).Some? { var j := FieldAtFound(later, fields[i].name); }
  }

  /** One step down the output of a sensitive plan that does not omit the whole. */
  lemma {:induction false} OutDown(v: Json, p: Plan, depth: nat, s: Step)
    requires Proper(v) && p.Open? && Sensitive(p) && Apply(v, p, depth).Done? && Apply(v, p, depth).out.Some?
    ensures Down(v, s).Some? ==> Apply(Down(v, s).value, Under(p, s), depth + 1).Done?
    ensures Down(Apply(v, p, depth).out.value, s)
            == if Down(v, s).None? then None else Part(Down(v, s).value, Under(p, s), depth + 1)
  {
    if v.Sequence? { ElementsAre(v, p, 0, depth); }
    if v.Record? {
      if s.Key? {
        FieldsAre(v, p, 0, depth, s.name);
        assert v.fields[0..] == v.fields;
        if Down(v, s).Some? { var j := FieldAtFound(v.fields, s.name); }
      }
    }
  }
}
