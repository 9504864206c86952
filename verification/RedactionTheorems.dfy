/** What redaction guarantees: nothing private gets out, nothing shifts, and everything private is reported. */
module RedactionTheorems {
  import opened Options
  import opened RedactionPlan
  import opened RedactionSchema
  import opened RedactionSoundness
  import opened RedactionCompiles
  import opened RedactionApply

  /* ---- What is omitted ------------------------------------------------------------------- */

  predicate Indices(path: Path) {
    forall i :: 0 <= i < |path| ==> path[i].Index?
  }

  predicate HiddenAt(v: Json, p: Plan, path: Path) { At(v, path).Some? && Hides(p, path) }

  /** A hidden value sits at the top or inside arrays nested from the top. */
  ghost predicate Vanishes(v: Json, p: Plan) {
    exists r :: Indices(r) && HiddenAt(v, p, r)
  }

  lemma {:induction false} OmittedIff(v: Json, p: Plan, depth: nat)
    requires Apply(v, p, depth).Done?
    ensures Apply(v, p, depth).out.None? <==> Vanishes(v, p)
    decreases v
  {
    if !Sensitive(p) {
      forall r ensures !Hides(p, r) { PublicHidesNothing(r); }
    } else if p.Omit? {
      assert Indices([]) && HiddenAt(v, p, []);
    } else if v.Sequence? {
      ElementsAre(v, p, 0, depth);
      forall k | 0 <= k < |v.elements|
        ensures Part(v.elements[k], Item(p, k), depth + 1).None? <==> Vanishes(v.elements[k], Item(p, k))
      {
        OmittedIff(v.elements[k], Item(p, k), depth + 1);
      }
      ElementVanishes(v, p);
    }
  }

  lemma {:induction false} ElementVanishes(v: Json, p: Plan)
    requires v.Sequence? && p.Open?
    ensures Vanishes(v, p) <==> exists k :: 0 <= k < |v.elements| && Vanishes(v.elements[k], Item(p, k))
  {
    if Vanishes(v, p) {
      var r: Path :| Indices(r) && HiddenAt(v, p, r);
      assert r != [];
      assert Indices(r[1..]) && HiddenAt(v.elements[r[0].i], Item(p, r[0].i), r[1..]);
      assert Vanishes(v.elements[r[0].i], Item(p, r[0].i));
    }
    if k :| 0 <= k < |v.elements| && Vanishes(v.elements[k], Item(p, k)) {
      var r: Path :| Indices(r) && HiddenAt(v.elements[k], Item(p, k), r);
      var r' := [Index(k)] + r;
      assert r'[1..] == r;
      assert Indices(r') && HiddenAt(v, p, r');
    }
  }

  /** A hidden location at `path`, or reached from one of its prefixes through arrays alone, forces it out. */
  ghost predicate Gone(v: Json, p: Plan, path: Path) {
    exists n, r :: 0 <= n <= |path| && Indices(r) && HiddenAt(v, p, path[..n] + r)
  }

  lemma {:induction false} GoneDown(v: Json, p: Plan, path: Path)
    requires p.Open? && path != [] && Down(v, path[0]).Some?
    ensures Gone(v, p, path) <==> Vanishes(v, p) || Gone(Down(v, path[0]).value, Under(p, path[0]), path[1..])
  {
    if Gone(v, p, path) { GoneByStep(v, p, path); }
    if Vanishes(v, p) {
      var r: Path :| Indices(r) && HiddenAt(v, p, r);
      assert path[..0] + r == r;
      assert HiddenAt(v, p, path[..0] + r);
    }
    if Gone(Down(v, path[0]).value, Under(p, path[0]), path[1..]) { GoneBelow(v, p, path); }
  }

  lemma {:induction false} GoneByStep(v: Json, p: Plan, path: Path)
    requires p.Open? && path != [] && Down(v, path[0]).Some? && Gone(v, p, path)
    ensures Vanishes(v, p) || Gone(Down(v, path[0]).value, Under(p, path[0]), path[1..])
  {
    var n, r :| 0 <= n <= |path| && Indices(r) && HiddenAt(v, p, path[..n] + r);
    if n == 0 {
      assert path[..0] + r == r;
    } else {
      assert (path[..n] + r)[1..] == path[1..][..n - 1] + r;
      assert HiddenAt(Down(v, path[0]).value, Under(p, path[0]), path[1..][..n - 1] + r);
    }
  }

  lemma {:induction false} GoneBelow(v: Json, p: Plan, path: Path)
    requires p.Open? && path != [] && Down(v, path[0]).Some?
    requires Gone(Down(v, path[0]).value, Under(p, path[0]), path[1..])
    ensures Gone(v, p, path)
  {
    var s, w := path[0], Down(v, path[0]).value;
    var n, r :| 0 <= n <= |path[1..]| && Indices(r) && HiddenAt(w, Under(p, s), path[1..][..n] + r);
    assert (path[..n + 1] + r)[1..] == path[1..][..n] + r;
    assert HiddenAt(v, p, path[..n + 1] + r);
  }

  lemma {:induction false} GoneHere(v: Json, p: Plan)
    ensures Gone(v, p, []) <==> Vanishes(v, p)
  {
    if Gone(v, p, []) {
      var n, r :| 0 <= n <= 0 && Indices(r) && HiddenAt(v, p, [][..n] + r);
      assert [][..n] + r == r;
    }
    if r: Path :| Indices(r) && HiddenAt(v, p, r) { assert HiddenAt(v, p, [][..0] + r) by { assert [][..0] + r == r; } }
  }

  /** The same scalar, an array of the same length, or again an object. */
  predicate Alike(w: Json, out: Json) {
    match w
    case Scalar(_) => out == w
    case Sequence(es) => out.Sequence? && |out.elements| == |es|
    case Record(_) => out.Record?
  }

  lemma {:induction false} OutAlike(v: Json, p: Plan, depth: nat)
    requires Apply(v, p, depth).Done? && Apply(v, p, depth).out.Some?
    ensures Alike(v, Apply(v, p, depth).out.value)
  {
    if Sensitive(p) && p.Open? && v.Sequence? { ElementsAre(v, p, 0, depth); }
  }

  /**
   * A location survives exactly when nothing forces it out. Survivors keep their scalars, and arrays their
   * length, so the element at an index is the one that was there.
   */
  lemma {:induction false} Survives(v: Json, p: Plan, depth: nat, path: Path)
    requires Proper(v) && Apply(v, p, depth).Done? && Apply(v, p, depth).out.Some?
    ensures var out := At(Apply(v, p, depth).out.value, path);
      && (out.Some? <==> At(v, path).Some? && !Gone(v, p, path))
      && (out.Some? ==> Alike(At(v, path).value, out.value))
    decreases path
  {
    OmittedIff(v, p, depth);
    OutAlike(v, p, depth);
    if !Sensitive(p) {
      forall q ensures !Hides(p, q) { PublicHidesNothing(q); }
      if At(v, path).Some? { AlikeSelf(At(v, path).value); }
    } else if path == [] {
      GoneHere(v, p);
    } else {
      OutDown(v, p, depth, path[0]);
      if Down(v, path[0]).Some? { SurvivesDown(v, p, depth, path); }
    }
  }

  lemma {:induction false} AlikeSelf(w: Json)
    ensures Alike(w, w)
  {
  }

  lemma {:induction false} SurvivesDown(v: Json, p: Plan, depth: nat, path: Path)
    requires Proper(v) && Apply(v, p, depth).Done? && Apply(v, p, depth).out.Some? && Sensitive(p) && p.Open?
    requires path != [] && Down(v, path[0]).Some? && !Vanishes(v, p)
    requires Apply(Down(v, path[0]).value, Under(p, path[0]), depth + 1).Done?
    requires Down(Apply(v, p, depth).out.value, path[0]) == Part(Down(v, path[0]).value, Under(p, path[0]), depth + 1)
    ensures var out := At(Apply(v, p, depth).out.value, path);
      && (out.Some? <==> At(v, path).Some? && !Gone(v, p, path))
      && (out.Some? ==> Alike(At(v, path).value, out.value))
    decreases path, 0
  {
    var w, q := Down(v, path[0]).value, Under(p, path[0]);
    GoneDown(v, p, path);
    ProperDown(v, path[0]);
    OmittedIff(w, q, depth + 1);
    if Apply(w, q, depth + 1).out.Some? {
      Survives(w, q, depth + 1, path[1..]);
    } else {
      VanishedGone(w, q, path[1..]);
    }
  }

  lemma {:induction false} VanishedGone(v: Json, p: Plan, path: Path)
    requires Vanishes(v, p)
    ensures Gone(v, p, path)
  {
    var r: Path :| Indices(r) && HiddenAt(v, p, r);
    assert path[..0] + r == r;
    assert HiddenAt(v, p, path[..0] + r);
  }

  /* ---- What is unchanged ----------------------------------------------------------------- */

  ghost predicate Untouched(v: Json, p: Plan) {
    forall path :: !HiddenAt(v, p, path)
  }

  lemma {:induction false} UntouchedDown(v: Json, p: Plan, s: Step)
    requires Untouched(v, p) && p.Open? && Down(v, s).Some?
    ensures Untouched(Down(v, s).value, Under(p, s))
  {
    forall path ensures !HiddenAt(Down(v, s).value, Under(p, s), path) {
      assert ([s] + path)[1..] == path;
      assert !HiddenAt(v, p, [s] + path);
    }
  }

  /** A value with no hidden location in it comes out as it was, with nothing reported. */
  lemma {:induction false} Unchanged(v: Json, p: Plan, depth: nat)
    requires Proper(v) && Apply(v, p, depth).Done? && Untouched(v, p)
    ensures Apply(v, p, depth) == Done(Some(v), [])
    decreases v, Width(v) + 1
  {
    assert !HiddenAt(v, p, []);
    if Sensitive(p) && p.Open? {
      if v.Sequence? {
        ElementsUnchanged(v, p, 0, depth);
        assert v.elements[0..] == v.elements;
      }
      if v.Record? {
        FieldsUnchanged(v, p, 0, depth);
        assert v.fields[0..] == v.fields;
      }
    }
  }

  lemma {:induction false} ElementsUnchanged(v: Json, p: Plan, i: nat, depth: nat)
    requires Proper(v) && v.Sequence? && p.Open? && i <= |v.elements| && Untouched(v, p)
    requires ApplyElements(v, p, i, depth).Done?
    ensures ApplyElements(v, p, i, depth) == Done(Some(v.elements[i..]), [])
    decreases v, |v.elements| - i
  {
    if i == |v.elements| {
      assert v.elements[i..] == [];
    } else {
      UntouchedDown(v, p, Index(i));
      Unchanged(v.elements[i], Item(p, i), depth + 1);
      ElementsUnchanged(v, p, i + 1, depth);
      assert v.elements[i..] == [v.elements[i]] + v.elements[i + 1..];
    }
  }

  lemma {:induction false} FieldsUnchanged(v: Json, p: Plan, i: nat, depth: nat)
    requires Proper(v) && v.Record? && p.Open? && i <= |v.fields| && Untouched(v, p)
    requires ApplyFields(v, p, i, depth).Done?
    ensures ApplyFields(v, p, i, depth) == Done(v.fields[i..], [])
    decreases v, |v.fields| - i
  {
    if i == |v.fields| {
      assert v.fields[i..] == [];
    } else {
      FieldAtIndex(v.fields, i);
      UntouchedDown(v, p, Key(v.fields[i].name));
      Unchanged(v.fields[i].value, Field(p, v.fields[i].name), depth + 1);
      FieldsUnchanged(v, p, i + 1, depth);
      assert v.fields[i..] == [Member(v.fields[i].name, v.fields[i].value)] + v.fields[i + 1..];
    }
  }

  /** A location with no hidden location at or below it, and none that forces it out, keeps its whole value. */
  lemma {:induction false} KeptWhole(v: Json, p: Plan, depth: nat, path: Path)
    requires Proper(v) && Apply(v, p, depth).Done? && Apply(v, p, depth).out.Some? && At(v, path).Some?
    requires !Gone(v, p, path) && forall more :: !HiddenAt(v, p, path + more)
    ensures At(Apply(v, p, depth).out.value, path) == At(v, path)
    decreases path
  {
    if path == [] {
      forall more ensures !HiddenAt(v, p, more) { assert path + more == more; }
      Unchanged(v, p, depth);
    } else if Sensitive(p) && p.Open? {
      var w, q := Down(v, path[0]).value, Under(p, path[0]);
      OutDown(v, p, depth, path[0]);
      ProperDown(v, path[0]);
      GoneDown(v, p, path);
      forall more ensures !HiddenAt(w, q, path[1..] + more) {
        assert (path + more)[1..] == path[1..] + more;
        assert !HiddenAt(v, p, path + more);
      }
      OmittedIff(w, q, depth + 1);
      if Vanishes(w, q) { VanishedGone(w, q, path[1..]); }
      KeptWhole(w, q, depth + 1, path[1..]);
    }
  }

  /* ---- What is reported ------------------------------------------------------------------ */

  /** Every reported value is the value of a hidden location. */
  lemma {:induction false} MarkedIsHidden(v: Json, p: Plan, depth: nat, x: Json)
    requires Proper(v) && Apply(v, p, depth).Done? && x in Apply(v, p, depth).marks
    ensures exists path :: HiddenAt(v, p, path) && At(v, path) == Some(x)
    decreases v, Width(v) + 1
  {
    if p.Omit? {
      assert HiddenAt(v, p, []) && At(v, []) == Some(x);
    } else if v.Sequence? {
      ElementMarked(v, p, 0, depth, x);
    } else {
      FieldMarked(v, p, 0, depth, x);
    }
  }

  lemma {:induction false} Deeper(v: Json, p: Plan, s: Step, x: Json)
    requires p.Open? && Down(v, s).Some?
    requires exists path :: HiddenAt(Down(v, s).value, Under(p, s), path) && At(Down(v, s).value, path) == Some(x)
    ensures exists path :: HiddenAt(v, p, path) && At(v, path) == Some(x)
  {
    var path :| HiddenAt(Down(v, s).value, Under(p, s), path) && At(Down(v, s).value, path) == Some(x);
    assert ([s] + path)[1..] == path;
    assert HiddenAt(v, p, [s] + path) && At(v, [s] + path) == Some(x);
  }

  lemma {:induction false} ElementMarked(v: Json, p: Plan, i: nat, depth: nat, x: Json)
    requires Proper(v) && v.Sequence? && p.Open? && i <= |v.elements|
    requires ApplyElements(v, p, i, depth).Done? && x in ApplyElements(v, p, i, depth).marks
    ensures exists path :: HiddenAt(v, p, path) && At(v, path) == Some(x)
    decreases v, |v.elements| - i
  {
    if x in Apply(v.elements[i], Item(p, i), depth + 1).marks {
      MarkedIsHidden(v.elements[i], Item(p, i), depth + 1, x);
      Deeper(v, p, Index(i), x);
    } else {
      ElementMarked(v, p, i + 1, depth, x);
    }
  }

  lemma {:induction false} FieldMarked(v: Json, p: Plan, i: nat, depth: nat, x: Json)
    requires Proper(v) && v.Record? && p.Open? && i <= |v.fields|
    requires ApplyFields(v, p, i, depth).Done? && x in ApplyFields(v, p, i, depth).marks
    ensures exists path :: HiddenAt(v, p, path) && At(v, path) == Some(x)
    decreases v, |v.fields| - i
  {
    var k := v.fields[i].name;
    if x in Apply(v.fields[i].value, Field(p, k), depth + 1).marks {
      MarkedIsHidden(v.fields[i].value, Field(p, k), depth + 1, x);
      FieldAtIndex(v.fields, i);
      Deeper(v, p, Key(k), x);
    } else {
      FieldMarked(v, p, i + 1, depth, x);
    }
  }

  lemma {:induction false} ElementMarks(v: Json, p: Plan, i: nat, depth: nat, k: nat)
    requires v.Sequence? && p.Open? && i <= k < |v.elements| && ApplyElements(v, p, i, depth).Done?
    ensures var part := Apply(v.elements[k], Item(p, k), depth + 1);
      part.Done? && forall x :: x in part.marks ==> x in ApplyElements(v, p, i, depth).marks
    decreases k - i
  {
    if i < k { ElementMarks(v, p, i + 1, depth, k); }
  }

  lemma {:induction false} FieldMarks(v: Json, p: Plan, i: nat, depth: nat, k: nat)
    requires v.Record? && p.Open? && i <= k < |v.fields| && ApplyFields(v, p, i, depth).Done?
    ensures var part := Apply(v.fields[k].value, Field(p, v.fields[k].name), depth + 1);
      part.Done? && forall x :: x in part.marks ==> x in ApplyFields(v, p, i, depth).marks
    decreases k - i
  {
    if i < k { FieldMarks(v, p, i + 1, depth, k); }
  }

  /** The values at the location or above it that are reported. */
  ghost predicate Reported(v: Json, path: Path, marks: seq<Json>) {
    exists n :: 0 <= n <= |path| && At(v, path[..n]).Some? && At(v, path[..n]).value in marks
  }

  /** Every hidden value is reported, itself or as part of a reported value that contains it. */
  lemma {:induction false} HiddenIsMarked(v: Json, p: Plan, depth: nat, path: Path)
    requires Proper(v) && Apply(v, p, depth).Done? && HiddenAt(v, p, path)
    ensures Reported(v, path, Apply(v, p, depth).marks)
    decreases path
  {
    PublicHidesNothing(path);
    var marks := Apply(v, p, depth).marks;
    if p.Omit? {
      assert At(v, path[..0]) == Some(v);
    } else {
      var s := path[0];
      var w, q := Down(v, s).value, Under(p, s);
      if s.Index? {
        ElementMarks(v, p, 0, depth, s.i);
      } else {
        var i := FieldAtFound(v.fields, s.name);
        FieldMarks(v, p, 0, depth, i);
      }
      ProperDown(v, s);
      HiddenIsMarked(w, q, depth + 1, path[1..]);
      var n :| 0 <= n <= |path[1..]| && At(w, path[1..][..n]).Some? && At(w, path[1..][..n]).value in Apply(w, q, depth + 1).marks;
      assert path[..n + 1][1..] == path[1..][..n];
      assert At(v, path[..n + 1]) == At(w, path[1..][..n]);
    }
  }

  /* ---- Non-interference ------------------------------------------------------------------ */

  /** What can be seen of a value without looking inside it. */
  datatype Shape = Leaf(text: string) | ArrayOf(length: nat) | ObjectOf(names: seq<string>)

  function FieldNames(fields: seq<Member>): (r: seq<string>)
    ensures |r| == |fields| && forall i :: 0 <= i < |r| ==> r[i] == fields[i].name
  {
    if fields == [] then [] else [fields[0].name] + FieldNames(fields[1..])
  }

  function ShapeOf(v: Json): Shape {
    match v
    case Scalar(text) => Leaf(text)
    case Sequence(es) => ArrayOf(|es|)
    case Record(fs) => ObjectOf(FieldNames(fs))
  }

  function Probe(v: Json, path: Path): Option<Shape> {
    match At(v, path) case None => None case Some(w) => Some(ShapeOf(w))
  }

  /** The two values differ only in what lies at or below hidden locations. */
  ghost predicate DifferInHidden(a: Json, b: Json, p: Plan) {
    forall path :: !Hides(p, path) ==> Probe(a, path) == Probe(b, path)
  }

  lemma {:induction false} DifferDown(a: Json, b: Json, p: Plan, s: Step)
    requires p.Open? && DifferInHidden(a, b, p) && Down(a, s).Some? && Down(b, s).Some?
    ensures DifferInHidden(Down(a, s).value, Down(b, s).value, Under(p, s))
  {
    forall path | !Hides(Under(p, s), path) ensures Probe(Down(a, s).value, path) == Probe(Down(b, s).value, path) {
      assert ([s] + path)[1..] == path;
      assert Probe(a, [s] + path) == Probe(b, [s] + path);
    }
  }

  lemma {:induction false} SameTop(a: Json, b: Json, p: Plan)
    requires p.Open? && DifferInHidden(a, b, p)
    ensures ShapeOf(a) == ShapeOf(b)
    ensures a.Scalar? ==> a == b
    ensures a.Sequence? ==> b.Sequence? && |a.elements| == |b.elements|
    ensures a.Record? ==> b.Record? && |a.fields| == |b.fields|
    ensures a.Record? ==> forall i :: 0 <= i < |a.fields| ==> a.fields[i].name == b.fields[i].name
  {
    assert Probe(a, []) == Probe(b, []);
    if a.Record? {
      forall i | 0 <= i < |a.fields| ensures a.fields[i].name == b.fields[i].name {
        assert FieldNames(a.fields)[i] == FieldNames(b.fields)[i];
      }
    }
  }

  /** Every part of two such values again differs only in what is hidden. */
  lemma {:induction false} PartsDiffer(a: Json, b: Json, p: Plan, i: nat)
    requires Proper(a) && Proper(b) && p.Open? && DifferInHidden(a, b, p) && !a.Scalar? && i < Width(a)
    ensures a.Sequence? ==> b.Sequence? && i < |b.elements| && DifferInHidden(a.elements[i], b.elements[i], Item(p, i))
    ensures a.Record? ==>
      && b.Record? && i < |b.fields| && a.fields[i].name == b.fields[i].name
      && DifferInHidden(a.fields[i].value, b.fields[i].value, Field(p, a.fields[i].name))
  {
    SameTop(a, b, p);
    if a.Sequence? {
      DifferDown(a, b, p, Index(i));
    } else {
      FieldAtIndex(a.fields, i);
      FieldAtIndex(b.fields, i);
      DifferDown(a, b, p, Key(a.fields[i].name));
    }
  }

  lemma {:induction false} PublicIsAll(a: Json, b: Json)
    requires Proper(a) && Proper(b) && DifferInHidden(a, b, Public)
    ensures a == b
    decreases a
  {
    SameTop(a, b, Public);
    if a.Sequence? {
      forall i | 0 <= i < |a.elements| ensures a.elements[i] == b.elements[i] {
        PartsDiffer(a, b, Public, i);
        PublicIsAll(a.elements[i], b.elements[i]);
      }
    } else if a.Record? {
      forall i | 0 <= i < |a.fields| ensures a.fields[i] == b.fields[i] {
        PartsDiffer(a, b, Public, i);
        PublicIsAll(a.fields[i].value, b.fields[i].value);
      }
    }
  }

  /** What is left of a value does not depend on anything at or below a hidden location. */
  lemma {:induction false} NonInterference(a: Json, b: Json, p: Plan, depth: nat)
    requires Proper(a) && Proper(b) && DifferInHidden(a, b, p)
    ensures Apply(a, p, depth).Done? <==> Apply(b, p, depth).Done?
    ensures Part(a, p, depth) == Part(b, p, depth)
    decreases a, Width(a) + 1
  {
    if !Sensitive(p) {
      PublicIsAll(a, b);
    } else if p.Open? && depth <= MaxDepth {
      SameTop(a, b, p);
      if a.Sequence? { SameElements(a, b, p, 0, depth); }
      if a.Record? { SameFields(a, b, p, 0, depth); }
    }
  }

  lemma {:induction false} SameElements(a: Json, b: Json, p: Plan, i: nat, depth: nat)
    requires Proper(a) && Proper(b) && p.Open? && DifferInHidden(a, b, p)
    requires a.Sequence? && b.Sequence? && i <= |a.elements| == |b.elements|
    ensures ApplyElements(a, p, i, depth).Done? <==> ApplyElements(b, p, i, depth).Done?
    ensures ApplyElements(a, p, i, depth).Done? ==> ApplyElements(a, p, i, depth).out == ApplyElements(b, p, i, depth).out
    decreases a, |a.elements| - i
  {
    if i < |a.elements| {
      PartsDiffer(a, b, p, i);
      NonInterference(a.elements[i], b.elements[i], Item(p, i), depth + 1);
      SameElements(a, b, p, i + 1, depth);
    }
  }

  lemma {:induction false} SameFields(a: Json, b: Json, p: Plan, i: nat, depth: nat)
    requires Proper(a) && Proper(b) && p.Open? && DifferInHidden(a, b, p)
    requires a.Record? && b.Record? && i <= |a.fields| == |b.fields|
    ensures ApplyFields(a, p, i, depth).Done? <==> ApplyFields(b, p, i, depth).Done?
    ensures ApplyFields(a, p, i, depth).Done? ==> ApplyFields(a, p, i, depth).out == ApplyFields(b, p, i, depth).out
    decreases a, |a.fields| - i
  {
    if i < |a.fields| {
      PartsDiffer(a, b, p, i);
      NonInterference(a.fields[i].value, b.fields[i].value, Field(p, a.fields[i].name), depth + 1);
      SameFields(a, b, p, i + 1, depth);
    }
  }

  /* ---- The echo -------------------------------------------------------------------------- */

  /** What the caller sees: possibly no value, and whether anything was withheld. */
  datatype Echo = Echo(value: Option<Json>, redacted: bool)

  /** Strict compilation; any failure withholds the whole value. */
  function RedactCallArguments(args: Json, c: Context): Echo {
    match Compile(c.(union := false))
    case None => Echo(None, true)
    case Some(plan) =>
      match Apply(args, plan, 0)
      case TooDeep => Echo(None, true)
      case Done(out, marks) => Echo(out, marks != [])
  }

  lemma {:induction false} CompiledApplies(args: Json, c: Context)
    requires Plain(c.heap) && Compile(c).Some?
    ensures Apply(args, Compile(c).value, 0).Done?
  {
    CompiledWithin(c);
    NeverTooDeep(args, Compile(c).value, 0);
  }

  lemma {:induction false} CompiledWithin(c: Context)
    requires Plain(c.heap) && Compile(c).Some?
    ensures Within(Compile(c).value, MaxDepth)
  {
    WalkWithin(c, c.root, 0, 0, {});
  }

  /** The echo of arguments does not depend on any private value, whatever the schema. */
  lemma {:induction false} EchoNeverLeaks(a: Json, b: Json, c: Context)
    requires Plain(c.heap) && Proper(a) && Proper(b) && !c.union
    requires forall path :: !Private(c, true, path) ==> Probe(a, path) == Probe(b, path)
    ensures RedactCallArguments(a, c).value == RedactCallArguments(b, c).value
  {
    assert c.(union := false) == c;
    if Compile(c).Some? {
      var plan := Compile(c).value;
      forall path | !Hides(plan, path) ensures Probe(a, path) == Probe(b, path) { CompiledExactly(c, path); }
      NonInterference(a, b, plan, 0);
      CompiledApplies(a, c);
      CompiledApplies(b, c);
    }
  }

  /** A private value of the arguments sits at the top or inside arrays nested from the top. */
  ghost predicate PrivateOutside(args: Json, c: Context) {
    exists r :: Indices(r) && Private(c, true, r) && At(args, r).Some?
  }

  /**
   * The echo owns up to withholding exactly when the schema does not compile or a private value is present;
   * it has no value exactly when the schema does not compile or omission reaches the top; one that claims to
   * be complete is the whole value, and nothing private is in any.
   */
  lemma {:induction false} EchoIsHonest(args: Json, c: Context)
    requires Plain(c.heap) && Proper(args) && !c.union
    ensures var echo := RedactCallArguments(args, c);
      && (echo.redacted <==> !Compilable(c) || exists path :: Private(c, true, path) && At(args, path).Some?)
      && (echo.value.None? <==> !Compilable(c) || PrivateOutside(args, c))
      && (!echo.redacted ==> echo.value == Some(args))
      && (echo.value.Some? ==> forall path :: Private(c, true, path) ==> At(echo.value.value, path).None?)
  {
    assert c.(union := false) == c;
    CompilesIff(c);
    if Compile(c).Some? {
      var plan, echo := Compile(c).value, RedactCallArguments(args, c);
      CompiledApplies(args, c);
      var marks := Apply(args, plan, 0).marks;
      if Untouched(args, plan) { Unchanged(args, plan, 0); }
      forall path ensures Hides(plan, path) <==> Private(c, true, path) { CompiledExactly(c, path); }
      OmittedIff(args, plan, 0);
      if path :| HiddenAt(args, plan, path) {
        HiddenIsMarked(args, plan, 0, path);
        assert marks != [];
        assert Private(c, true, path) && At(args, path).Some?;
      }
      if marks != [] { MarkedIsHidden(args, plan, 0, marks[0]); }
      if echo.value.Some? {
        forall path | Private(c, true, path) ensures At(echo.value.value, path).None? { NoSurvivor(args, plan, path); }
      }
    }
  }

  lemma {:induction false} NoSurvivor(v: Json, p: Plan, path: Path)
    requires Proper(v) && Apply(v, p, 0).Done? && Apply(v, p, 0).out.Some? && Hides(p, path)
    ensures At(Apply(v, p, 0).out.value, path).None?
  {
    Survives(v, p, 0, path);
    if At(v, path).Some? {
      assert path[..|path|] + [] == path;
      assert Indices([]) && HiddenAt(v, p, path[..|path|] + []);
    }
  }
}
