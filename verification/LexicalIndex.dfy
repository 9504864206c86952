/**
 * Lexical search over tools. An index of a whole catalog is kept and projected onto the tools
 * a request may see; it must answer as a fresh index of just those tools would.
 */
module LexicalIndex {
  import opened Options

  /** What is indexed of a tool: the tokens of its name, title, description summary, and description tail. */
  datatype Doc = Doc(name: string, zones: seq<seq<string>>)

  const Zones: nat := 4

  /** A tool object; two objects are different tools even when their texts agree. */
  datatype Tool = Tool(id: nat, doc: Doc)

  predicate Has(doc: Doc, z: nat, token: string) { z < |doc.zones| && token in doc.zones[z] }

  /** Where a token occurs in a zone, in order. */
  function Positions(docs: seq<Doc>, z: nat, token: string): seq<nat> {
    if docs == [] then []
    else
      var n := |docs| - 1;
      Positions(docs[..n], z, token) + if Has(docs[n], z, token) then [n] else []
  }

  lemma {:induction false} PositionsAre(docs: seq<Doc>, z: nat, token: string)
    ensures forall i :: i in Positions(docs, z, token) <==> 0 <= i < |docs| && Has(docs[i], z, token)
  {
    if docs != [] {
      var n := |docs| - 1;
      PositionsAre(docs[..n], z, token);
    }
  }

  type Postings = map<string, seq<nat>>

  datatype Index = Index(docs: seq<Doc>, postings: seq<Postings>)

  /** Exactly the occurring tokens are posted, each with all its positions in order. */
  ghost predicate Posts(m: Postings, docs: seq<Doc>, z: nat) {
    && (forall token :: token in m <==> Positions(docs, z, token) != [])
    && (forall token :: token in m ==> m[token] == Positions(docs, z, token))
  }

  ghost predicate Built(index: Index, docs: seq<Doc>) {
    index.docs == docs && |index.postings| == Zones && forall z :: 0 <= z < Zones ==> Posts(index.postings[z], docs, z)
  }

  /** An index is determined by what is indexed, so a kept one is the fresh one. */
  lemma {:induction false} BuiltOnce(a: Index, b: Index, docs: seq<Doc>)
    requires Built(a, docs) && Built(b, docs)
    ensures a == b
  {
    forall z | 0 <= z < Zones ensures a.postings[z] == b.postings[z] {
      assert Posts(a.postings[z], docs, z) && Posts(b.postings[z], docs, z);
      assert a.postings[z].Keys == b.postings[z].Keys by {
        assert forall token :: token in a.postings[z] <==> token in b.postings[z];
      }
    }
  }

  function Tokens(words: seq<string>): set<string> { set w | w in words }

  lemma {:induction false} PositionsNext(docs: seq<Doc>, z: nat, position: nat, token: string)
    requires position < |docs|
    ensures Positions(docs[..position + 1], z, token)
            == Positions(docs[..position], z, token) + if Has(docs[position], z, token) then [position] else []
  {
    assert docs[..position + 1][..position] == docs[..position] && docs[..position + 1][position] == docs[position];
  }

  /** One more document: each of its tokens gains its position, and no other token changes. */
  lemma {:induction false} PostsNext(m: Postings, r: Postings, docs: seq<Doc>, z: nat, position: nat)
    requires position < |docs| && Posts(m, docs[..position], z)
    requires forall token :: token in r <==> token in m || Has(docs[position], z, token)
    requires forall token :: token in r ==>
      r[token] == (if token in m then m[token] else []) + if Has(docs[position], z, token) then [position] else []
    ensures Posts(r, docs[..position + 1], z)
  {
    forall token: string
      ensures token in r <==> Positions(docs[..position + 1], z, token) != []
      ensures token in r ==> r[token] == Positions(docs[..position + 1], z, token)
    {
      PositionsNext(docs, z, position, token);
    }
  }

  /** Post the tokens of one zone of the next document. */
  method PostZone(m: Postings, words: seq<string>, position: nat) returns (r: Postings)
    ensures forall token :: token in r <==> token in m || token in words
    ensures forall token :: token in r ==>
      r[token] == (if token in m then m[token] else []) + if token in words then [position] else []
  {
    r := m;
    var todo := Tokens(words);
    while todo != {}
      invariant todo <= Tokens(words)
      invariant forall token :: token in r <==> token in m || (token in words && token !in todo)
      invariant forall token :: token in r ==>
        r[token] == (if token in m then m[token] else []) + if token in words && token !in todo then [position] else []
      decreases todo
    {
      var token :| token in todo;
      var positions := if token in r then r[token] else [];
      r := r[token := positions + [position]];
      todo := todo - {token};
    }
  }

  method BuildIndex(docs: seq<Doc>) returns (index: Index)
    requires forall i :: 0 <= i < |docs| ==> |docs[i].zones| == Zones
    ensures Built(index, docs)
  {
    var postings: seq<Postings> := [map[], map[], map[], map[]];
    for position := 0 to |docs|
      invariant |postings| == Zones && forall z :: 0 <= z < Zones ==> Posts(postings[z], docs[..position], z)
    {
      for z := 0 to Zones
        invariant |postings| == Zones
        invariant forall y :: 0 <= y < z ==> Posts(postings[y], docs[..position + 1], y)
        invariant forall y :: z <= y < Zones ==> Posts(postings[y], docs[..position], y)
      {
        var zone := PostZone(postings[z], docs[position].zones[z], position);
        PostsNext(postings[z], zone, docs, z, position);
        postings := postings[z := zone];
      }
    }
    assert docs[..|docs|] == docs;
    index := Index(docs, postings);
  }

  /* ---- Views ------------------------------------------------------------------------------ */

  datatype View = View(index: Index, tools: map<nat, Tool>)

  function Docs(tools: seq<Tool>): (r: seq<Doc>)
    ensures |r| == |tools| && forall i :: 0 <= i < |r| ==> r[i] == tools[i].doc
  {
    if tools == [] then [] else Docs(tools[..|tools| - 1]) + [tools[|tools| - 1].doc]
  }

  function Bind(tools: seq<Tool>, index: Index): View {
    View(index, map i: nat | i < |tools| :: tools[i])
  }

  /** Project the index onto the tools that are visible. */
  function Carry(view: View, visible: seq<Tool>): View {
    View(view.index, map i | i in view.tools && view.tools[i] in visible :: view.tools[i])
  }

  /** The tools whose zone holds one of the candidate tokens, looked up in the postings. */
  ghost function Matched(view: View, z: nat, candidates: set<string>): set<Tool>
    requires z < |view.index.postings|
  {
    var m := view.index.postings[z];
    set i | i in view.tools && (exists token :: token in candidates && token in m && i in m[token]) :: view.tools[i]
  }

  /** The same, said of the tools themselves. */
  ghost function Hits(tools: seq<Tool>, z: nat, candidates: set<string>): set<Tool> {
    set t | t in tools && exists token :: token in candidates && Has(t.doc, z, token)
  }

  lemma {:induction false} PostedAt(index: Index, docs: seq<Doc>, z: nat, token: string, i: nat)
    requires Built(index, docs) && z < Zones
    ensures (token in index.postings[z] && i in index.postings[z][token]) <==> i < |docs| && Has(docs[i], z, token)
  {
    assert Posts(index.postings[z], docs, z);
    PositionsAre(docs, z, token);
  }

  /** A view that shows some positions of an indexed catalog matches exactly the shown tools that qualify. */
  lemma {:induction false} MatchedShown(source: seq<Tool>, index: Index, view: View, z: nat, candidates: set<string>)
    requires Built(index, Docs(source)) && z < Zones && view.index == index
    requires forall i :: i in view.tools ==> i < |source| && view.tools[i] == source[i]
    ensures forall t :: t in Matched(view, z, candidates) <==>
      exists i :: i in view.tools && view.tools[i] == t && exists token :: token in candidates && Has(t.doc, z, token)
  {
    forall i, token | i in view.tools
      ensures (token in index.postings[z] && i in index.postings[z][token]) <==> Has(source[i].doc, z, token)
    {
      PostedAt(index, Docs(source), z, token, i);
    }
  }

  /* ---- Agreement -------------------------------------------------------------------------- */

  predicate Distinct(tools: seq<Tool>) {
    forall i, j :: 0 <= i < j < |tools| ==> tools[i] != tools[j]
  }

  /** The tools of `source` that are in `visible`, in the order of `source`. */
  function Keep(source: seq<Tool>, visible: seq<Tool>): seq<Tool> {
    if source == [] then []
    else (if source[0] in visible then [source[0]] else []) + Keep(source[1..], visible)
  }

  /** `visible` leaves out some of `source` and keeps the rest in order. */
  predicate Sublist(visible: seq<Tool>, source: seq<Tool>) {
    if visible == [] then true
    else source != [] && (if visible[0] == source[0] then Sublist(visible[1..], source[1..]) else Sublist(visible, source[1..]))
  }

  lemma {:induction false} SublistIn(visible: seq<Tool>, source: seq<Tool>)
    requires Sublist(visible, source)
    ensures forall t :: t in visible ==> t in source
    decreases source
  {
    if visible != [] {
      assert forall t :: t in visible <==> t == visible[0] || t in visible[1..];
      assert forall t :: t in source <==> t == source[0] || t in source[1..];
      if visible[0] == source[0] { SublistIn(visible[1..], source[1..]); } else { SublistIn(visible, source[1..]); }
    }
  }

  /** Leaving out more still keeps the rest in order. */
  lemma {:induction false} SublistLater(visible: seq<Tool>, source: seq<Tool>)
    requires source != [] && Sublist(visible, source[1..])
    ensures Sublist(visible, source)
    decreases |source|, 0
  {
    if visible != [] && visible[0] == source[0] { SublistRest(visible, source[1..]); }
  }

  lemma {:induction false} SublistRest(visible: seq<Tool>, source: seq<Tool>)
    requires visible != [] && Sublist(visible, source)
    ensures Sublist(visible[1..], source)
    decreases |source|, 1
  {
    if visible[0] != source[0] { SublistRest(visible, source[1..]); }
    SublistLater(visible[1..], source);
  }

  lemma {:induction false} SublistTrans(a: seq<Tool>, b: seq<Tool>, c: seq<Tool>)
    requires Sublist(a, b) && Sublist(b, c)
    ensures Sublist(a, c)
    decreases |c|
  {
    if a != [] {
      if b[0] != c[0] {
        SublistTrans(a, b, c[1..]);
        SublistLater(a, c);
      } else if a[0] == b[0] {
        SublistTrans(a[1..], b[1..], c[1..]);
      } else {
        SublistTrans(a, b[1..], c[1..]);
      }
    }
  }

  lemma {:induction false} SublistSelf(tools: seq<Tool>)
    ensures Sublist(tools, tools)
  {
    if tools != [] { SublistSelf(tools[1..]); }
  }

  lemma {:induction false} KeepNone(source: seq<Tool>, visible: seq<Tool>)
    requires forall t :: t in source ==> t !in visible
    ensures Keep(source, visible) == []
  {
    if source != [] { KeepNone(source[1..], visible); }
  }

  /** Whether more tools are named that `source` does not hold makes no difference. */
  lemma {:induction false} KeepSame(source: seq<Tool>, a: seq<Tool>, b: seq<Tool>)
    requires forall t :: t in source ==> (t in a <==> t in b)
    ensures Keep(source, a) == Keep(source, b)
  {
    if source != [] { KeepSame(source[1..], a, b); }
  }

  /** A sublist of distinct tools is what projecting onto its members keeps. */
  lemma {:induction false} SublistKept(visible: seq<Tool>, source: seq<Tool>)
    requires Sublist(visible, source) && Distinct(source)
    ensures Keep(source, visible) == visible
    decreases source
  {
    if visible == [] {
      KeepNone(source, visible);
    } else {
      var rest := source[1..];
      assert forall i :: 0 <= i < |rest| ==> rest[i] == source[i + 1];
      assert source[0] !in rest;
      if visible[0] == source[0] {
        SublistKept(visible[1..], rest);
        SublistIn(visible[1..], rest);
        KeepSame(rest, visible, visible[1..]);
      } else {
        SublistKept(visible, rest);
        SublistIn(visible, rest);
      }
    }
  }

  /** The view shows exactly the visible tools of the indexed catalog. */
  predicate Shows(view: View, source: seq<Tool>, visible: seq<Tool>) {
    && (forall i :: i in view.tools ==> i < |source| && source[i] in visible && view.tools[i] == source[i])
    && (forall i :: 0 <= i < |source| && source[i] in visible ==> i in view.tools)
  }

  lemma {:induction false} HitsShown(
    source: seq<Tool>, index: Index, view: View, visible: seq<Tool>, z: nat, candidates: set<string>)
    requires Built(index, Docs(source)) && z < Zones && view.index == index && Shows(view, source, visible)
    requires forall t :: t in visible ==> t in source
    ensures Matched(view, z, candidates) == Hits(visible, z, candidates)
  {
    MatchedShown(source, index, view, z, candidates);
    forall t | t in Hits(visible, z, candidates) ensures t in Matched(view, z, candidates) {
      var i :| 0 <= i < |source| && source[i] == t;
      assert i in view.tools && view.tools[i] == t;
    }
  }

  lemma {:induction false} BindShows(tools: seq<Tool>, index: Index)
    ensures Shows(Bind(tools, index), tools, tools)
  {
  }

  /** Projecting a projection shows what the last one leaves. */
  lemma {:induction false} CarryShows(view: View, source: seq<Tool>, shown: seq<Tool>, visible: seq<Tool>)
    requires Shows(view, source, shown) && forall t :: t in visible ==> t in shown
    ensures Shows(Carry(view, visible), source, visible)
  {
  }

  /** Project again and again, each time onto tools of the projection before. */
  function CarryAll(view: View, chain: seq<seq<Tool>>): View {
    if chain == [] then view else Carry(CarryAll(view, chain[..|chain| - 1]), chain[|chain| - 1])
  }

  /** What is left of the source at the end of a chain of projections. */
  function Shown(source: seq<Tool>, chain: seq<seq<Tool>>): seq<Tool> {
    if chain == [] then source else chain[|chain| - 1]
  }

  /** Each projection leaves out some tools of the one before and keeps the rest in order. */
  predicate Narrowing(source: seq<Tool>, chain: seq<seq<Tool>>) {
    chain != [] ==>
      Narrowing(source, chain[..|chain| - 1]) && Sublist(chain[|chain| - 1], Shown(source, chain[..|chain| - 1]))
  }

  lemma {:induction false} NarrowingShows(source: seq<Tool>, index: Index, chain: seq<seq<Tool>>)
    requires Narrowing(source, chain)
    ensures Sublist(Shown(source, chain), source)
    ensures CarryAll(Bind(source, index), chain).index == index
    ensures Shows(CarryAll(Bind(source, index), chain), source, Shown(source, chain))
  {
    if chain == [] {
      BindShows(source, index);
      SublistSelf(source);
    } else {
      var n := |chain| - 1;
      NarrowingShows(source, index, chain[..n]);
      SublistIn(chain[n], Shown(source, chain[..n]));
      CarryShows(CarryAll(Bind(source, index), chain[..n]), source, Shown(source, chain[..n]), chain[n]);
      SublistTrans(chain[n], Shown(source, chain[..n]), source);
    }
  }

  /** The kept index, projected however often, matches what a fresh index of the tools that are left would. */
  lemma {:induction false} MatchesAgree(
    source: seq<Tool>, kept: Index, chain: seq<seq<Tool>>, anew: Index, z: nat, candidates: set<string>)
    requires Built(kept, Docs(source)) && Narrowing(source, chain) && Built(anew, Docs(Shown(source, chain))) && z < Zones
    ensures CarryAll(Bind(source, kept), chain).index == kept
    ensures Matched(CarryAll(Bind(source, kept), chain), z, candidates) == Hits(Shown(source, chain), z, candidates)
    ensures Matched(Bind(Shown(source, chain), anew), z, candidates) == Hits(Shown(source, chain), z, candidates)
  {
    var visible := Shown(source, chain);
    NarrowingShows(source, kept, chain);
    SublistIn(visible, source);
    BindShows(visible, anew);
    HitsShown(source, kept, CarryAll(Bind(source, kept), chain), visible, z, candidates);
    HitsShown(visible, anew, Bind(visible, anew), visible, z, candidates);
  }

  /* ---- Statistics and ranks ---------------------------------------------------------------- */

  /** Zone 0 is the name; only the tail, zone 3, is outside the head. */
  datatype Matches = Matches(name: set<Tool>, description: set<Tool>, head: set<Tool>)

  ghost function MatchesOf(view: View, candidates: set<string>): Matches
    requires |view.index.postings| == Zones
  {
    var name, title := Matched(view, 0, candidates), Matched(view, 1, candidates);
    var summary, tail := Matched(view, 2, candidates), Matched(view, 3, candidates);
    Matches(name, title + summary + tail, name + title + summary)
  }

  /** The tools a term occurs in, whatever the zone. */
  function Everywhere(m: Matches): set<Tool> { m.name + m.description }

  function Join(m: Matches, n: Matches): Matches {
    Matches(m.name + n.name, m.description + n.description, m.head + n.head)
  }

  /**
   * One tool set of a search: the view its index is read through, how many tools it has, and the tokens a
   * term stands for there.
   */
  datatype Catalog = Catalog(view: View, count: nat, candidates: string -> set<string>)

  datatype Statistics = Statistics(documentCount: nat, documentFrequency: map<string, nat>, matches: map<string, Matches>)

  ghost predicate Indexed(catalogs: seq<Catalog>) {
    forall i :: 0 <= i < |catalogs| ==> |catalogs[i].view.index.postings| == Zones
  }

  /** The tools a term matches in any of the tool sets. */
  ghost function TermMatches(catalogs: seq<Catalog>, term: string): Matches
    requires Indexed(catalogs)
  {
    if catalogs == [] then Matches({}, {}, {})
    else
      var last := catalogs[|catalogs| - 1];
      Join(TermMatches(catalogs[..|catalogs| - 1], term), MatchesOf(last.view, last.candidates(term)))
  }

  function DocumentCount(catalogs: seq<Catalog>): nat {
    if catalogs == [] then 0 else DocumentCount(catalogs[..|catalogs| - 1]) + catalogs[|catalogs| - 1].count
  }

  ghost function FrequencyMap(catalogs: seq<Catalog>, terms: seq<string>): map<string, nat>
    requires Indexed(catalogs)
  {
    map term | term in terms :: |Everywhere(TermMatches(catalogs, term))|
  }

  ghost function MatchMap(catalogs: seq<Catalog>, terms: seq<string>): map<string, Matches>
    requires Indexed(catalogs)
  {
    map term | term in terms :: TermMatches(catalogs, term)
  }

  /** Query statistics over every tool set: a tool counts once for a term, wherever and however often it occurs. */
  ghost function CorpusStatistics(catalogs: seq<Catalog>, terms: seq<string>): Statistics
    requires Indexed(catalogs)
  {
    Statistics(DocumentCount(catalogs), FrequencyMap(catalogs, terms), MatchMap(catalogs, terms))
  }

  /** A tool set whose kept index was projected along a chain, and a fresh index of what is left. */
  datatype Searched = Searched(
    source: seq<Tool>, kept: Index, chain: seq<seq<Tool>>, anew: Index, candidates: string -> set<string>)
  {
    function Visible(): seq<Tool> { Shown(source, chain) }

    ghost predicate Valid() {
      Built(kept, Docs(source)) && Narrowing(source, chain) && Built(anew, Docs(Visible()))
    }

    function Projected(): Catalog { Catalog(CarryAll(Bind(source, kept), chain), |Visible()|, candidates) }

    function Rebuilt(): Catalog { Catalog(Bind(Visible(), anew), |Visible()|, candidates) }
  }

  function AllProjected(sets: seq<Searched>): (r: seq<Catalog>)
    ensures |r| == |sets| && forall i :: 0 <= i < |r| ==> r[i] == sets[i].Projected()
  {
    if sets == [] then [] else AllProjected(sets[..|sets| - 1]) + [sets[|sets| - 1].Projected()]
  }

  function AllRebuilt(sets: seq<Searched>): (r: seq<Catalog>)
    ensures |r| == |sets| && forall i :: 0 <= i < |r| ==> r[i] == sets[i].Rebuilt()
  {
    if sets == [] then [] else AllRebuilt(sets[..|sets| - 1]) + [sets[|sets| - 1].Rebuilt()]
  }

  /** The tools that state one of the tokens in some zone, said of the tools themselves. */
  ghost function Stated(tools: seq<Tool>, candidates: set<string>): set<Tool> {
    set t | t in tools && exists z, token :: 0 <= z < Zones && token in candidates && Has(t.doc, z, token)
  }

  /** The visible tools of all the sets that state a term. */
  ghost function Stating(sets: seq<Searched>, term: string): set<Tool> {
    if sets == [] then {}
    else
      var last := sets[|sets| - 1];
      Stating(sets[..|sets| - 1], term) + Stated(last.Visible(), last.candidates(term))
  }

  ghost predicate AllValid(sets: seq<Searched>) { forall i :: 0 <= i < |sets| ==> sets[i].Valid() }

  lemma {:induction false} CatalogAgrees(one: Searched, term: string)
    requires one.Valid()
    ensures one.Projected().view.index == one.kept && one.Rebuilt().view.index == one.anew
    ensures MatchesOf(one.Rebuilt().view, one.candidates(term)) == MatchesOf(one.Projected().view, one.candidates(term))
    ensures Everywhere(MatchesOf(one.Projected().view, one.candidates(term))) == Stated(one.Visible(), one.candidates(term))
  {
    var candidates := one.candidates(term);
    MatchesAgree(one.source, one.kept, one.chain, one.anew, 0, candidates);
    MatchesAgree(one.source, one.kept, one.chain, one.anew, 1, candidates);
    MatchesAgree(one.source, one.kept, one.chain, one.anew, 2, candidates);
    MatchesAgree(one.source, one.kept, one.chain, one.anew, 3, candidates);
    ZonesOf(one.Visible(), candidates);
  }

  lemma {:induction false} ZonesOf(tools: seq<Tool>, candidates: set<string>)
    ensures Hits(tools, 0, candidates) + (Hits(tools, 1, candidates) + Hits(tools, 2, candidates) + Hits(tools, 3, candidates))
            == Stated(tools, candidates)
  {
    forall t | t in Stated(tools, candidates)
      ensures || t in Hits(tools, 0, candidates) || t in Hits(tools, 1, candidates) || t in Hits(tools, 2, candidates)
              || t in Hits(tools, 3, candidates)
    {
      var z, token :| 0 <= z < Zones && token in candidates && Has(t.doc, z, token);
      assert t in Hits(tools, z, candidates);
      assert z == 0 || z == 1 || z == 2 || z == 3;
    }
  }

  lemma {:induction false} BothIndexed(sets: seq<Searched>)
    requires AllValid(sets)
    ensures Indexed(AllProjected(sets)) && Indexed(AllRebuilt(sets))
  {
    forall i | 0 <= i < |sets|
      ensures |sets[i].Projected().view.index.postings| == Zones && |sets[i].Rebuilt().view.index.postings| == Zones
    {
      CatalogAgrees(sets[i], "");
    }
  }

  lemma {:induction false} CountsAgree(sets: seq<Searched>)
    ensures DocumentCount(AllProjected(sets)) == DocumentCount(AllRebuilt(sets))
  {
    if sets != [] {
      var n := |sets| - 1;
      CountsAgree(sets[..n]);
      assert AllProjected(sets)[..n] == AllProjected(sets[..n]) && AllRebuilt(sets)[..n] == AllRebuilt(sets[..n]);
    }
  }

  lemma {:induction false} EverywhereJoined(m: Matches, n: Matches)
    ensures Everywhere(Join(m, n)) == Everywhere(m) + Everywhere(n)
  {
  }

  /** One more tool set. */
  lemma {:induction false} TermMatchesMore(catalogs: seq<Catalog>, last: Catalog, term: string)
    requires Indexed(catalogs + [last])
    ensures Indexed(catalogs)
    ensures TermMatches(catalogs + [last], term) == Join(TermMatches(catalogs, term), MatchesOf(last.view, last.candidates(term)))
  {
    var more := catalogs + [last];
    assert more[..|more| - 1] == catalogs && more[|more| - 1] == last;
    assert forall i :: 0 <= i < |catalogs| ==> catalogs[i] == more[i];
  }

  lemma {:induction false} TermsAgree(sets: seq<Searched>, term: string)
    requires AllValid(sets)
    ensures Indexed(AllProjected(sets)) && Indexed(AllRebuilt(sets))
    ensures TermMatches(AllProjected(sets), term) == TermMatches(AllRebuilt(sets), term)
    ensures Everywhere(TermMatches(AllProjected(sets), term)) == Stating(sets, term)
  {
    BothIndexed(sets);
    if sets != [] {
      var n := |sets| - 1;
      TermsAgree(sets[..n], term);
      TermMatchesMore(AllProjected(sets[..n]), sets[n].Projected(), term);
      TermMatchesMore(AllRebuilt(sets[..n]), sets[n].Rebuilt(), term);
      CatalogAgrees(sets[n], term);
      EverywhereJoined(TermMatches(AllProjected(sets[..n]), term), MatchesOf(sets[n].Projected().view, sets[n].candidates(term)));
    }
  }

  ghost predicate SameTerm(a: seq<Catalog>, b: seq<Catalog>, term: string)
    requires Indexed(a) && Indexed(b)
  {
    TermMatches(a, term) == TermMatches(b, term)
  }

  lemma {:induction false} MapsAgree(a: seq<Catalog>, b: seq<Catalog>, terms: seq<string>)
    requires Indexed(a) && Indexed(b) && forall term :: term in terms ==> SameTerm(a, b, term)
    ensures FrequencyMap(a, terms) == FrequencyMap(b, terms) && MatchMap(a, terms) == MatchMap(b, terms)
  {
    forall term | term in terms ensures FrequencyMap(a, terms)[term] == FrequencyMap(b, terms)[term] {
      assert SameTerm(a, b, term);
    }
    forall term | term in terms ensures MatchMap(a, terms)[term] == MatchMap(b, terms)[term] {
      assert SameTerm(a, b, term);
    }
  }

  /**
   * The statistics of a whole query are the same through the projected indexes as through fresh ones: the
   * number of documents, the match sets, and each term's document frequency, which is the number of visible
   * tools of any set that state the term.
   */
  lemma {:induction false} StatisticsAgree(sets: seq<Searched>, terms: seq<string>)
    requires AllValid(sets)
    ensures Indexed(AllProjected(sets)) && Indexed(AllRebuilt(sets))
    ensures CorpusStatistics(AllProjected(sets), terms) == CorpusStatistics(AllRebuilt(sets), terms)
    ensures forall term :: term in terms ==>
      CorpusStatistics(AllProjected(sets), terms).documentFrequency[term] == |Stating(sets, term)|
  {
    BothIndexed(sets);
    CountsAgree(sets);
    forall term | term in terms
      ensures SameTerm(AllProjected(sets), AllRebuilt(sets), term)
      ensures |Everywhere(TermMatches(AllProjected(sets), term))| == |Stating(sets, term)|
    {
      TermsAgree(sets, term);
    }
    MapsAgree(AllProjected(sets), AllRebuilt(sets), terms);
  }

  /* ---- What the statistics hold ------------------------------------------------------------ */

  ghost predicate StatedOf(t: Tool, z: nat, candidates: set<string>) {
    exists token :: token in candidates && Has(t.doc, z, token)
  }

  ghost predicate StatedInSet(one: Searched, term: string, t: Tool, z: nat) {
    t in one.Visible() && StatedOf(t, z, one.candidates(term))
  }

  /** The tool is visible in a set for which its zone states the term. */
  ghost predicate StatedIn(sets: seq<Searched>, term: string, t: Tool, z: nat) {
    exists i :: 0 <= i < |sets| && StatedInSet(sets[i], term, t, z)
  }

  lemma {:induction false} StatedInMore(sets: seq<Searched>, term: string, t: Tool, z: nat)
    requires sets != []
    ensures var n := |sets| - 1;
      StatedIn(sets, term, t, z) <==> StatedIn(sets[..n], term, t, z) || StatedInSet(sets[n], term, t, z)
  {
    var n := |sets| - 1;
    assert forall i :: 0 <= i < n ==> sets[..n][i] == sets[i];
    if StatedIn(sets[..n], term, t, z) {
      var i :| 0 <= i < n && StatedInSet(sets[..n][i], term, t, z);
      assert StatedInSet(sets[i], term, t, z);
    }
  }

  /** Name matches come from the name zone; of the description zones only the tail is outside the head. */
  predicate ByZone(m: Matches, t: Tool, name: bool, title: bool, summary: bool, tail: bool) {
    && (t in m.name <==> name)
    && (t in m.description <==> title || summary || tail)
    && (t in m.head <==> name || title || summary)
  }

  ghost predicate MatchesExactly(m: Matches, sets: seq<Searched>, term: string, t: Tool) {
    ByZone(m, t, StatedIn(sets, term, t, 0), StatedIn(sets, term, t, 1), StatedIn(sets, term, t, 2), StatedIn(sets, term, t, 3))
  }

  lemma {:induction false} ZoneExactly(one: Searched, term: string, t: Tool, z: nat)
    requires one.Valid() && z < Zones
    ensures one.Projected().view.index == one.kept && |one.kept.postings| == Zones
    ensures t in Matched(one.Projected().view, z, one.candidates(term)) <==> StatedInSet(one, term, t, z)
  {
    MatchesAgree(one.source, one.kept, one.chain, one.anew, z, one.candidates(term));
  }

  lemma {:induction false} MatchesByZone(view: View, candidates: set<string>, t: Tool)
    requires |view.index.postings| == Zones
    ensures ByZone(MatchesOf(view, candidates), t, t in Matched(view, 0, candidates), t in Matched(view, 1, candidates),
                   t in Matched(view, 2, candidates), t in Matched(view, 3, candidates))
  {
  }

  lemma {:induction false} SetExactly(one: Searched, term: string, t: Tool)
    requires one.Valid()
    ensures one.Projected().view.index == one.kept && |one.kept.postings| == Zones
    ensures ByZone(MatchesOf(one.Projected().view, one.candidates(term)), t, StatedInSet(one, term, t, 0),
                   StatedInSet(one, term, t, 1), StatedInSet(one, term, t, 2), StatedInSet(one, term, t, 3))
  {
    ZoneExactly(one, term, t, 0);
    ZoneExactly(one, term, t, 1);
    ZoneExactly(one, term, t, 2);
    ZoneExactly(one, term, t, 3);
    MatchesByZone(one.Projected().view, one.candidates(term), t);
  }

  lemma {:induction false} JoinExactly(m: Matches, n: Matches, sets: seq<Searched>, term: string, t: Tool)
    requires sets != [] && MatchesExactly(m, sets[..|sets| - 1], term, t)
    requires var last := sets[|sets| - 1];
      ByZone(n, t, StatedInSet(last, term, t, 0), StatedInSet(last, term, t, 1), StatedInSet(last, term, t, 2), StatedInSet(last, term, t, 3))
    ensures MatchesExactly(Join(m, n), sets, term, t)
  {
    StatedInMore(sets, term, t, 0);
    StatedInMore(sets, term, t, 1);
    StatedInMore(sets, term, t, 2);
    StatedInMore(sets, term, t, 3);
  }

  lemma {:induction false} TermExactly(sets: seq<Searched>, term: string, t: Tool)
    requires AllValid(sets) && Indexed(AllProjected(sets))
    ensures MatchesExactly(TermMatches(AllProjected(sets), term), sets, term, t)
  {
    if sets != [] {
      var n := |sets| - 1;
      var less, last := sets[..n], sets[n];
      BothIndexed(less);
      TermExactly(less, term, t);
      TermMatchesMore(AllProjected(less), last.Projected(), term);
      SetExactly(last, term, t);
      JoinExactly(
        TermMatches(AllProjected(less), term), MatchesOf(last.Projected().view, last.candidates(term)), sets, term, t);
    }
  }

  /** Every place at which a tool of some set is visible. */
  ghost function Places(sets: seq<Searched>): set<(nat, nat)> {
    set i: nat, k: nat | i < |sets| && k < |sets[i].Visible()| :: (i, k)
  }

  ghost function Row(i: nat, n: nat): set<(nat, nat)> { set k: nat | k < n :: (i, k) }

  lemma {:induction false} RowSize(i: nat, n: nat)
    ensures |Row(i, n)| == n
  {
    if n > 0 {
      RowSize(i, n - 1);
      assert Row(i, n) == Row(i, n - 1) + {(i, n - 1)};
    }
  }

  lemma {:induction false} PlacesMore(sets: seq<Searched>)
    requires sets != []
    ensures var n := |sets| - 1;
      && Places(sets) == Places(sets[..n]) + Row(n, |sets[n].Visible()|)
      && Places(sets[..n]) !! Row(n, |sets[n].Visible()|)
  {
  }

  lemma {:induction false} CountIsPlaces(sets: seq<Searched>)
    ensures DocumentCount(AllProjected(sets)) == |Places(sets)|
  {
    if sets != [] {
      var n := |sets| - 1;
      CountIsPlaces(sets[..n]);
      assert AllProjected(sets)[..n] == AllProjected(sets[..n]);
      PlacesMore(sets);
      RowSize(n, |sets[n].Visible()|);
    }
  }

  /**
   * The statistics in terms of the tools themselves: every visible tool of every set is counted, and a tool
   * is among a term's matches exactly by the zones in which it states the term.
   */
  lemma {:induction false} StatisticsExactly(sets: seq<Searched>, terms: seq<string>, term: string, t: Tool)
    requires AllValid(sets) && term in terms
    ensures Indexed(AllProjected(sets))
    ensures CorpusStatistics(AllProjected(sets), terms).documentCount == |Places(sets)|
    ensures MatchesExactly(CorpusStatistics(AllProjected(sets), terms).matches[term], sets, term, t)
  {
    BothIndexed(sets);
    TermExactly(sets, term, t);
    CountIsPlaces(sets);
  }

  datatype Ranked<R> = Ranked(tool: Tool, order: nat, score: R)

  /** Documents are scored in index order; those without a visible tool are passed over and not counted. */
  function RankFrom<R>(view: View, i: nat, order: nat, score: (Doc, Tool) -> Option<R>): seq<Ranked<R>>
    requires i <= |view.index.docs|
    decreases |view.index.docs| - i
  {
    if i == |view.index.docs| then []
    else if i !in view.tools then RankFrom(view, i + 1, order, score)
    else
      var tool := view.tools[i];
      (match score(view.index.docs[i], tool) case None => [] case Some(s) => [Ranked(tool, order, s)])
      + RankFrom(view, i + 1, order + 1, score)
  }

  function RankList<R>(tools: seq<Tool>, order: nat, score: (Doc, Tool) -> Option<R>): seq<Ranked<R>> {
    if tools == [] then []
    else
      (match score(tools[0].doc, tools[0]) case None => [] case Some(s) => [Ranked(tools[0], order, s)])
      + RankList(tools[1..], order + 1, score)
  }

  lemma {:induction false} RankShown<R>(
    source: seq<Tool>, visible: seq<Tool>, view: View, i: nat, order: nat, score: (Doc, Tool) -> Option<R>)
    requires i <= |source| && view.index.docs == Docs(source)
    requires Shows(view, source, visible)
    ensures RankFrom(view, i, order, score) == RankList(Keep(source[i..], visible), order, score)
    decreases |source| - i
  {
    if i < |source| {
      assert source[i..][0] == source[i] && source[i..][1..] == source[i + 1..];
      if i in view.tools {
        RankShown(source, visible, view, i + 1, order + 1, score);
        var kept := Keep(source[i..], visible);
        assert kept[0] == source[i] && kept[1..] == Keep(source[i + 1..], visible);
      } else {
        RankShown(source, visible, view, i + 1, order, score);
        assert Keep(source[i..], visible) == Keep(source[i + 1..], visible);
      }
    }
  }

  /** Whatever the score, the projected index ranks the same tools with the same orders as a fresh one. */
  lemma {:induction false} RanksAgree<R>(
    source: seq<Tool>, kept: Index, chain: seq<seq<Tool>>, anew: Index, score: (Doc, Tool) -> Option<R>)
    requires Built(kept, Docs(source)) && Narrowing(source, chain) && Built(anew, Docs(Shown(source, chain))) && Distinct(source)
    ensures RankFrom(CarryAll(Bind(source, kept), chain), 0, 0, score) == RankList(Shown(source, chain), 0, score)
    ensures RankFrom(Bind(Shown(source, chain), anew), 0, 0, score) == RankList(Shown(source, chain), 0, score)
  {
    var visible := Shown(source, chain);
    NarrowingShows(source, kept, chain);
    SublistKept(visible, source);
    assert source[0..] == source && visible[0..] == visible;
    BindShows(visible, anew);
    RankShown(source, visible, CarryAll(Bind(source, kept), chain), 0, 0, score);
    RankShown(visible, visible, Bind(visible, anew), 0, 0, score);
    KeepAll(visible, visible);
  }

  lemma {:induction false} KeepAll(source: seq<Tool>, visible: seq<Tool>)
    requires forall t :: t in source ==> t in visible
    ensures Keep(source, visible) == source
  {
    if source != [] {
      KeepAll(source[1..], visible);
      assert source == [source[0]] + source[1..];
    }
  }

  /** The ranking loop over a view. */
  method RankTools<R>(view: View, score: (Doc, Tool) -> Option<R>) returns (ranked: seq<Ranked<R>>)
    ensures ranked == RankFrom(view, 0, 0, score)
  {
    ranked := [];
    var order := 0;
    for i := 0 to |view.index.docs|
      invariant ranked + RankFrom(view, i, order, score) == RankFrom(view, 0, 0, score)
    {
      if i in view.tools {
        var scored := score(view.index.docs[i], view.tools[i]);
        if scored.Some? { ranked := ranked + [Ranked(view.tools[i], order, scored.value)]; }
        order := order + 1;
      }
    }
  }
}
