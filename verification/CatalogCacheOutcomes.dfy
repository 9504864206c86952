/**
 * What the outcome of a cache call says it did: a refusal that ends has recorded its fence, a removal or an
 * invalidation has taken effect, a set has published or was overtaken, and a read misses only for cause.
 */
module CatalogCacheOutcomes {
  import opened Options
  import opened CatalogCacheModel
  import opened CatalogCacheInvariant
  import opened CatalogCacheSteps
  import opened CatalogCacheTheorems

  /** Step `i` of the run ends the call by what the call itself did. */
  predicate EndsAt(run: Run, i: nat, o: nat) {
    && i < |run.events| && |run.states| == |run.events| + 1 && run.events[i] != Quit(o)
    && o in run.states[i].calls && !run.states[i].calls[o].pc.Done?
    && o in run.states[i + 1].calls && run.states[i + 1].calls[o].pc.Done?
  }

  /** Step `i` is a step of the call, and its answer is heard by it. */
  predicate StepsAt(run: Run, i: nat, o: nat) {
    i < |run.events| && i < |run.states| && o in run.states[i].calls && run.events[i].Step? && run.events[i].op == o
  }

  predicate HearsAt(run: Run, i: nat, o: nat) {
    i < |run.events| && i < |run.states| && o in run.states[i].calls && run.events[i].Reply? && run.events[i].req.op == o
  }

  /* ---- Steps and writes ---------------------------------------------------------------------- */

  /** A call is moved by its own steps, its answers, and its end; everything else leaves it alone. */
  lemma OnlyOwn(s: State, e: Event, o: nat)
    requires Enabled(s, e) && o in s.calls && o in Apply(s, e).calls && Apply(s, e).calls[o] != s.calls[o]
    ensures (e.Step? && e.op == o) || (e.Reply? && e.req.op == o) || e == Quit(o) || e == Trip(o)
  {
  }

  lemma ReplyMoves(s: State, r: Req)
    requires Enabled(s, Reply(r))
    ensures r.op in Apply(s, Reply(r)).calls
    ensures Apply(s, Reply(r)).calls[r.op] == Answered(s.calls[r.op], Takes(s.kv, r.w)).call
  {
    AnswerSteady(s.calls[r.op], Takes(s.kv, r.w));
  }

  /** An end that is not a quit is a step of the call or an answer it heard. */
  lemma EndsByOwn(run: Run, i: nat, o: nat)
    requires ValidRun(run) && EndsAt(run, i, o)
    ensures StepsAt(run, i, o) || HearsAt(run, i, o)
  {
    assert Stepped(run.states[i], run.events[i], run.states[i + 1]);
    OnlyOwn(run.states[i], run.events[i], o);
  }

  /** Step `j` of the run sends this write. */
  predicate SendsAt(run: Run, j: nat, r: Req) {
    && StepsAt(run, j, r.op)
    && var m := Proceed(run.states[j].calls[r.op], run.states[j].kv, run.events[j].f);
       m.Send? && m.w == r.w && m.call.sent == r.n
  }

  lemma FlightGrows(s: State, e: Event, r: Req)
    requires Enabled(s, e) && r in Apply(s, e).flight && r !in s.flight
    ensures e.Step? && e.op == r.op && r.op in s.calls
    ensures var m := Proceed(s.calls[r.op], s.kv, e.f); m.Send? && m.w == r.w && m.call.sent == r.n
  {
    if e.Reply? { AnswerSteady(s.calls[e.req.op], Takes(s.kv, e.req.w)); }
  }

  /** Every write in flight was sent by a step of its call. */
  lemma {:induction false} SentAt(run: Run, i: nat, r: Req) returns (j: nat)
    requires ValidRun(run) && i < |run.states| && r in run.states[i].flight
    ensures j < i && SendsAt(run, j, r)
    decreases i
  {
    assert i > 0 by { assert run.states[0] == Initial; }
    if r in run.states[i - 1].flight {
      j := SentAt(run, i - 1, r);
    } else {
      assert Stepped(run.states[i - 1], run.events[i - 1], run.states[i]);
      FlightGrows(run.states[i - 1], run.events[i - 1], r);
      j := i - 1;
    }
  }

  /** What a call is about does not change. */
  predicate SameCall(c: Call, d: Call) {
    && d.kind == c.kind && d.root == c.root && d.fence == c.fence && d.captured == c.captured
    && d.chunks == c.chunks && d.revision == c.revision && d.stored == c.stored
  }

  lemma CallKept(run: Run, j: nat, i: nat, o: nat)
    requires ValidRun(run) && j <= i < |run.states| && o in run.states[j].calls
    ensures o in run.states[i].calls && SameCall(run.states[j].calls[o], run.states[i].calls[o])
  {
    RunOnward(run, j, i);
  }

  lemma HeardInFlight(run: Run, i: nat, o: nat)
    requires ValidRun(run) && HearsAt(run, i, o) && |run.states| == |run.events| + 1
    ensures var r := run.events[i].req;
      && r in run.states[i].flight && r.n + 1 == run.states[i].calls[o].sent && Waiting(run.states[i].calls[o].pc)
      && o in run.states[i + 1].calls
      && run.states[i + 1].calls[o] == Answered(run.states[i].calls[o], Takes(run.states[i].kv, r.w)).call
  {
    assert Stepped(run.states[i], run.events[i], run.states[i + 1]);
    ReplyMoves(run.states[i], run.events[i].req);
  }

  lemma SteppedTo(run: Run, i: nat, o: nat)
    requires ValidRun(run) && StepsAt(run, i, o) && |run.states| == |run.events| + 1
    ensures var c, f := run.states[i].calls[o], run.events[i].f;
      && !Waiting(c.pc) && !c.pc.Done? && f.id !in run.states[i].used
      && o in run.states[i + 1].calls && run.states[i + 1].calls[o] == Moved(Proceed(c, run.states[i].kv, f))
  {
    assert Stepped(run.states[i], run.events[i], run.states[i + 1]);
    StepMoves(run.states[i], o, run.events[i].f);
  }

  /* ---- Refusals ------------------------------------------------------------------------------ */

  lemma RefuseSends(s: State, o: nat, f: Fresh)
    requires o in s.calls && s.calls[o].kind == Refuse && Stands(s, o, s.calls[o])
    ensures var c := s.calls[o];
      Proceed(c, s.kv, f).Send? ==> c.pc.FPut? && Proceed(c, s.kv, f).w == PutFence(Root(c.pc.gen, c.fence.slot), f.id)
  {
  }

  /** The generation a refusal fences: its attempt's own, or the one it found itself. */
  predicate FoundAt(run: Run, h: nat, o: nat, gen: nat) {
    && StepsAt(run, h, o) && run.states[h].calls[o].pc.FFind?
    && var c := run.states[h].calls[o];
       if c.stored then gen == c.root.gen else run.states[h].kv.gen == Some(gen)
  }

  lemma FindStep(c: Call, kv: Kv, f: Fresh)
    requires c.kind == Refuse && !c.pc.FPut? && Moved(Proceed(c, kv, f)).pc.FPut?
    ensures c.pc.FFind?
    ensures var gen := Moved(Proceed(c, kv, f)).pc.gen; if c.stored then gen == c.root.gen else kv.gen == Some(gen)
  {
  }

  lemma FindNoAnswer(c: Call, won: bool)
    ensures !Answered(c, won).call.pc.FPut?
  {
  }

  /** A call that is about to write a fence has found the generation to write it under. */
  lemma {:induction false} PutFound(run: Run, j: nat, o: nat) returns (h: nat)
    requires ValidRun(run) && j < |run.states| && o in run.states[j].calls
    requires run.states[j].calls[o].kind == Refuse && run.states[j].calls[o].pc.FPut?
    ensures h < j && FoundAt(run, h, o, run.states[j].calls[o].pc.gen)
    decreases j
  {
    assert j > 0 by { assert run.states[0] == Initial; }
    NotNew(run, j - 1, o);
    if run.states[j - 1].calls[o] == run.states[j].calls[o] {
      h := PutFound(run, j - 1, o);
    } else {
      h := j - 1;
      JustFound(run, j - 1, o);
    }
  }

  lemma JustFound(run: Run, h: nat, o: nat)
    requires ValidRun(run) && h < |run.events| && h + 1 < |run.states|
    requires o in run.states[h].calls && o in run.states[h + 1].calls
    requires run.states[h + 1].calls[o].kind == Refuse && run.states[h + 1].calls[o].pc.FPut?
    requires run.states[h].calls[o] != run.states[h + 1].calls[o]
    ensures FoundAt(run, h, o, run.states[h + 1].calls[o].pc.gen)
  {
    SteppedAt(run, h);
    CallKept(run, h, h + 1, o);
    FoundEarlier(run, h, o);
  }

  lemma NotNew(run: Run, h: nat, o: nat)
    requires ValidRun(run) && h + 1 < |run.states| && o in run.states[h + 1].calls
    requires run.states[h + 1].calls[o].kind == Refuse && run.states[h + 1].calls[o].pc.FPut?
    ensures o in run.states[h].calls
  {
    SteppedAt(run, h);
    if o !in run.states[h].calls { NotAtStart(run.states[h], run.events[h], run.states[h + 1], o); }
  }

  lemma SteppedAt(run: Run, h: nat)
    requires ValidRun(run) && h < |run.events|
    ensures |run.states| == |run.events| + 1 && Stepped(run.states[h], run.events[h], run.states[h + 1])
  {
  }

  lemma NotAtStart(s: State, e: Event, t: State, o: nat)
    requires Stepped(s, e, t) && o !in s.calls && o in t.calls
    ensures !(t.calls[o].kind == Refuse && t.calls[o].pc.FPut?)
  {
    NewAtStart(s, e, o);
  }

  lemma FoundEarlier(run: Run, h: nat, o: nat)
    requires h < |run.events| && h + 1 < |run.states| && o in run.states[h].calls && o in run.states[h + 1].calls
    requires Stepped(run.states[h], run.events[h], run.states[h + 1])
    requires SameCall(run.states[h].calls[o], run.states[h + 1].calls[o])
    requires run.states[h + 1].calls[o].kind == Refuse && run.states[h + 1].calls[o].pc.FPut?
    requires run.states[h].calls[o] != run.states[h + 1].calls[o]
    ensures FoundAt(run, h, o, run.states[h + 1].calls[o].pc.gen)
  {
    FoundStepped(run.states[h], run.events[h], run.states[h + 1], o);
  }

  lemma FoundStepped(s: State, e: Event, t: State, o: nat)
    requires Stepped(s, e, t) && o in s.calls && o in t.calls && t.calls[o] != s.calls[o]
    requires s.calls[o].kind == Refuse && t.calls[o].pc.FPut?
    ensures e.Step? && e.op == o && s.calls[o].pc.FFind?
    ensures var gen := t.calls[o].pc.gen; if s.calls[o].stored then gen == s.calls[o].root.gen else s.kv.gen == Some(gen)
  {
    FoundByStep(s, e, o);
  }

  lemma NewAtStart(s: State, e: Event, o: nat)
    requires Enabled(s, e) && o !in s.calls && o in Apply(s, e).calls
    ensures var c := Apply(s, e).calls[o]; c.pc == FirstPc(c.kind) || (c.kind == Set && c.pc == ZCheck)
    ensures var c := Apply(s, e).calls[o]; c.cast == None && c.sent == 0
  {
  }

  lemma FoundByStep(s: State, e: Event, o: nat)
    requires Enabled(s, e) && o in s.calls && o in Apply(s, e).calls && Apply(s, e).calls[o] != s.calls[o]
    requires s.calls[o].kind == Refuse && Apply(s, e).calls[o].pc.FPut?
    ensures e.Step? && e.op == o && s.calls[o].pc.FFind?
    ensures var gen := Apply(s, e).calls[o].pc.gen;
      if s.calls[o].stored then gen == s.calls[o].root.gen else s.kv.gen == Some(gen)
  {
    OnlyOwn(s, e, o);
    if e.Step? {
      StepMoves(s, o, e.f);
      if s.calls[o].pc.FPut? { FindStepNot(s.calls[o], s.kv, e.f); } else { FindStep(s.calls[o], s.kv, e.f); }
    } else if e.Reply? {
      ReplyMoves(s, e.req);
      FindNoAnswer(s.calls[o], Takes(s.kv, e.req.w));
    }
  }

  /** The fence is written in one step. */
  lemma FindStepNot(c: Call, kv: Kv, f: Fresh)
    requires c.kind == Refuse && c.pc.FPut?
    ensures !Moved(Proceed(c, kv, f)).pc.FPut?
  {
  }

  /**
   * The refusal found its generation at step `h`, drew a fresh mark and issued the fence at step `j`, and
   * the fence landed at step `i`.
   */
  predicate RecordedAt(run: Run, h: nat, j: nat, i: nat, o: nat, gen: nat, mark: nat) {
    && h < j < i && FoundAt(run, h, o, gen) && StepsAt(run, j, o)
    && run.events[j].f.id == mark && mark !in run.states[j].used && HearsAt(run, i, o)
    && LandsAt(run, i, PutFence(Root(gen, run.states[i].calls[o].fence.slot), mark))
  }

  /** The attempt had found no generation stored, and there is none to fence. */
  predicate NothingToFence(run: Run, i: nat, o: nat) {
    && StepsAt(run, i, o) && run.states[i].calls[o].pc.FFind? && !run.states[i].calls[o].stored
    && run.states[i].kv.gen == None
  }

  lemma RefuseWaits(s: State, o: nat)
    requires o in s.calls && s.calls[o].kind == Refuse && Waiting(s.calls[o].pc) && Stands(s, o, s.calls[o])
    ensures s.calls[o].pc.FPutW?
  {
  }

  lemma RefuseStops(c: Call, kv: Kv, f: Fresh)
    requires c.kind == Refuse && !c.pc.Done? && Moved(Proceed(c, kv, f)).pc.Done?
    ensures c.pc.FFind? && !c.stored && kv.gen == None
  {
  }

  /** A refusal that ends has recorded its fence, unless there was no generation to fence. */
  lemma RefusalRecorded(run: Run, i: nat, o: nat) returns (recorded: bool, h: nat, j: nat, gen: nat, mark: nat)
    requires ValidRun(run) && EndsAt(run, i, o) && run.states[i].calls[o].kind == Refuse
    ensures if recorded then RecordedAt(run, h, j, i, o, gen, mark) else NothingToFence(run, i, o)
  {
    h, j, gen, mark := 0, 0, 0, 0;
    EndsByOwn(run, i, o);
    RunStands(run, i, o);
    recorded := run.events[i].Reply?;
    if recorded {
      var r := run.events[i].req;
      HeardInFlight(run, i, o);
      j := SentAt(run, i, r);
      CallKept(run, j, i, o);
      RunStands(run, j, o);
      RefuseSends(run.states[j], o, run.events[j].f);
      SteppedTo(run, j, o);
      gen, mark := run.states[j].calls[o].pc.gen, run.events[j].f.id;
      h := PutFound(run, j, o);
    } else {
      SteppedTo(run, i, o);
      RefuseStops(run.states[i].calls[o], run.states[i].kv, run.events[i].f);
    }
  }

  /** The fence at this address went at step `k`: it expired, or a call begun after step `p` lifted it. */
  predicate GoneAt(run: Run, p: nat, k: nat, at: Root) {
    && k < |run.events| && p + 1 < |run.states|
    && (|| run.events[k] == ExpireFence(at)
        || ((run.events[k].Reply? || run.events[k].Land?) && run.events[k].req.w.LiftFence?
            && run.events[k].req.w.at == at && run.events[k].req.op !in run.states[p + 1].calls))
  }

  ghost predicate Gone(run: Run, p: nat, q: nat, at: Root) { exists k: nat :: p < k < q && GoneAt(run, p, k, at) }

  /** The fence that stands was written at step `j`. */
  predicate FencedBy(run: Run, j: nat, q: nat, at: Root, mark: nat) {
    q < |run.states| && LandsAt(run, j, PutFence(at, mark)) && FenceAt(run.states[q].kv, at) == Some(mark)
  }

  /** The fence that stands was written at step `p` or later. */
  ghost predicate Fenced(run: Run, p: nat, q: nat, at: Root) {
    exists j: nat, mark: nat :: p <= j < q && FencedBy(run, j, q, at, mark)
  }

  lemma FencedNext(run: Run, p: nat, j: nat, q: nat, at: Root, mark: nat)
    requires ValidRun(run) && p <= j < q < |run.events| && |run.states| == |run.events| + 1 && FencedBy(run, j, q, at, mark)
    ensures Fenced(run, p, q + 1, at) || GoneAt(run, p, q, at)
  {
    if FenceAt(run.states[q + 1].kv, at) == Some(mark) {
      assert FencedBy(run, j, q + 1, at, mark);
    } else {
      FenceChanges(run, q, at);
      if run.events[q] != ExpireFence(at) {
        if run.events[q].req.w.PutFence? { FencedAnew(run, p, q, at); } else { LiftedSince(run, p, j, q, at, mark); }
      }
    }
  }

  lemma FencedAnew(run: Run, p: nat, q: nat, at: Root)
    requires ValidRun(run) && p < q < |run.events| && (run.events[q].Reply? || run.events[q].Land?)
    requires run.events[q].req.w.PutFence? && run.events[q].req.w.at == at
    ensures Fenced(run, p, q + 1, at)
  {
    FenceRecorded(run, q, at, run.events[q].req.w.mark);
    assert FencedBy(run, q, q + 1, at, run.events[q].req.w.mark);
  }

  lemma LiftedSince(run: Run, p: nat, j: nat, q: nat, at: Root, mark: nat)
    requires ValidRun(run) && p <= j < q && LandsAt(run, j, PutFence(at, mark)) && LandsAt(run, q, LiftFence(at, mark))
    ensures GoneAt(run, p, q, at)
  {
    LiftedByLater(run, j, q, at, mark);
    RunOnward(run, p + 1, j + 1);
  }

  lemma FencedOneMore(run: Run, p: nat, q: nat, at: Root)
    requires ValidRun(run) && p < q < |run.events| && |run.states| == |run.events| + 1 && Fenced(run, p, q, at)
    ensures Fenced(run, p, q + 1, at) || Gone(run, p, q + 1, at)
  {
    var j: nat, mark: nat :| p <= j < q && FencedBy(run, j, q, at, mark);
    FencedNext(run, p, j, q, at, mark);
  }

  lemma GoneMore(run: Run, p: nat, q: nat, at: Root)
    requires Gone(run, p, q, at)
    ensures Gone(run, p, q + 1, at)
  {
    var k: nat :| p < k < q && GoneAt(run, p, k, at);
    assert p < k < q + 1 && GoneAt(run, p, k, at);
  }

  lemma FencedAtOnce(run: Run, p: nat, at: Root, mark: nat)
    requires ValidRun(run) && LandsAt(run, p, PutFence(at, mark))
    ensures Fenced(run, p, p + 1, at)
  {
    FenceRecorded(run, p, at, mark);
    assert FencedBy(run, p, p + 1, at, mark);
  }

  lemma RunLength(run: Run)
    requires ValidRun(run)
    ensures |run.states| == |run.events| + 1
  {
  }

  /** From a recorded refusal on some fence stands at its address, until expiry or a later listing's lift. */
  lemma {:induction false} FencedUntilGone(run: Run, p: nat, q: nat, at: Root, mark: nat)
    requires ValidRun(run) && LandsAt(run, p, PutFence(at, mark)) && p < q < |run.states|
    ensures Fenced(run, p, q, at) || Gone(run, p, q, at)
    decreases q
  {
    if q == p + 1 {
      FencedAtOnce(run, p, at, mark);
    } else {
      FencedUntilGone(run, p, q - 1, at, mark);
      RunLength(run);
      if Fenced(run, p, q - 1, at) { FencedOneMore(run, p, q - 1, at); } else { GoneMore(run, p, q - 1, at); }
    }
  }

  /**
   * Once a refusal has ended with something to fence, no expired catalog of the address it fenced stands in
   * until the fence expires or a call that began only afterwards lifts it.
   */
  lemma FencedNeverStandsIn(run: Run, i: nat, o: nat, q: nat, reader: nat, value: string)
    returns (h: nat, j: nat, gen: nat, mark: nat)
    requires ValidRun(run) && EndsAt(run, i, o) && run.states[i].calls[o].kind == Refuse && !NothingToFence(run, i, o)
    requires i < q && StoodAt(run, q, reader, value)
    ensures RecordedAt(run, h, j, i, o, gen, mark)
    ensures run.states[q].calls[reader].fence == Root(gen, run.states[i].calls[o].fence.slot) ==>
      Gone(run, i, q, run.states[q].calls[reader].fence)
  {
    var recorded;
    recorded, h, j, gen, mark := RefusalRecorded(run, i, o);
    if run.states[q].calls[reader].fence == Root(gen, run.states[i].calls[o].fence.slot) {
      FencedUntilGone(run, i, q, run.states[q].calls[reader].fence, mark);
      var k := StaleNeedsNoFence(run, q, reader, value);
    }
  }

  /** In particular the refused credential's own catalog, when the attempt ran under a stored generation. */
  lemma RefusedNeverStandsIn(run: Run, i: nat, o: nat, q: nat, reader: nat, value: string)
    requires ValidRun(run) && EndsAt(run, i, o) && run.states[i].calls[o].kind == Refuse && run.states[i].calls[o].stored
    requires i < q && StoodAt(run, q, reader, value)
    requires run.states[q].calls[reader].fence == run.states[i].calls[o].fence
    ensures Gone(run, i, q, run.states[i].calls[o].fence)
  {
    var h, j, gen, mark := FencedNeverStandsIn(run, i, o, q, reader, value);
    CallKept(run, h, i, o);
    RunKnown(run, i, o);
  }

  /* ---- Removals and invalidations -------------------------------------------------------------- */

  lemma RemoveMoves(s: State, o: nat, f: Fresh)
    requires o in s.calls && s.calls[o].kind == Remove && Stands(s, o, s.calls[o]) && !Waiting(s.calls[o].pc)
    requires !s.calls[o].pc.Done?
    ensures var m := Proceed(s.calls[o], s.kv, f); m.Send? && m.w == DropEntry(s.calls[o].root) && !Moved(m).pc.Done?
  {
  }

  /** A removal that ends has deleted its entry at that very step. */
  lemma RemovalDone(run: Run, i: nat, o: nat)
    requires ValidRun(run) && EndsAt(run, i, o) && run.states[i].calls[o].kind == Remove
    ensures HearsAt(run, i, o) && LandsAt(run, i, DropEntry(run.states[i].calls[o].root))
    ensures run.states[i].calls[o].root !in run.states[i + 1].kv.manifests
  {
    EndsByOwn(run, i, o);
    RunStands(run, i, o);
    if StepsAt(run, i, o) {
      SteppedTo(run, i, o);
      RemoveMoves(run.states[i], o, run.events[i].f);
    } else {
      HeardInFlight(run, i, o);
      var j := SentAt(run, i, run.events[i].req);
      CallKept(run, j, i, o);
      RunStands(run, j, o);
      SteppedTo(run, j, o);
      RemoveMoves(run.states[j], o, run.events[j].f);
      StoreChange(run.states[i], run.events[i]);
    }
  }

  lemma InvalidateMoves(s: State, o: nat, f: Fresh)
    requires o in s.calls && s.calls[o].kind == Invalidate && Stands(s, o, s.calls[o]) && !Waiting(s.calls[o].pc)
    requires !s.calls[o].pc.Done?
    ensures var m := Proceed(s.calls[o], s.kv, f); m.Send? && m.w == Replace(f.id) && !Moved(m).pc.Done?
  {
  }

  /** An invalidation that ends has stored, at that very step, a generation nobody had drawn before it began to. */
  lemma InvalidationDone(run: Run, i: nat, o: nat) returns (j: nat)
    requires ValidRun(run) && EndsAt(run, i, o) && run.states[i].calls[o].kind == Invalidate
    ensures HearsAt(run, i, o) && j < i && StepsAt(run, j, o) && run.events[j].f.id !in run.states[j].used
    ensures run.states[i + 1].kv.gen == Some(run.events[j].f.id)
  {
    EndsByOwn(run, i, o);
    RunStands(run, i, o);
    if StepsAt(run, i, o) {
      SteppedTo(run, i, o);
      InvalidateMoves(run.states[i], o, run.events[i].f);
    }
    HeardInFlight(run, i, o);
    j := SentAt(run, i, run.events[i].req);
    CallKept(run, j, i, o);
    RunStands(run, j, o);
    SteppedTo(run, j, o);
    InvalidateMoves(run.states[j], o, run.events[j].f);
    StoreChange(run.states[i], run.events[i]);
  }

  /* ---- Reads ------------------------------------------------------------------------------------ */

  /** What makes a read miss at this very step. */
  predicate Misses(s: State, c: Call) {
    var misses :=
      match c.pc
      case GRead => c.root !in s.kv.manifests
      case GChunk(m, read) =>
        |read| < m.count && ChunkKey(c.root, m.revision, |read|) !in s.kv.chunks
      case GCheck(_, _) => s.kv.gen.Some? && s.kv.gen.value != c.root.gen
      case TCheck(_, _) => s.kv.gen.Some? && s.kv.gen.value != c.root.gen
      case TFence(_, _) => c.fence in s.kv.fences
      case _ => false;
    misses
  }

  /** What makes a read answer with what it read at this very step. */
  predicate Answers(s: State, c: Call) {
    (c.kind == Get && c.pc.GCheck? && s.kv.gen == Some(c.root.gen)) || (c.pc.TFence? && c.fence !in s.kv.fences)
  }

  lemma ReadMoves(s: State, o: nat)
    requires o in s.calls && Reads(s.calls[o]) && GetStands(s, o, s.calls[o]) && !Waiting(s.calls[o].pc)
    requires !s.calls[o].pc.Done?
    ensures var c, d := s.calls[o], Moved(GetStep(s.calls[o], s.kv));
      && (d.pc == Done(Miss) <==> Misses(s, c)) && (d.pc.Done? <==> Misses(s, c) || Answers(s, c))
      && (Answers(s, c) ==> d.pc == Done(if c.kind == Get then Hit(Concat(c.pc.read)) else Stood(Concat(c.pc.read))))
  {
    var c := s.calls[o];
    if c.pc.GChunk? && |c.pc.read| >= c.pc.m.count { WholeIsServed(s, c, c.pc.m, c.pc.read); }
  }

  lemma ReadHears(s: State, o: nat, won: bool)
    requires o in s.calls && Reads(s.calls[o]) && GetStands(s, o, s.calls[o]) && Waiting(s.calls[o].pc)
    ensures Answered(s.calls[o], won).call.pc != Done(Miss)
    ensures Answered(s.calls[o], won).call.pc.Done? ==> Answered(s.calls[o], won).call.pc.out.Hit?
  {
  }

  /**
   * A step of a get, or of a call that asks whether an expired catalog may stand in, ends in a miss if and
   * only if the entry is absent, the next chunk is gone, the generation is another, or the fence stands; and
   * with a value if and only if the generation is its own and, to stand in, no fence stands.
   */
  lemma ReadVerdict(run: Run, i: nat, o: nat)
    requires ValidRun(run) && StepsAt(run, i, o) && Reads(run.states[i].calls[o])
    ensures |run.states| == |run.events| + 1 && o in run.states[i + 1].calls
    ensures var s, c, d := run.states[i], run.states[i].calls[o], run.states[i + 1].calls[o];
      && (d.pc == Done(Miss) <==> Misses(s, c)) && (d.pc.Done? <==> Misses(s, c) || Answers(s, c))
      && (Answers(s, c) ==> d.pc == Done(if c.kind == Get then Hit(Concat(c.pc.read)) else Stood(Concat(c.pc.read))))
  {
    RunLength(run);
    RunStands(run, i, o);
    SteppedTo(run, i, o);
    ReadStepOf(run, i, o);
    ReadMoves(run.states[i], o);
  }

  lemma ReadStepOf(run: Run, i: nat, o: nat)
    requires ValidRun(run) && StepsAt(run, i, o) && Reads(run.states[i].calls[o])
    ensures Proceed(run.states[i].calls[o], run.states[i].kv, run.events[i].f) == GetStep(run.states[i].calls[o], run.states[i].kv)
  {
  }

  /** A chunk a read does not find has expired, or its entry has been replaced since. */
  lemma MissingChunk(run: Run, i: nat, o: nat)
    requires ValidRun(run) && i < |run.states| && o in run.states[i].calls && Reads(run.states[i].calls[o])
    requires run.states[i].calls[o].pc.GChunk? && Misses(run.states[i], run.states[i].calls[o])
    ensures var s, c := run.states[i], run.states[i].calls[o];
      ChunkKey(c.root, c.pc.m.revision, |c.pc.read|) in s.expired || c.pc.m.revision in s.replaced
  {
    RunStands(run, i, o);
    ChunkKnown(run.states[i], o, run.states[i].calls[o]);
  }

  lemma ChunkKnown(s: State, o: nat, c: Call)
    requires Reads(c) && GetStands(s, o, c) && c.pc.GChunk? && |c.pc.read| < c.pc.m.count
    ensures var key := ChunkKey(c.root, c.pc.m.revision, |c.pc.read|);
      key in s.kv.chunks || key in s.expired || c.pc.m.revision in s.replaced
  {
  }

  /* ---- Sets --------------------------------------------------------------------------------------- */

  /** A set on its way to publish; one that deletes its entry instead; and one that has done either. */
  predicate Publishing(pc: Pc) {
    pc.SChunk? || pc.SChunkW? || pc.SCheck? || pc.SClaimW? || pc.SRead? || pc.SPublishW?
  }

  predicate Deleting(pc: Pc) { pc.ZCheck? || pc.ZClaimW? || pc.ZDrop? || pc.ZDropW? }

  predicate Settling(pc: Pc) { pc.SClean? || pc.SCleanW? || pc.SLift? || pc.SLiftW? }

  /** Step `j` publishes what the call was given, at its address. */
  predicate PublishesAt(run: Run, j: nat, o: nat) {
    && HearsAt(run, j, o) && j + 1 < |run.states|
    && var c := run.states[j].calls[o];
       && run.events[j].req.w.Publish? && run.events[j].req.w.root == c.root && run.events[j].req.w.m.revision == c.revision
       && run.events[j].req.w.m.fingerprint == Concat(c.chunks) && run.events[j].req.w.m.count == |c.chunks|
       && ManifestAt(run.states[j + 1].kv, c.root) == Some(run.events[j].req.w.m)
  }

  /** Step `j` deletes the call's entry, or finds that its generation has moved on. */
  predicate WithdrawsAt(run: Run, j: nat, o: nat) {
    && j < |run.states| && o in run.states[j].calls
    && var c := run.states[j].calls[o];
       || (HearsAt(run, j, o) && run.events[j].req.w == DropEntry(c.root))
       || (StepsAt(run, j, o) && c.pc.ZCheck? && run.states[j].kv.gen.Some? && run.states[j].kv.gen.value != c.root.gen)
  }

  lemma SetMoves(c: Call, kv: Kv, f: Fresh)
    requires c.kind == Set && !Waiting(c.pc) && !c.pc.Done?
    ensures var d := Moved(SetStep(c, kv, f));
      && (Publishing(c.pc) ==> Publishing(d.pc) || (d.pc == Done(Miss) && c.pc.SCheck? && kv.gen.Some? && kv.gen.value != c.root.gen))
      && (Deleting(c.pc) ==> Deleting(d.pc) || (d.pc.SLift? && c.pc.ZCheck? && kv.gen.Some? && kv.gen.value != c.root.gen))
      && (Settling(c.pc) ==> Settling(d.pc) || (d.pc == Done(Over) && c.pc.SLift? && c.captured == None))
  {
  }

  lemma SetHears(c: Call, won: bool)
    requires c.kind == Set && Waiting(c.pc)
    ensures var d := Answered(c, won).call;
      && (Publishing(c.pc) ==> Publishing(d.pc) || (Settling(d.pc) && c.pc.SPublishW? && won))
      && (Deleting(c.pc) ==> Deleting(d.pc) || (d.pc.SLift? && c.pc.ZDropW?))
      && (Settling(c.pc) ==> Settling(d.pc) || (d.pc == Done(Over) && c.pc.SLiftW?))
  {
  }

  lemma PublishHeard(s: State, r: Req)
    requires Flight(s) && r in s.flight && r.op in s.calls && r.n + 1 == s.calls[r.op].sent && Takes(s.kv, r.w)
    requires s.calls[r.op].kind == Set && s.calls[r.op].pc.SPublishW? && Stands(s, r.op, s.calls[r.op])
    ensures var c := s.calls[r.op];
      && r.w.Publish? && r.w.root == c.root && r.w.m.revision == c.revision
      && r.w.m.fingerprint == Concat(c.chunks) && r.w.m.count == |c.chunks|
      && ManifestAt(Landed(s.kv, r.w), c.root) == Some(r.w.m)
  {
    assert Justified(s, r);
  }

  lemma DropHeard(s: State, r: Req)
    requires r in s.flight && r.op in s.calls && r.n + 1 == s.calls[r.op].sent
    requires s.calls[r.op].kind == Set && Stands(s, r.op, s.calls[r.op])
    ensures s.calls[r.op].pc.ZDropW? ==> r.w == DropEntry(s.calls[r.op].root)
    ensures s.calls[r.op].pc.SLiftW? ==>
      s.calls[r.op].captured.Some? && r.w == LiftFence(s.calls[r.op].fence, s.calls[r.op].captured.value)
  {
  }

  /** Leaving the way to publication, other than by ending, is publishing. */
  lemma LeavesPublishing(run: Run, i: nat, o: nat)
    requires ValidRun(run) && i < |run.events| && o in run.states[i].calls && run.states[i].calls[o].kind == Set
    requires Publishing(run.states[i].calls[o].pc)
    ensures |run.states| == |run.events| + 1 && o in run.states[i + 1].calls
    ensures var pc := run.states[i + 1].calls[o].pc; Publishing(pc) || pc.Done? || (Settling(pc) && PublishesAt(run, i, o))
  {
    RunLength(run);
    CallKept(run, i, i + 1, o);
    if run.states[i + 1].calls[o] != run.states[i].calls[o] {
      assert Stepped(run.states[i], run.events[i], run.states[i + 1]);
      OnlyOwn(run.states[i], run.events[i], o);
      if StepsAt(run, i, o) {
        SteppedTo(run, i, o);
        SetMoves(run.states[i].calls[o], run.states[i].kv, run.events[i].f);
      } else if HearsAt(run, i, o) {
        HeardInFlight(run, i, o);
        SetHears(run.states[i].calls[o], Takes(run.states[i].kv, run.events[i].req.w));
        if Settling(run.states[i + 1].calls[o].pc) { PublishedNow(run, i, o); }
      } else {
        EndsOrTrips(run.states[i], run.events[i], o);
      }
    }
  }

  lemma EndsOrTrips(s: State, e: Event, o: nat)
    requires Enabled(s, e) && o in s.calls && (e == Quit(o) || e == Trip(o))
    ensures o in Apply(s, e).calls && Apply(s, e).calls[o].pc == (if e.Quit? then Done(Over) else SLift)
    ensures e.Trip? ==> s.calls[o].pc.SClean? || s.calls[o].pc.SCleanW?
  {
  }

  lemma PublishedNow(run: Run, i: nat, o: nat)
    requires ValidRun(run) && HearsAt(run, i, o) && run.states[i].calls[o].kind == Set && run.states[i].calls[o].pc.SPublishW?
    requires Takes(run.states[i].kv, run.events[i].req.w)
    ensures PublishesAt(run, i, o)
  {
    RunLength(run);
    HeardInFlight(run, i, o);
    RunStands(run, i, o);
    RunFlight(run, i);
    PublishHeard(run.states[i], run.events[i].req);
    assert Stepped(run.states[i], run.events[i], run.states[i + 1]);
    StoreChange(run.states[i], run.events[i]);
  }

  lemma LeavesDeleting(run: Run, i: nat, o: nat)
    requires ValidRun(run) && i < |run.events| && o in run.states[i].calls && run.states[i].calls[o].kind == Set
    requires Deleting(run.states[i].calls[o].pc)
    ensures |run.states| == |run.events| + 1 && o in run.states[i + 1].calls
    ensures var pc := run.states[i + 1].calls[o].pc;
      Deleting(pc) || (pc.Done? && run.events[i] == Quit(o)) || (Settling(pc) && WithdrawsAt(run, i, o))
  {
    RunLength(run);
    CallKept(run, i, i + 1, o);
    if run.states[i + 1].calls[o] != run.states[i].calls[o] {
      assert Stepped(run.states[i], run.events[i], run.states[i + 1]);
      OnlyOwn(run.states[i], run.events[i], o);
      if StepsAt(run, i, o) {
        SteppedTo(run, i, o);
        SetMoves(run.states[i].calls[o], run.states[i].kv, run.events[i].f);
      } else if HearsAt(run, i, o) {
        HeardInFlight(run, i, o);
        SetHears(run.states[i].calls[o], Takes(run.states[i].kv, run.events[i].req.w));
        RunStands(run, i, o);
        DropHeard(run.states[i], run.events[i].req);
      } else {
        EndsOrTrips(run.states[i], run.events[i], o);
      }
    }
  }

  lemma StaysSettling(run: Run, i: nat, o: nat)
    requires ValidRun(run) && i < |run.events| && o in run.states[i].calls && run.states[i].calls[o].kind == Set
    requires Settling(run.states[i].calls[o].pc)
    ensures |run.states| == |run.events| + 1 && o in run.states[i + 1].calls
    ensures var pc := run.states[i + 1].calls[o].pc; Settling(pc) || pc.Done?
  {
    RunLength(run);
    CallKept(run, i, i + 1, o);
    if run.states[i + 1].calls[o] != run.states[i].calls[o] {
      assert Stepped(run.states[i], run.events[i], run.states[i + 1]);
      OnlyOwn(run.states[i], run.events[i], o);
      if StepsAt(run, i, o) {
        SteppedTo(run, i, o);
        SetMoves(run.states[i].calls[o], run.states[i].kv, run.events[i].f);
      } else if HearsAt(run, i, o) {
        HeardInFlight(run, i, o);
        SetHears(run.states[i].calls[o], Takes(run.states[i].kv, run.events[i].req.w));
      } else {
        EndsOrTrips(run.states[i], run.events[i], o);
      }
    }
  }

  /** A call that has ended does nothing more. */
  lemma StaysDone(run: Run, i: nat, o: nat)
    requires ValidRun(run) && i < |run.events| && o in run.states[i].calls && run.states[i].calls[o].pc.Done?
    ensures |run.states| == |run.events| + 1 && o in run.states[i + 1].calls && run.states[i + 1].calls[o] == run.states[i].calls[o]
  {
    RunLength(run);
    CallKept(run, i, i + 1, o);
    assert Stepped(run.states[i], run.events[i], run.states[i + 1]);
    if run.states[i + 1].calls[o] != run.states[i].calls[o] { OnlyOwn(run.states[i], run.events[i], o); }
  }

  /** What became of a set that was on its way to publish at state `h`, as long as it has not ended. */
  lemma {:induction false} PublishingLeads(run: Run, h: nat, i: nat, o: nat)
    requires ValidRun(run) && h <= i < |run.states| && o in run.states[h].calls && run.states[h].calls[o].kind == Set
    requires Publishing(run.states[h].calls[o].pc)
    ensures o in run.states[i].calls && run.states[i].calls[o].kind == Set
    ensures var pc := run.states[i].calls[o].pc;
      Publishing(pc) || pc.Done? || (Settling(pc) && exists j :: h <= j < i && PublishesAt(run, j, o))
    decreases i
  {
    CallKept(run, h, i, o);
    if h < i {
      PublishingLeads(run, h, i - 1, o);
      var pc := run.states[i - 1].calls[o].pc;
      if pc.Done? {
        StaysDone(run, i - 1, o);
      } else if Publishing(pc) {
        LeavesPublishing(run, i - 1, o);
      } else {
        StaysSettling(run, i - 1, o);
      }
    }
  }

  lemma {:induction false} DeletingLeads(run: Run, h: nat, i: nat, o: nat)
    requires ValidRun(run) && h <= i < |run.states| && o in run.states[h].calls && run.states[h].calls[o].kind == Set
    requires Deleting(run.states[h].calls[o].pc)
    ensures o in run.states[i].calls && run.states[i].calls[o].kind == Set
    ensures var pc := run.states[i].calls[o].pc;
      Deleting(pc) || pc.Done? || (Settling(pc) && exists j :: h <= j < i && WithdrawsAt(run, j, o))
    decreases i
  {
    CallKept(run, h, i, o);
    if h < i {
      DeletingLeads(run, h, i - 1, o);
      var pc := run.states[i - 1].calls[o].pc;
      if pc.Done? {
        StaysDone(run, i - 1, o);
      } else if Deleting(pc) {
        LeavesDeleting(run, i - 1, o);
      } else {
        StaysSettling(run, i - 1, o);
      }
    }
  }

  /** The step that ends a set: another generation was found, or its success has asked for its captured fence to be lifted. */
  predicate SetEnds(run: Run, i: nat, o: nat) {
    && EndsAt(run, i, o)
    && var c, out := run.states[i].calls[o], run.states[i + 1].calls[o].pc.out;
       || (out == Miss && c.pc.SCheck? && StepsAt(run, i, o) && run.states[i].kv.gen.Some?
           && run.states[i].kv.gen.value != c.root.gen)
       || (out == Over && Settling(c.pc)
           && (c.captured.Some? ==> HearsAt(run, i, o) && LandsAt(run, i, LiftFence(c.fence, c.captured.value))))
  }

  lemma SetStops(run: Run, i: nat, o: nat)
    requires ValidRun(run) && EndsAt(run, i, o) && run.states[i].calls[o].kind == Set
    ensures SetEnds(run, i, o)
  {
    EndsByOwn(run, i, o);
    RunStands(run, i, o);
    SetPcs(run.states[i], o);
    if StepsAt(run, i, o) {
      SteppedTo(run, i, o);
      SetMoves(run.states[i].calls[o], run.states[i].kv, run.events[i].f);
    } else {
      HeardInFlight(run, i, o);
      SetHears(run.states[i].calls[o], Takes(run.states[i].kv, run.events[i].req.w));
      DropHeard(run.states[i], run.events[i].req);
    }
  }

  lemma SetPcs(s: State, o: nat)
    requires o in s.calls && s.calls[o].kind == Set && Stands(s, o, s.calls[o])
    ensures var pc := s.calls[o].pc; Publishing(pc) || Deleting(pc) || Settling(pc) || pc.Done?
  {
  }

  /**
   * A set that ends has published the value it was given, at its address, or was overtaken by another
   * generation; and its success has asked for exactly the fence its listing captured to be lifted.
   */
  lemma SetPublishes(run: Run, h: nat, i: nat, o: nat)
    requires ValidRun(run) && h <= i && EndsAt(run, i, o) && o in run.states[h].calls && run.states[h].calls[o].kind == Set
    requires Publishing(run.states[h].calls[o].pc)
    ensures SetEnds(run, i, o)
    ensures run.states[i + 1].calls[o].pc.out == Over ==> exists j :: h <= j < i && PublishesAt(run, j, o)
  {
    PublishingLeads(run, h, i, o);
    SetStops(run, i, o);
  }

  /** A set of a catalog that refuses reuse ends only after deleting its entry, or finding its generation gone. */
  lemma SetWithdraws(run: Run, h: nat, i: nat, o: nat)
    requires ValidRun(run) && h <= i && EndsAt(run, i, o) && o in run.states[h].calls && run.states[h].calls[o].kind == Set
    requires Deleting(run.states[h].calls[o].pc)
    ensures SetEnds(run, i, o) && run.states[i + 1].calls[o].pc.out == Over
    ensures exists j :: h <= j < i && WithdrawsAt(run, j, o)
  {
    DeletingLeads(run, h, i, o);
    SetStops(run, i, o);
    if Deleting(run.states[i].calls[o].pc) { LeavesDeleting(run, i, o); }
  }

  /* ---- Progress ------------------------------------------------------------------------------------ */

  /** What is left of a count. */
  function Left(count: nat, i: nat): nat { if i < count then count - i else 0 }

  /** How far a call is from its end: its stage, and what is left to do in it. */
  function Stage(c: Call): nat {
    match c.pc
    case SChunk(_) => 9 case SChunkW(_) => 9 case SCheck => 8 case SClaimW => 7 case SRead => 6 case SPublishW(_, _) => 5
    case SClean(_, _) => 4 case SCleanW(_, _) => 4 case SLift => 3 case SLiftW => 2
    case ZCheck => 8 case ZClaimW => 7 case ZDrop => 6 case ZDropW => 5
    case GRead => 9 case GChunk(_, _) => 8 case GCheck(_, _) => 7 case GClaimW(_, _) => 6
    case TCheck(_, _) => 5 case TClaimW(_, _) => 4 case TFence(_, _) => 3
    case RDrop => 9 case RDropW => 8 case IReplace => 9 case IReplaceW => 8
    case FFind => 9 case FPut(_) => 8 case FPutW => 7
    case Done(_) => 0
  }

  function Rest(c: Call): nat {
    match c.pc
    case SChunk(i) => 2 * Left(|c.chunks|, i) + 1
    case SChunkW(i) => 2 * Left(|c.chunks|, i + 1) + 2
    case SClean(m, i) => 2 * Left(m.count, i) + 1
    case SCleanW(m, i) => 2 * Left(m.count, i + 1) + 2
    case GChunk(m, read) => Left(m.count, |read|)
    case _ => 0
  }

  predicate Nearer(c: Call, d: Call) { Stage(d) < Stage(c) || (Stage(d) == Stage(c) && Rest(d) < Rest(c)) }

  lemma SetNearer(c: Call, kv: Kv, f: Fresh)
    requires c.kind == Set && (Publishing(c.pc) || Deleting(c.pc) || Settling(c.pc)) && !Waiting(c.pc)
    ensures Nearer(c, Moved(SetStep(c, kv, f)))
  {
  }

  lemma ReadNearer(s: State, o: nat, c: Call, kv: Kv)
    requires Reads(c) && GetStands(s, o, c) && !Waiting(c.pc) && !c.pc.Done?
    ensures Nearer(c, Moved(GetStep(c, kv)))
  {
  }

  lemma OtherNearer(s: State, o: nat, c: Call, kv: Kv, f: Fresh)
    requires c.kind != Set && !Reads(c) && OtherStands(s, o, c) && !Waiting(c.pc) && !c.pc.Done?
    ensures Nearer(c, Moved(OtherStep(c, kv, f)))
  {
  }

  lemma AnswerNearer(c: Call, won: bool)
    requires Waiting(c.pc) && (won || !(c.pc.SClaimW? || c.pc.SPublishW? || c.pc.ZClaimW? || c.pc.GClaimW? || c.pc.TClaimW?))
    ensures Nearer(c, Answered(c, won).call)
  {
  }

  /** Every step of a call, and every answer it hears, brings it nearer to its end, unless a compare-and-set lost. */
  lemma Advances(run: Run, i: nat, o: nat)
    requires ValidRun(run) && (StepsAt(run, i, o) || HearsAt(run, i, o))
    ensures |run.states| == |run.events| + 1 && o in run.states[i + 1].calls
    ensures || Nearer(run.states[i].calls[o], run.states[i + 1].calls[o])
            || (HearsAt(run, i, o) && !Takes(run.states[i].kv, run.events[i].req.w))
  {
    RunLength(run);
    RunStands(run, i, o);
    var s, c := run.states[i], run.states[i].calls[o];
    if HearsAt(run, i, o) {
      HeardInFlight(run, i, o);
      if Takes(s.kv, run.events[i].req.w) { AnswerNearer(c, true); }
    } else {
      SteppedTo(run, i, o);
      if c.kind == Set {
        SetPcs(s, o);
        SetNearer(c, s.kv, run.events[i].f);
      } else if Reads(c) {
        ReadNearer(s, o, c, s.kv);
      } else {
        OtherNearer(s, o, c, s.kv, run.events[i].f);
      }
    }
  }
}
