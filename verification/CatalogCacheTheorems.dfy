/** What holds over every run of the catalog cache. */
module CatalogCacheTheorems {
  import opened Options
  import opened CatalogCacheModel
  import opened CatalogCacheInvariant
  import opened CatalogCacheSteps

  /* ---- The invariant holds throughout ------------------------------------------------------ */

  /** Calls are only added, writes only lost, and entries only expire. */
  ghost predicate Eroded(s: State, t: State) {
    var eroded :=
      && t.flight <= s.flight && Onward(s, t) && Lasting(s, t) && t.shown == s.shown && t.replaced == s.replaced
      && t.kv.gen == s.kv.gen && t.past == s.past
      && (forall k :: k in t.kv.chunks ==> k in s.kv.chunks && t.kv.chunks[k] == s.kv.chunks[k])
      && (forall root :: root in t.kv.manifests ==> root in s.kv.manifests && t.kv.manifests[root] == s.kv.manifests[root])
      && (forall at :: at in t.kv.fences ==> at in s.kv.fences && t.kv.fences[at] == s.kv.fences[at])
      && (forall o :: o in s.calls ==> t.calls[o] == s.calls[o]);
    eroded
  }

  lemma ErodedStored(s: State, t: State)
    requires Chunks(s) && Entries(s) && Eroded(s, t)
    ensures Chunks(t) && Entries(t)
  {
    forall k | k in t.kv.chunks ensures ChunkOk(t, k, t.kv.chunks[k]) {
      assert ChunkOk(s, k, s.kv.chunks[k]);
      WrittenOnward(s, t, k.revision, k.root);
    }
    forall root | root in t.kv.manifests ensures EntryOk(t, root, t.kv.manifests[root]) {
      var m := s.kv.manifests[root];
      assert EntryOk(s, root, m);
      WrittenOnward(s, t, m.revision, root);
      StoredOnward(s, t, root, m.revision, m.count);
    }
  }

  lemma ErodedJustified(s: State, t: State, r: Req)
    requires Records(s) && Flight(s) && Eroded(s, t) && r in t.flight
    requires forall g :: g in t.bound && g !in s.bound ==> g !in s.used
    ensures Justified(t, r)
  {
    assert Justified(s, r);
    if r.w.Publish? { StoredOnward(s, t, r.w.root, r.w.m.revision, r.w.m.count); }
  }

  lemma ErodedStands(s: State, t: State, o: nat)
    requires Records(s) && Eroded(s, t) && o in s.calls && Stands(s, o, s.calls[o])
    ensures Stands(t, o, s.calls[o])
  {
    if s.calls[o].kind == Set {
      SetOnward(s, t, o, s.calls[o]);
    } else if Reads(s.calls[o]) {
      GetOnward(s, t, o, s.calls[o]);
    } else {
      OtherOnward(s, t, o, s.calls[o]);
    }
  }

  lemma ErodedMarks(s: State, t: State)
    requires Marks(s) && Eroded(s, t)
    requires forall o :: o in t.calls && o !in s.calls && t.calls[o].captured.Some? ==> t.calls[o].captured.value in s.kv.fences.Values
    ensures Marks(t)
  {
    forall r | r in t.flight && r.w.PutFence? ensures Unseen(t, r.w.mark) { assert Unseen(s, r.w.mark); }
  }

  lemma ErodedInv(s: State, t: State)
    requires Inv(s) && Eroded(s, t) && t.calls == s.calls && t.owner == s.owner && t.used == s.used && t.bound == s.bound
    ensures Inv(t)
  {
    ErodedStored(s, t);
    ErodedMarks(s, t);
    forall r | r in t.flight ensures Justified(t, r) { ErodedJustified(s, t, r); }
    forall o | o in t.calls ensures Stands(t, o, t.calls[o]) && Known(t, o, t.calls[o]) {
      assert Known(s, o, s.calls[o]);
      ErodedStands(s, t, o);
    }
  }

  lemma BeginInv(s: State, op: nat, c: Call)
    requires Inv(s) && Enabled(s, Begin(op, c))
    ensures Inv(Started(s, op, c))
  {
    var t := Started(s, op, c);
    BeginErodes(s, op, c);
    ErodedStored(s, t);
    ErodedMarks(s, t);
    BeginFlight(s, op, c);
    BeginRecords(s, op, c);
    forall o | o in t.calls ensures Stands(t, o, t.calls[o]) {
      if o in s.calls { ErodedStands(s, t, o); } else { BeginStands(s, op, c); }
    }
  }

  lemma BeginErodes(s: State, op: nat, c: Call)
    requires Records(s) && Enabled(s, Begin(op, c))
    ensures Eroded(s, Started(s, op, c))
    ensures forall g :: g in Started(s, op, c).bound && g !in s.bound ==> g !in s.used
  {
    BeginOnward(s, op, c);
  }

  lemma BeginOnward(s: State, op: nat, c: Call)
    requires Records(s) && Enabled(s, Begin(op, c))
    ensures Onward(s, Started(s, op, c)) && Lasting(s, Started(s, op, c))
  {
  }

  lemma BeginFlight(s: State, op: nat, c: Call)
    requires Records(s) && Flight(s) && Enabled(s, Begin(op, c))
    ensures Flight(Started(s, op, c))
  {
    var t := Started(s, op, c);
    BeginErodes(s, op, c);
    forall r | r in t.flight ensures Justified(t, r) { ErodedJustified(s, t, r); }
  }

  lemma BeginRecords(s: State, op: nat, c: Call)
    requires Generations(s) && Records(s) && Enabled(s, Begin(op, c))
    ensures Generations(Started(s, op, c)) && Records(Started(s, op, c))
  {
    var t := Started(s, op, c);
    forall o | o in t.calls ensures Known(t, o, t.calls[o]) { if o in s.calls { assert Known(s, o, s.calls[o]); } }
  }

  lemma BeginStands(s: State, op: nat, c: Call)
    requires Records(s) && Flight(s) && Enabled(s, Begin(op, c))
    ensures Stands(Started(s, op, c), op, c)
  {
    forall r | r in s.flight ensures r.op != op { assert Justified(s, r); }
  }

  lemma NextInv(s: State, e: Event)
    requires Inv(s) && Enabled(s, e)
    ensures Inv(Apply(s, e))
  {
    if e.Begin? {
      BeginInv(s, e.op, e.c);
    } else if e.Step? {
      StepInv(s, e.op, e.f);
    } else if e.Reply? {
      ReplyInv(s, e.req);
    } else if e.Land? {
      DeliverInv(s, e.req);
    } else if e.Quit? {
      QuitInv(s, e.op);
    } else if e.Trip? {
      TripInv(s, e.op);
    } else {
      ExpiryErodes(s, e);
      ErodedInv(s, Apply(s, e));
    }
  }

  lemma ExpiryErodes(s: State, e: Event)
    requires Enabled(s, e) && (e.Lose? || e.ExpireEntry? || e.ExpireChunk? || e.ExpireFence?)
    ensures var t := Apply(s, e);
      Eroded(s, t) && t.calls == s.calls && t.owner == s.owner && t.used == s.used && t.bound == s.bound
  {
  }

  lemma {:induction false} RunInv(run: Run, i: nat)
    requires ValidRun(run) && i < |run.states|
    ensures Inv(run.states[i])
  {
    if i == 0 {
      InitialInv();
    } else {
      RunInv(run, i - 1);
      NextInv(run.states[i - 1], run.events[i - 1]);
    }
  }

  /* ---- What a read can return -------------------------------------------------------------- */

  /** This step of the run answers a get with a value. */
  predicate HitAt(run: Run, i: nat, o: nat, value: string) {
    && i < |run.events| && |run.states| == |run.events| + 1
    && o in run.states[i].calls && !run.states[i].calls[o].pc.Done?
    && o in run.states[i + 1].calls && run.states[i + 1].calls[o].pc == Done(Hit(value))
  }

  /** Only the generation check serves a value, when it finds the get's own generation or claims it. */
  lemma HitStep(s: State, e: Event, o: nat, value: string)
    requires Enabled(s, e) && o in s.calls && !s.calls[o].pc.Done? && Stands(s, o, s.calls[o])
    requires o in Apply(s, e).calls && Apply(s, e).calls[o].pc == Done(Hit(value))
    ensures s.calls[o].kind == Get && Apply(s, e).kv.gen == Some(s.calls[o].root.gen)
  {
    if e.Step? && e.op == o {
      HitByStep(s, o, e.f, value);
    } else if e.Reply? && e.req.op == o {
      HitByReply(s, e.req, value);
    } else {
      OthersStay(s, e, o);
    }
  }

  lemma OthersStay(s: State, e: Event, o: nat)
    requires Enabled(s, e) && o in s.calls && !(e.Step? && e.op == o) && !(e.Reply? && e.req.op == o)
    ensures o in Apply(s, e).calls
    ensures Apply(s, e).calls[o] == s.calls[o] || Apply(s, e).calls[o].pc == Done(Over) || Apply(s, e).calls[o].pc == SLift
  {
  }

  lemma HitStepOf(c: Call, kv: Kv, value: string)
    requires Moved(GetStep(c, kv)).pc == Done(Hit(value)) && !c.pc.Done?
    ensures c.pc.GCheck? && c.kind != Stale && kv.gen == Some(c.root.gen)
  {
  }

  lemma OthersNeverServe(s: State, o: nat, f: Fresh)
    requires o in s.calls && !Reads(s.calls[o]) && !s.calls[o].pc.Done?
    ensures var pc := Moved(Proceed(s.calls[o], s.kv, f)).pc; pc.Done? ==> !pc.out.Hit? && !pc.out.Stood?
  {
  }

  lemma StepMoves(s: State, o: nat, f: Fresh)
    requires Enabled(s, Step(o, f))
    ensures o in Apply(s, Step(o, f)).calls && Apply(s, Step(o, f)).calls[o] == Moved(Proceed(s.calls[o], s.kv, f))
    ensures Reads(s.calls[o]) ==> Proceed(s.calls[o], s.kv, f) == GetStep(s.calls[o], s.kv)
  {
  }

  lemma HitByStep(s: State, o: nat, f: Fresh, value: string)
    requires Enabled(s, Step(o, f)) && Apply(s, Step(o, f)).calls[o].pc == Done(Hit(value))
    ensures s.calls[o].kind == Get && s.kv.gen == Some(s.calls[o].root.gen)
  {
    StepMoves(s, o, f);
    if Reads(s.calls[o]) { HitStepOf(s.calls[o], s.kv, value); } else { OthersNeverServe(s, o, f); }
  }

  lemma HitByReply(s: State, r: Req, value: string)
    requires Enabled(s, Reply(r)) && Stands(s, r.op, s.calls[r.op])
    requires Apply(s, Reply(r)).calls[r.op].pc == Done(Hit(value))
    ensures s.calls[r.op].kind == Get && Deliver(s, r).kv.gen == Some(s.calls[r.op].root.gen)
  {
    var c := s.calls[r.op];
    HitAnswer(c, Takes(s.kv, r.w), value);
    ClaimHeard(s, r);
  }

  lemma HitAnswer(c: Call, won: bool, value: string)
    requires Answered(c, won).call.pc == Done(Hit(value))
    ensures c.pc.GClaimW? && won && c.kind != Stale
  {
  }

  /** A reader that hears that its claim won has made its own generation current. */
  lemma ClaimHeard(s: State, r: Req)
    requires r in s.flight && r.op in s.calls && r.n + 1 == s.calls[r.op].sent && Stands(s, r.op, s.calls[r.op])
    requires s.calls[r.op].pc.GClaimW? || s.calls[r.op].pc.TClaimW?
    ensures Reads(s.calls[r.op]) && r.w == Claim(s.calls[r.op].root.gen)
    ensures Takes(s.kv, r.w) ==> Deliver(s, r).kv.gen == Some(s.calls[r.op].root.gen)
  {
  }

  lemma HitServed(s: State, o: nat)
    requires o in s.calls && s.calls[o].pc.Done? && (s.calls[o].pc.out.Hit? || s.calls[o].pc.out.Stood?)
    requires Stands(s, o, s.calls[o])
    ensures s.calls[o].kind == (if s.calls[o].pc.out.Hit? then Get else Stale)
    ensures Served(s, s.calls[o].root, s.calls[o].pc.out.value)
  {
  }

  /**
   * A value a get returns is the complete value of one set, published at the address the get read, under the
   * generation that is current at the very step that returns it.
   */
  lemma NoTornReads(run: Run, i: nat, o: nat, value: string)
    requires ValidRun(run) && HitAt(run, i, o, value)
    ensures run.states[i].calls[o].kind == Get
    ensures run.states[i + 1].kv.gen == Some(run.states[i].calls[o].root.gen)
    ensures Served(run.states[i + 1], run.states[i].calls[o].root, value)
  {
    RunStands(run, i, o);
    RunStands(run, i + 1, o);
    HitStep(run.states[i], run.events[i], o, value);
    OnwardStep(run, i);
    HitServed(run.states[i + 1], o);
  }

  lemma SetSteady(c: Call, kv: Kv, f: Fresh)
    ensures Steady(c, Moved(SetStep(c, kv, f)))
  {
  }

  lemma GetSteady(c: Call, kv: Kv)
    ensures Steady(c, Moved(GetStep(c, kv)))
  {
  }

  lemma OtherSteady(c: Call, kv: Kv, f: Fresh)
    ensures Steady(c, Moved(OtherStep(c, kv, f)))
  {
  }

  lemma AnswerSteady(c: Call, won: bool)
    ensures Answered(c, won).Go? && Steady(c, Answered(c, won).call)
  {
  }

  lemma PlacedOnward(s: State, o: nat, m: Move, id: nat)
    requires o in s.calls && Steady(s.calls[o], Moved(m))
    ensures Onward(s, Place(s, o, m, id))
  {
  }

  lemma NextOnward(s: State, e: Event)
    requires Inv(s) && Enabled(s, e)
    ensures Onward(s, Apply(s, e))
  {
    if e.Step? {
      StepOnward(s, e.op, e.f);
    } else if e.Reply? {
      ReplyOnward(s, e.req);
    } else if e.Land? {
      DeliverOnward(s, e.req);
    } else {
      RestOnward(s, e);
    }
  }

  lemma RestOnward(s: State, e: Event)
    requires Records(s) && Enabled(s, e) && !e.Step? && !e.Reply? && !e.Land?
    ensures Onward(s, Apply(s, e))
  {
    if e.Quit? {
      PlacedOnward(s, e.op, End(s.calls[e.op], Over), s.calls[e.op].revision);
    } else if e.Trip? {
      PlacedOnward(s, e.op, At(s.calls[e.op], SLift), s.calls[e.op].revision);
    } else if e.Begin? {
      BeginErodes(s, e.op, e.c);
    } else {
      ExpiryErodes(s, e);
    }
  }

  lemma OnwardTrans(s: State, t: State, u: State)
    requires Onward(s, t) && Onward(t, u)
    ensures Onward(s, u)
  {
  }

  lemma StepOnward(s: State, o: nat, f: Fresh)
    requires Enabled(s, Step(o, f))
    ensures Onward(s, Apply(s, Step(o, f)))
  {
    var c := s.calls[o];
    if c.kind == Set { SetSteady(c, s.kv, f); } else if Reads(c) { GetSteady(c, s.kv); } else { OtherSteady(c, s.kv, f); }
    PlacedOnward(s, o, Proceed(c, s.kv, f), f.id);
  }

  lemma ReplyOnward(s: State, r: Req)
    requires Enabled(s, Reply(r))
    ensures Onward(s, Apply(s, Reply(r)))
  {
    var t, m := Deliver(s, r), Answered(s.calls[r.op], Takes(s.kv, r.w));
    AnswerSteady(s.calls[r.op], Takes(s.kv, r.w));
    DeliverOnward(s, r);
    PlacedOnward(t, r.op, m, s.calls[r.op].revision);
    OnwardTrans(s, t, Place(t, r.op, m, s.calls[r.op].revision));
  }

  lemma OnwardStep(run: Run, i: nat)
    requires ValidRun(run) && i < |run.events|
    ensures Onward(run.states[i], run.states[i + 1])
  {
    RunInv(run, i);
    NextOnward(run.states[i], run.events[i]);
  }

  lemma {:induction false} RunOnward(run: Run, i: nat, j: nat)
    requires ValidRun(run) && i <= j < |run.states|
    ensures Onward(run.states[i], run.states[j])
    decreases j - i
  {
    if i < j {
      RunOnward(run, i, j - 1);
      OnwardStep(run, j - 1);
      OnwardTrans(run.states[i], run.states[j - 1], run.states[j]);
    }
  }

  /* ---- Invalidation ------------------------------------------------------------------------ */

  /** A generation that is no longer current is never current again. */
  lemma GenerationNeverReturns(run: Run, i: nat, j: nat, k: nat, g: nat)
    requires ValidRun(run) && i <= j <= k < |run.states|
    requires run.states[i].kv.gen == Some(g) && run.states[k].kv.gen == Some(g)
    ensures run.states[j].kv.gen == Some(g)
  {
    RunInv(run, i);
    RunInv(run, j);
    RunInv(run, k);
    RunOnward(run, i, j);
    RunOnward(run, j, k);
    var a, b, c := run.states[i].past, run.states[j].past, run.states[k].past;
    assert a <= b <= c;
    assert c[|a| - 1] == g && c[|c| - 1] == g;
  }

  /** What was published under a generation is served by no get that ends after that generation was replaced. */
  lemma InvalidatedNeverServed(run: Run, i: nat, j: nat, k: nat, o: nat, value: string)
    requires ValidRun(run) && i <= j <= k && HitAt(run, k, o, value)
    requires run.states[i].kv.gen.Some? && run.states[j].kv.gen != run.states[i].kv.gen
    ensures Some(run.states[k].calls[o].root.gen) != run.states[i].kv.gen
  {
    NoTornReads(run, k, o, value);
    if Some(run.states[k].calls[o].root.gen) == run.states[i].kv.gen {
      GenerationNeverReturns(run, i, j, k + 1, run.states[k].calls[o].root.gen);
    }
  }

  /* ---- Cleanup ----------------------------------------------------------------------------- */

  /** The chunks of a current manifest are all there, except for those that ran out of time. */
  lemma CurrentChunksStay(run: Run, i: nat, root: Root, n: nat)
    requires ValidRun(run) && i < |run.states| && root in run.states[i].kv.manifests
    requires n < run.states[i].kv.manifests[root].count
    ensures var s := run.states[i];
      var key := ChunkKey(root, s.kv.manifests[root].revision, n);
      key in s.expired || (Written(s, key.revision, root) && n < |Parts(s, key.revision)|
                           && key in s.kv.chunks && s.kv.chunks[key] == Parts(s, key.revision)[n])
  {
    var s := run.states[i];
    RunInv(run, i);
    assert EntryOk(s, root, s.kv.manifests[root]);
    var key := ChunkKey(root, s.kv.manifests[root].revision, n);
    if key in s.kv.chunks { assert ChunkOk(s, key, s.kv.chunks[key]); }
  }

  /** A chunk that disappears from a current entry expired. */
  lemma CleanupSparesCurrent(run: Run, i: nat, root: Root, key: ChunkKey)
    requires ValidRun(run) && i < |run.events| && root in run.states[i].kv.manifests
    requires key.root == root && key.revision == run.states[i].kv.manifests[root].revision
    requires key in run.states[i].kv.chunks && key !in run.states[i + 1].kv.chunks
    ensures run.events[i] == ExpireChunk(key)
  {
    var s, e := run.states[i], run.events[i];
    RunInv(run, i);
    assert EntryOk(s, root, s.kv.manifests[root]);
    if e.Reply? || e.Land? { assert Justified(s, e.req); }
    StoreChange(s, e);
    ChunkGone(s, e, key);
  }

  /** What each event does to the store. */
  function KvAfter(s: State, e: Event): Kv {
    match e
    case Reply(r) => Landed(s.kv, r.w)
    case Land(r) => Landed(s.kv, r.w)
    case ExpireEntry(root) => s.kv.(manifests := s.kv.manifests - {root})
    case ExpireChunk(key) => s.kv.(chunks := s.kv.chunks - {key})
    case ExpireFence(at) => s.kv.(fences := s.kv.fences - {at})
    case _ => s.kv
  }

  /** The store changes only when a write lands or something expires. */
  lemma StoreChange(s: State, e: Event)
    requires Enabled(s, e)
    ensures Apply(s, e).kv == KvAfter(s, e)
  {
  }

  lemma ChunkGone(s: State, e: Event, key: ChunkKey)
    requires key in s.kv.chunks && key !in KvAfter(s, e).chunks
    ensures e == ExpireChunk(key) || ((e.Reply? || e.Land?) && e.req.w == DropChunk(key))
  {
  }

  /** A reader never rejects by fingerprint what it read whole: every chunk it found belongs to its manifest's value. */
  lemma WholeReadsMatch(run: Run, i: nat, o: nat)
    requires ValidRun(run) && i < |run.states| && o in run.states[i].calls && run.states[i].calls[o].kind == Get
    requires run.states[i].calls[o].pc.GChunk? && |run.states[i].calls[o].pc.read| == run.states[i].calls[o].pc.m.count
    ensures Concat(run.states[i].calls[o].pc.read) == run.states[i].calls[o].pc.m.fingerprint
  {
    var s := run.states[i];
    RunInv(run, i);
    assert Stands(s, o, s.calls[o]);
    WholeIsServed(s, s.calls[o], s.calls[o].pc.m, s.calls[o].pc.read);
  }

  /** An entry is replaced only by one with a later stamp. */
  lemma StampsIncrease(run: Run, i: nat, root: Root)
    requires ValidRun(run) && i < |run.events|
    requires root in run.states[i].kv.manifests && root in run.states[i + 1].kv.manifests
    requires run.states[i].kv.manifests[root] != run.states[i + 1].kv.manifests[root]
    ensures run.states[i].kv.manifests[root].stamp < run.states[i + 1].kv.manifests[root].stamp
  {
    var s, e := run.states[i], run.events[i];
    RunInv(run, i);
    StoreChange(s, e);
    EntryReplaced(s, e, root);
    assert Justified(s, e.req);
  }

  lemma EntryReplaced(s: State, e: Event, root: Root)
    requires root in s.kv.manifests && root in KvAfter(s, e).manifests
    requires s.kv.manifests[root] != KvAfter(s, e).manifests[root]
    ensures e.Reply? || e.Land?
    ensures e.req.w == Publish(root, Some(s.kv.manifests[root]), KvAfter(s, e).manifests[root])
  {
  }

  /* ---- Fences ------------------------------------------------------------------------------ */

  /** A standing fence goes only by expiry, by a newer refusal, or by a listing that captured that very fence. */
  lemma FenceChanges(run: Run, i: nat, at: Root)
    requires ValidRun(run) && i < |run.events| && at in run.states[i].kv.fences
    requires FenceAt(run.states[i + 1].kv, at) != FenceAt(run.states[i].kv, at)
    ensures var s, e := run.states[i], run.events[i];
      || e == ExpireFence(at)
      || ((e.Reply? || e.Land?) && e.req.w.PutFence? && e.req.w.at == at)
      || ((e.Reply? || e.Land?) && e.req.w == LiftFence(at, s.kv.fences[at])
          && e.req.op in s.calls && s.calls[e.req.op].captured == Some(s.kv.fences[at]))
  {
    var s, e := run.states[i], run.events[i];
    RunInv(run, i);
    StoreChange(s, e);
    FenceMoved(s, e, at);
    if e.Reply? || e.Land? { assert Justified(s, e.req); }
  }

  lemma FenceMoved(s: State, e: Event, at: Root)
    requires at in s.kv.fences && FenceAt(KvAfter(s, e), at) != Some(s.kv.fences[at])
    ensures e == ExpireFence(at) || e.Reply? || e.Land?
    ensures e.Reply? || e.Land? ==> e.req.w == LiftFence(at, s.kv.fences[at]) || (e.req.w.PutFence? && e.req.w.at == at)
  {
  }

  /** A refusal recorded after a listing captured its fence is never lifted by that listing's success. */
  lemma RefusalSurvives(run: Run, i: nat, k: nat, o: nat, mark: nat, at: Root)
    requires ValidRun(run) && i <= k < |run.events|
    requires o in run.states[i].calls && mark !in run.states[i].used
    requires (run.events[k].Reply? || run.events[k].Land?) && run.events[k].req.w == LiftFence(at, mark)
    ensures run.events[k].req.op != o
  {
    RunFlight(run, k);
    LifterCaptured(run.states[k], run.events[k].req);
    RunKnown(run, i, o);
    RunOnward(run, i, k);
  }

  /** Step `k` of the run lands this write. */
  predicate LandsAt(run: Run, k: nat, w: Write) {
    k < |run.events| && (run.events[k].Reply? || run.events[k].Land?) && run.events[k].req.w == w
  }

  /** What may take the fence `mark`, written by step `p`, away at step `k`. */
  predicate TakenAway(run: Run, p: nat, k: nat, at: Root, mark: nat) {
    && k < |run.events| && p + 1 < |run.states|
    && (|| run.events[k] == ExpireFence(at)
        || ((run.events[k].Reply? || run.events[k].Land?) && run.events[k].req.w.PutFence? && run.events[k].req.w.at == at)
        || (LandsAt(run, k, LiftFence(at, mark)) && run.events[k].req.op !in run.states[p + 1].calls))
  }

  predicate Uncaptured(s: State, mark: nat) {
    forall o :: o in s.calls ==> s.calls[o].captured != Some(mark)
  }

  /** When a refusal is recorded, no call there is has captured it. */
  lemma NobodyCaptured(run: Run, p: nat, at: Root, mark: nat)
    requires ValidRun(run) && LandsAt(run, p, PutFence(at, mark))
    ensures |run.states| == |run.events| + 1 && FenceAt(run.states[p + 1].kv, at) == Some(mark)
    ensures Uncaptured(run.states[p + 1], mark)
  {
    RunFlight(run, p);
    Recorded(run.states[p], run.events[p], at, mark);
  }

  lemma Recorded(s: State, e: Event, at: Root, mark: nat)
    requires Marks(s) && Enabled(s, e) && (e.Reply? || e.Land?) && e.req.w == PutFence(at, mark)
    ensures FenceAt(Apply(s, e).kv, at) == Some(mark)
    ensures Uncaptured(Apply(s, e), mark)
  {
    assert Unseen(s, mark);
    if e.Reply? { AnswerSteady(s.calls[e.req.op], true); }
  }

  lemma FenceRecorded(run: Run, p: nat, at: Root, mark: nat)
    requires ValidRun(run) && LandsAt(run, p, PutFence(at, mark))
    ensures |run.states| == |run.events| + 1 && FenceAt(run.states[p + 1].kv, at) == Some(mark)
  {
    NobodyCaptured(run, p, at, mark);
  }

  lemma LifterCaptured(s: State, r: Req)
    requires Flight(s) && r in s.flight && r.w.LiftFence?
    ensures r.op in s.calls && s.calls[r.op].captured == Some(r.w.mark)
  {
    assert Justified(s, r);
  }

  lemma RunFlight(run: Run, k: nat)
    requires ValidRun(run) && k < |run.events| && (run.events[k].Reply? || run.events[k].Land?)
    ensures run.events[k].req in run.states[k].flight && Flight(run.states[k]) && Marks(run.states[k])
  {
    RunInv(run, k);
  }

  /** A call that was there when the refusal was recorded never lifts it. */
  lemma LiftedByLater(run: Run, p: nat, k: nat, at: Root, mark: nat)
    requires ValidRun(run) && p < k && LandsAt(run, p, PutFence(at, mark)) && LandsAt(run, k, LiftFence(at, mark))
    ensures |run.states| == |run.events| + 1 && run.events[k].req.op !in run.states[p + 1].calls
  {
    NobodyCaptured(run, p, at, mark);
    RunFlight(run, k);
    LifterCaptured(run.states[k], run.events[k].req);
    RunOnward(run, p + 1, k);
  }

  lemma FenceGoes(run: Run, p: nat, k: nat, at: Root, mark: nat)
    requires ValidRun(run) && LandsAt(run, p, PutFence(at, mark)) && p < k < |run.events|
    requires |run.states| == |run.events| + 1
    requires FenceAt(run.states[k].kv, at) == Some(mark) && FenceAt(run.states[k + 1].kv, at) != Some(mark)
    ensures TakenAway(run, p, k, at, mark)
  {
    FenceChanges(run, k, at);
    if LandsAt(run, k, LiftFence(at, mark)) { LiftedByLater(run, p, k, at, mark); }
  }

  /**
   * A refusal stands from the step that records it until its fence expires, a newer refusal of the same
   * credential replaces it, or a call that began only afterwards lifts it.
   */
  lemma {:induction false} FenceStands(run: Run, p: nat, q: nat, at: Root, mark: nat)
    requires ValidRun(run) && LandsAt(run, p, PutFence(at, mark)) && p < q < |run.states|
    ensures FenceAt(run.states[q].kv, at) == Some(mark) || exists k :: p < k < q && TakenAway(run, p, k, at, mark)
    decreases q
  {
    FenceRecorded(run, p, at, mark);
    if q > p + 1 {
      FenceStands(run, p, q - 1, at, mark);
      if FenceAt(run.states[q - 1].kv, at) == Some(mark) {
        if FenceAt(run.states[q].kv, at) != Some(mark) { FenceGoes(run, p, q - 1, at, mark); }
      } else {
        var k :| p < k < q - 1 && TakenAway(run, p, k, at, mark);
      }
    }
  }

  /* ---- Standing in ------------------------------------------------------------------------- */

  /** This step of the run lets an expired catalog stand in. */
  predicate StoodAt(run: Run, i: nat, o: nat, value: string) {
    && i < |run.events| && |run.states| == |run.events| + 1
    && o in run.states[i].calls && !run.states[i].calls[o].pc.Done?
    && o in run.states[i + 1].calls && run.states[i + 1].calls[o].pc == Done(Stood(value))
  }

  /** The call is about to read its fence, in this and every state up to the next. */
  predicate AtFence(run: Run, j: nat, i: nat, o: nat) {
    i < |run.states| && forall k :: j <= k <= i ==> o in run.states[k].calls && run.states[k].calls[o].pc.TFence?
  }

  /** Step `j` is the check that sent the call on to its fence, and it found the call's own generation current. */
  predicate CheckedAt(run: Run, j: nat, i: nat, o: nat) {
    && j < i && AtFence(run, j + 1, i, o)
    && o in run.states[j].calls && (run.states[j].calls[o].pc.TCheck? || run.states[j].calls[o].pc.TClaimW?)
    && run.states[j + 1].kv.gen == Some(run.states[i].calls[o].root.gen)
  }

  lemma StoodStep(s: State, e: Event, o: nat, value: string)
    requires Enabled(s, e) && o in s.calls && !s.calls[o].pc.Done? && Stands(s, o, s.calls[o])
    requires o in Apply(s, e).calls && Apply(s, e).calls[o].pc == Done(Stood(value))
    ensures s.calls[o].pc.TFence? && FenceAt(s.kv, s.calls[o].fence) == None
  {
    if e.Reply? && e.req.op == o {
      NeverStands(s.calls[o], Takes(s.kv, e.req.w));
    } else if e.Step? && e.op == o {
      StoodByStep(s, o, e.f, value);
    } else {
      OthersStay(s, e, o);
    }
  }

  lemma StoodStepOf(c: Call, kv: Kv, value: string)
    requires Moved(GetStep(c, kv)).pc == Done(Stood(value)) && !c.pc.Done?
    ensures c.pc.TFence? && FenceAt(kv, c.fence) == None
  {
  }

  lemma StoodByStep(s: State, o: nat, f: Fresh, value: string)
    requires Enabled(s, Step(o, f)) && Apply(s, Step(o, f)).calls[o].pc == Done(Stood(value))
    ensures s.calls[o].pc.TFence? && FenceAt(s.kv, s.calls[o].fence) == None
  {
    StepMoves(s, o, f);
    if Reads(s.calls[o]) { StoodStepOf(s.calls[o], s.kv, value); } else { OthersNeverServe(s, o, f); }
  }

  /** No answer lets a catalog stand in. */
  lemma NeverStands(c: Call, won: bool)
    ensures Answered(c, won).Go? && !(Answered(c, won).call.pc.Done? && Answered(c, won).call.pc.out.Stood?)
  {
  }

  /** A call gets to its fence only through a check that found its own generation current. */
  lemma ReachesFence(s: State, e: Event, o: nat)
    requires Enabled(s, e) && o in s.calls && Reads(s.calls[o]) && GetStands(s, o, s.calls[o])
    requires o in Apply(s, e).calls && Apply(s, e).calls[o].pc.TFence? && !s.calls[o].pc.TFence?
    ensures s.calls[o].pc.TCheck? || s.calls[o].pc.TClaimW?
    ensures Apply(s, e).kv.gen == Some(s.calls[o].root.gen)
  {
    StoreChange(s, e);
    if e.Reply? && e.req.op == o {
      FenceAnswer(s.calls[o], Takes(s.kv, e.req.w));
      ClaimHeard(s, e.req);
    } else if e.Step? && e.op == o {
      FenceStep(s.calls[o], s.kv);
    } else {
      OthersStay(s, e, o);
    }
  }

  lemma FenceStep(c: Call, kv: Kv)
    requires Moved(GetStep(c, kv)).pc.TFence? && !c.pc.TFence?
    ensures c.pc.TCheck? && kv.gen == Some(c.root.gen)
  {
  }

  lemma FenceAnswer(c: Call, won: bool)
    requires Answered(c, won).call.pc.TFence?
    ensures c.pc.TClaimW? && won
  {
  }

  lemma NewCall(s: State, e: Event, o: nat)
    requires Enabled(s, e) && o !in s.calls && o in Apply(s, e).calls
    ensures !Apply(s, e).calls[o].pc.TFence?
  {
  }

  lemma FenceIsStale(s: State, o: nat)
    requires o in s.calls && s.calls[o].pc.TFence? && Stands(s, o, s.calls[o])
    ensures s.calls[o].kind == Stale
  {
  }

  lemma JustReached(s: State, e: Event, o: nat)
    requires Enabled(s, e) && o in Apply(s, e).calls && Apply(s, e).calls[o].pc.TFence?
    requires Apply(s, e).calls[o].kind == Stale
    requires o in s.calls ==> !s.calls[o].pc.TFence? && s.calls[o].kind == Stale && GetStands(s, o, s.calls[o])
    ensures o in s.calls && (s.calls[o].pc.TCheck? || s.calls[o].pc.TClaimW?)
    ensures Apply(s, e).kv.gen == Some(s.calls[o].root.gen)
  {
    if o in s.calls { ReachesFence(s, e, o); } else { NewCall(s, e, o); }
  }

  lemma RunStands(run: Run, i: nat, o: nat)
    requires ValidRun(run) && i < |run.states| && o in run.states[i].calls
    ensures Stands(run.states[i], o, run.states[i].calls[o])
  {
    RunInv(run, i);
    Standing(run.states[i], o);
  }

  lemma FenceJustReached(run: Run, i: nat, o: nat)
    requires ValidRun(run) && i < |run.events| && o in run.states[i + 1].calls && run.states[i + 1].calls[o].pc.TFence?
    requires o in run.states[i].calls ==> !run.states[i].calls[o].pc.TFence?
    ensures CheckedAt(run, i, i + 1, o)
  {
    RunStands(run, i + 1, o);
    FenceIsStale(run.states[i + 1], o);
    OnwardStep(run, i);
    if o in run.states[i].calls { RunStands(run, i, o); }
    JustReached(run.states[i], run.events[i], o);
  }

  lemma RunKnown(run: Run, i: nat, o: nat)
    requires ValidRun(run) && i < |run.states| && o in run.states[i].calls
    ensures Known(run.states[i], o, run.states[i].calls[o])
  {
    RunInv(run, i);
  }

  lemma {:induction false} FenceReadIsChecked(run: Run, i: nat, o: nat) returns (j: nat)
    requires ValidRun(run) && i < |run.states| && o in run.states[i].calls && run.states[i].calls[o].pc.TFence?
    ensures CheckedAt(run, j, i, o)
    decreases i
  {
    assert i > 0 by { assert run.states[0] == Initial; }
    if o in run.states[i - 1].calls && run.states[i - 1].calls[o].pc.TFence? {
      j := FenceReadIsChecked(run, i - 1, o);
      OnwardStep(run, i - 1);
    } else {
      j := i - 1;
      FenceJustReached(run, i - 1, o);
    }
  }

  /** Step `k` of the run replaces the generation. */
  predicate ReplacedAt(run: Run, k: nat) {
    k < |run.events| && (run.events[k].Reply? || run.events[k].Land?) && run.events[k].req.w.Replace?
  }

  /** No step from `j` up to `i` replaces it. */
  predicate Unreplaced(run: Run, j: nat, i: nat) {
    forall k :: j <= k < i ==> !ReplacedAt(run, k)
  }

  lemma UnreplacedMore(run: Run, j: nat, i: nat)
    requires j < i
    ensures Unreplaced(run, j, i) <==> Unreplaced(run, j, i - 1) && !ReplacedAt(run, i - 1)
  {
  }

  /** A replacement never stores the generation that is current. */
  lemma ReplacementIsNew(s: State, e: Event, g: nat)
    requires Generations(s) && Flight(s) && Enabled(s, e) && s.kv.gen == Some(g)
    ensures Apply(s, e).kv.gen == Some(g) <==> !((e.Reply? || e.Land?) && e.req.w.Replace?)
  {
    StoreChange(s, e);
    if e.Reply? || e.Land? { assert Justified(s, e.req); }
  }

  lemma ReplacesStep(run: Run, k: nat, g: nat)
    requires ValidRun(run) && k < |run.events| && run.states[k].kv.gen == Some(g)
    ensures run.states[k + 1].kv.gen == Some(g) <==> !ReplacedAt(run, k)
  {
    RunInv(run, k);
    ReplacementIsNew(run.states[k], run.events[k], g);
  }

  lemma {:induction false} CurrentUntilReplaced(run: Run, j: nat, i: nat, g: nat)
    requires ValidRun(run) && j <= i < |run.states| && run.states[j].kv.gen == Some(g)
    ensures run.states[i].kv.gen == Some(g) <==> Unreplaced(run, j, i)
    decreases i - j
  {
    if j < i {
      UnreplacedMore(run, j, i);
      CurrentUntilReplaced(run, j, i - 1, g);
      if run.states[i - 1].kv.gen == Some(g) {
        ReplacesStep(run, i - 1, g);
      } else {
        StaysReplaced(run, j, i - 1, i, g);
      }
    }
  }

  lemma StaysReplaced(run: Run, i: nat, j: nat, k: nat, g: nat)
    requires ValidRun(run) && i <= j <= k < |run.states| && run.states[i].kv.gen == Some(g) && run.states[j].kv.gen != Some(g)
    ensures run.states[k].kv.gen != Some(g)
  {
    if run.states[k].kv.gen == Some(g) { GenerationNeverReturns(run, i, j, k, g); }
  }

  /**
   * When the fence read lets a catalog stand in, its generation is still current if and only if no
   * replacement landed since the check before that read.
   */
  lemma StandsInWhileCurrent(run: Run, i: nat, o: nat, value: string) returns (j: nat)
    requires ValidRun(run) && StoodAt(run, i, o, value)
    ensures CheckedAt(run, j, i, o)
    ensures run.states[i].kv.gen == Some(run.states[i].calls[o].root.gen) <==> Unreplaced(run, j + 1, i)
  {
    j := StaleNeedsNoFence(run, i, o, value);
    CurrentUntilReplaced(run, j + 1, i, run.states[i].calls[o].root.gen);
  }

  /**
   * An expired catalog that stands in is the complete value of one set, published at the address the call
   * read. No fence stood at the step that decides it, and the last thing the call did before reading the
   * fence was to find the generation of that address current.
   */
  lemma StaleNeedsNoFence(run: Run, i: nat, o: nat, value: string) returns (j: nat)
    requires ValidRun(run) && StoodAt(run, i, o, value)
    ensures run.states[i].calls[o].kind == Stale
    ensures Served(run.states[i + 1], run.states[i].calls[o].root, value)
    ensures var c := run.states[i].calls[o]; FenceAt(run.states[i].kv, c.fence) == None && c.fence.gen == c.root.gen
    ensures CheckedAt(run, j, i, o)
  {
    RunStands(run, i, o);
    RunStands(run, i + 1, o);
    OnwardStep(run, i);
    StoodStep(run.states[i], run.events[i], o, value);
    HitServed(run.states[i + 1], o);
    RunKnown(run, i, o);
    j := FenceReadIsChecked(run, i, o);
  }
}
