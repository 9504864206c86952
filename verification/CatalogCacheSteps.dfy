/** Landing a write, moving a call and letting entries expire keep the invariant. */
module CatalogCacheSteps {
  import opened Options
  import opened CatalogCacheModel
  import opened CatalogCacheInvariant

  /* ---- A write lands ---------------------------------------------------------------------- */

  lemma DeliverOnward(s: State, r: Req)
    ensures Onward(s, Deliver(s, r))
  {
  }

  lemma DeliverLasting(s: State, r: Req)
    requires Records(s) && Flight(s) && r in s.flight
    ensures Lasting(s, Deliver(s, r))
  {
    assert Justified(s, r);
  }

  lemma DeliverGenerations(s: State, r: Req)
    requires Generations(s) && Flight(s) && Records(s) && r in s.flight
    ensures Generations(Deliver(s, r))
  {
    assert Justified(s, r);
    if Takes(s.kv, r.w) && (r.w.Claim? || r.w.Replace?) {
      var c := s.calls[r.op];
      assert Known(s, r.op, c);
    }
  }

  lemma DeliverRecords(s: State, r: Req)
    requires Records(s) && Flight(s) && Entries(s) && r in s.flight
    ensures Records(Deliver(s, r))
  {
    var t := Deliver(s, r);
    assert Justified(s, r);
    assert Known(s, r.op, s.calls[r.op]);
    forall o | o in t.calls ensures Known(t, o, t.calls[o]) { assert Known(s, o, s.calls[o]); }
    if r.w.Publish? && Takes(s.kv, r.w) && r.w.was.Some? { assert EntryOk(s, r.w.root, r.w.was.value); }
  }

  lemma DeliverChunks(s: State, r: Req)
    requires Records(s) && Chunks(s) && Flight(s) && r in s.flight
    ensures Chunks(Deliver(s, r))
  {
    var t := Deliver(s, r);
    forall k | k in t.kv.chunks ensures ChunkOk(t, k, t.kv.chunks[k]) {
      DeliverOnward(s, r);
      if r.w == PutChunk(k, t.kv.chunks[k]) { PutChunkOk(s, r); } else { KeptChunk(s.kv, r.w, k); }
      WrittenOnward(s, t, k.revision, k.root);
    }
  }

  lemma KeptChunk(kv: Kv, w: Write, k: ChunkKey)
    requires k in Landed(kv, w).chunks && w != PutChunk(k, Landed(kv, w).chunks[k])
    ensures k in kv.chunks && kv.chunks[k] == Landed(kv, w).chunks[k]
  {
  }

  lemma PutChunkOk(s: State, r: Req)
    requires Records(s) && Flight(s) && r in s.flight && r.w.PutChunk?
    ensures ChunkOk(s, r.w.key, r.w.text)
  {
    assert Justified(s, r);
    assert Known(s, r.op, s.calls[r.op]);
  }

  /** What is swapped out is no longer current anywhere. */
  lemma ReplacedNotCurrent(s: State, r: Req, root: Root)
    requires Records(s) && Entries(s) && Flight(s) && r in s.flight
    requires root in Deliver(s, r).kv.manifests
    ensures Deliver(s, r).kv.manifests[root].revision !in Deliver(s, r).replaced
  {
    assert Justified(s, r);
    if r.w.Publish? && Takes(s.kv, r.w) {
      if r.w.was.Some? { assert EntryOk(s, r.w.root, r.w.was.value); }
      assert Known(s, r.op, s.calls[r.op]);
    }
    if root in s.kv.manifests { assert EntryOk(s, root, s.kv.manifests[root]); }
  }

  lemma DeliverEntry(s: State, r: Req, root: Root)
    requires Records(s) && Entries(s) && Flight(s) && r in s.flight
    requires root in Deliver(s, r).kv.manifests
    ensures EntryOk(Deliver(s, r), root, Deliver(s, r).kv.manifests[root])
  {
    var t := Deliver(s, r);
    var m := t.kv.manifests[root];
    assert Justified(s, r);
    assert Known(s, r.op, s.calls[r.op]);
    ReplacedNotCurrent(s, r, root);
    DeliverLasting(s, r);
    DeliverOnward(s, r);
    if r.w.Publish? && Takes(s.kv, r.w) && r.w.root == root {
      StoredOnward(s, t, root, m.revision, m.count);
    } else {
      assert EntryOk(s, root, m);
      StoredOnward(s, t, root, m.revision, m.count);
      WrittenOnward(s, t, m.revision, root);
    }
  }

  lemma DeliverJustified(s: State, r: Req, q: Req)
    requires Records(s) && Generations(s) && Flight(s) && Entries(s) && r in s.flight && q in s.flight && q != r
    ensures Justified(Deliver(s, r), q)
  {
    var t := Deliver(s, r);
    assert Justified(s, r) && Justified(s, q);
    assert Known(s, r.op, s.calls[r.op]) && Known(s, q.op, s.calls[q.op]);
    DeliverLasting(s, r);
    if q.w.Publish? {
      if r.w.Publish? && Takes(s.kv, r.w) && r.w.was.Some? { assert EntryOk(s, r.w.root, r.w.was.value); }
      assert q.w.m.revision !in t.replaced;
      StoredOnward(s, t, q.w.root, q.w.m.revision, q.w.m.count);
    } else if q.w.Replace? {
      assert r.w.Replace? ==> !SameReplacement(q.w, r.w);
    }
  }

  lemma DeliverFlight(s: State, r: Req)
    requires Records(s) && Generations(s) && Flight(s) && Entries(s) && r in s.flight
    ensures Flight(Deliver(s, r))
  {
    var t := Deliver(s, r);
    forall q | q in t.flight ensures Justified(t, q) { DeliverJustified(s, r, q); }
  }

  lemma DeliverSilent(s: State, r: Req, o: nat)
    requires Records(s) && Flight(s) && r in s.flight && o in s.calls
    ensures Silent(s, Deliver(s, r), o, s.calls[o])
  {
    assert Justified(s, r);
    assert Known(s, r.op, s.calls[r.op]) && Known(s, o, s.calls[o]);
  }

  lemma DeliverStands(s: State, r: Req, o: nat)
    requires Records(s) && Flight(s) && Entries(s) && r in s.flight && o in s.calls && Stands(s, o, s.calls[o])
    ensures Stands(Deliver(s, r), o, s.calls[o])
  {
    var t := Deliver(s, r);
    DeliverOnward(s, r);
    DeliverLasting(s, r);
    if s.calls[o].kind == Set {
      DeliverSilent(s, r, o);
      DeliverRecords(s, r);
      SetOnward(s, t, o, s.calls[o]);
    } else if Reads(s.calls[o]) {
      GetOnward(s, t, o, s.calls[o]);
    } else {
      OtherOnward(s, t, o, s.calls[o]);
    }
  }

  lemma DeliverMarks(s: State, r: Req)
    requires Marks(s) && r in s.flight
    ensures Marks(Deliver(s, r))
  {
    var t := Deliver(s, r);
    forall q | q in t.flight && q.w.PutFence? ensures Unseen(t, q.w.mark) {
      assert Unseen(s, q.w.mark);
      assert r.w.PutFence? ==> !SameMark(q.w, r.w);
    }
  }

  lemma DeliverInv(s: State, r: Req)
    requires Inv(s) && r in s.flight
    ensures Inv(Deliver(s, r))
  {
    var t := Deliver(s, r);
    DeliverGenerations(s, r);
    DeliverRecords(s, r);
    DeliverChunks(s, r);
    forall root | root in t.kv.manifests ensures EntryOk(t, root, t.kv.manifests[root]) { DeliverEntry(s, r, root); }
    DeliverFlight(s, r);
    DeliverMarks(s, r);
    forall o | o in t.calls ensures Stands(t, o, t.calls[o]) { DeliverStands(s, r, o); }
  }

  /* ---- A call moves ----------------------------------------------------------------------- */

  function Moved(m: Move): Call {
    match m case Go(c) => c case Send(c, _) => c.(sent := c.sent + 1)
  }

  /** What no step of a call changes. */
  predicate Steady(c: Call, d: Call) {
    && d.kind == c.kind && d.root == c.root && d.fence == c.fence && d.captured == c.captured
    && d.chunks == c.chunks && d.revision == c.revision && d.stored == c.stored && c.sent <= d.sent
  }

  /** The moved call stands where its steps lead, and what it sent is justified. */
  ghost predicate Legal(s: State, o: nat, m: Move, id: nat)
    requires o in s.calls
  {
    var t, c, d := Place(s, o, m, id), s.calls[o], Moved(m);
    var legal :=
      && Steady(c, d) && Stands(t, o, d) && m.call.sent == c.sent
      && (d.cast == c.cast || (m.Send? && m.w.Publish? && d.cast == Some(c.sent) && Unpublished(s, o, c)))
      && (m.Send? ==>
            && Justified(t, Req(o, c.sent, m.w))
            && (m.w.Replace? ==> m.w.gen == id && id !in s.used)
            && (m.w.PutFence? ==> m.w.mark == id && id !in s.used));
    legal
  }

  lemma PlaceOnward(s: State, o: nat, m: Move, id: nat)
    requires o in s.calls && Legal(s, o, m, id)
    ensures Onward(s, Place(s, o, m, id)) && Lasting(s, Place(s, o, m, id))
  {
  }

  lemma PlaceRecords(s: State, o: nat, m: Move, id: nat)
    requires Records(s) && o in s.calls && Legal(s, o, m, id)
    ensures Records(Place(s, o, m, id))
  {
    var t := Place(s, o, m, id);
    assert Known(s, o, s.calls[o]);
    forall p | p in t.calls ensures Known(t, p, t.calls[p]) { assert p in s.calls && Known(s, p, s.calls[p]); }
  }

  lemma PlaceStored(s: State, o: nat, m: Move, id: nat)
    requires Generations(s) && Chunks(s) && Entries(s) && o in s.calls && Legal(s, o, m, id)
    ensures var t := Place(s, o, m, id); Generations(t) && Chunks(t) && Entries(t)
  {
    var t := Place(s, o, m, id);
    PlaceOnward(s, o, m, id);
    forall k | k in t.kv.chunks ensures ChunkOk(t, k, t.kv.chunks[k]) {
      assert ChunkOk(s, k, s.kv.chunks[k]);
      WrittenOnward(s, t, k.revision, k.root);
    }
    forall root | root in t.kv.manifests ensures EntryOk(t, root, t.kv.manifests[root]) {
      assert EntryOk(s, root, s.kv.manifests[root]);
      WrittenOnward(s, t, s.kv.manifests[root].revision, root);
    }
  }

  lemma PlaceJustified(s: State, o: nat, m: Move, id: nat, q: Req)
    requires Flight(s) && o in s.calls && Legal(s, o, m, id) && q in s.flight
    ensures Justified(Place(s, o, m, id), q)
  {
    assert Justified(s, q);
    if q.w.Replace? && m.Send? && m.w.Replace? { assert q.w.gen != id; }
  }

  lemma PlaceFlight(s: State, o: nat, m: Move, id: nat)
    requires Flight(s) && o in s.calls && Legal(s, o, m, id)
    ensures Flight(Place(s, o, m, id))
  {
    var t := Place(s, o, m, id);
    forall q | q in s.flight ensures Justified(t, q) && Justified(s, q) { assert Justified(s, q); PlaceJustified(s, o, m, id, q); }
  }

  lemma PlaceMarks(s: State, o: nat, m: Move, id: nat)
    requires Records(s) && Flight(s) && Marks(s) && o in s.calls && Steady(s.calls[o], Moved(m))
    requires m.Send? && m.w.PutFence? ==> m.w.mark == id && id !in s.used
    ensures Marks(Place(s, o, m, id))
  {
    var t := Place(s, o, m, id);
    forall q | q in s.flight && q.w.PutFence? ensures Unseen(t, q.w.mark) && q.w.mark in s.used {
      assert Unseen(s, q.w.mark) && Justified(s, q);
    }
    if m.Send? && m.w.PutFence? { NewMark(s, id); assert Unseen(t, id); }
  }

  /** An id that was never drawn marks nothing. */
  lemma NewMark(s: State, id: nat)
    requires Records(s) && id !in s.used
    ensures Unseen(s, id)
  {
    forall o | o in s.calls ensures s.calls[o].captured != Some(id) { assert Known(s, o, s.calls[o]); }
  }

  lemma PlaceStands(s: State, o: nat, m: Move, id: nat, p: nat)
    requires Records(s) && o in s.calls && Legal(s, o, m, id) && p in s.calls && p != o && Stands(s, p, s.calls[p])
    ensures Stands(Place(s, o, m, id), p, s.calls[p])
  {
    var t := Place(s, o, m, id);
    PlaceOnward(s, o, m, id);
    if s.calls[p].kind == Set {
      SetOnward(s, t, p, s.calls[p]);
    } else if Reads(s.calls[p]) {
      GetOnward(s, t, p, s.calls[p]);
    } else {
      OtherOnward(s, t, p, s.calls[p]);
    }
  }

  lemma PlaceInv(s: State, o: nat, m: Move, id: nat)
    requires Inv(s) && o in s.calls && Legal(s, o, m, id)
    ensures Inv(Place(s, o, m, id))
  {
    var t := Place(s, o, m, id);
    PlaceRecords(s, o, m, id);
    PlaceStored(s, o, m, id);
    PlaceFlight(s, o, m, id);
    PlaceMarks(s, o, m, id);
    forall p | p in t.calls ensures Stands(t, p, t.calls[p]) { if p != o { PlaceStands(s, o, m, id, p); } }
  }

  /* ---- Steps of a set ---------------------------------------------------------------------- */

  lemma NewestIsLast(s: State, o: nat, d: Call, w: Write, id: nat)
    requires Flight(s) && o in s.calls && d.sent == s.calls[o].sent
    ensures Last(Place(s, o, Send(d, w), id), o, Moved(Send(d, w)), w)
  {
    forall r | r in s.flight && r.op == o ensures r.n < d.sent { assert Justified(s, r); }
  }

  lemma SetGo(s: State, o: nat, pc: Pc, id: nat)
    requires o in s.calls && s.calls[o].kind == Set && SetStands(s, o, s.calls[o].(pc := pc))
    ensures Legal(s, o, At(s.calls[o], pc), id)
  {
  }

  lemma ChunkLegal(s: State, o: nat, id: nat)
    requires Flight(s) && o in s.calls && s.calls[o].kind == Set && s.calls[o].pc.SChunk? && SetStands(s, o, s.calls[o])
    requires s.calls[o].pc.i < |s.calls[o].chunks|
    ensures var c := s.calls[o];
      Legal(s, o, Send(c.(pc := SChunkW(c.pc.i)), PutChunk(ChunkKey(c.root, c.revision, c.pc.i), c.chunks[c.pc.i])), id)
  {
    var c := s.calls[o];
    NewestIsLast(s, o, c.(pc := SChunkW(c.pc.i)), PutChunk(ChunkKey(c.root, c.revision, c.pc.i), c.chunks[c.pc.i]), id);
  }

  lemma ClaimLegal(s: State, o: nat, id: nat)
    requires Flight(s) && o in s.calls && s.calls[o].kind == Set && s.calls[o].pc.SCheck? && SetStands(s, o, s.calls[o])
    ensures var c := s.calls[o]; Legal(s, o, Send(c.(pc := SClaimW), Claim(c.root.gen)), id)
  {
    NewestIsLast(s, o, s.calls[o].(pc := SClaimW), Claim(s.calls[o].root.gen), id);
  }

  /** Publishing is justified once every chunk is stored, and supersedes the entry just read. */
  lemma PublishLegal(s: State, o: nat, f: Fresh)
    requires Flight(s) && o in s.calls && s.calls[o].kind == Set && s.calls[o].pc.SRead? && SetStands(s, o, s.calls[o])
    ensures Legal(s, o, SetStep(s.calls[o], s.kv, f), f.id)
  {
    var c := s.calls[o];
    var was := ManifestAt(s.kv, c.root);
    var m := Publication(c, was, f);
    NewestIsLast(s, o, c.(pc := SPublishW(was, m), cast := Some(c.sent)), Publish(c.root, was, m), f.id);
  }

  lemma CleanLegal(s: State, o: nat, id: nat)
    requires o in s.calls && s.calls[o].kind == Set && s.calls[o].pc.SClean? && SetStands(s, o, s.calls[o])
    ensures var c := s.calls[o];
      Legal(s, o, Send(c.(pc := SCleanW(c.pc.m, c.pc.i)), DropChunk(ChunkKey(c.root, c.pc.m.revision, c.pc.i))), id)
  {
  }

  lemma LiftLegal(s: State, o: nat, id: nat)
    requires Flight(s) && o in s.calls && s.calls[o].kind == Set && s.calls[o].captured.Some?
    ensures var c := s.calls[o]; Legal(s, o, Send(c.(pc := SLiftW), LiftFence(c.fence, c.captured.value)), id)
  {
    var c := s.calls[o];
    NewestIsLast(s, o, c.(pc := SLiftW), LiftFence(c.fence, c.captured.value), id);
  }

  lemma SetLegal(s: State, o: nat, f: Fresh)
    requires Flight(s) && o in s.calls && s.calls[o].kind == Set && SetStands(s, o, s.calls[o])
    requires !Waiting(s.calls[o].pc) && !s.calls[o].pc.Done? && f.id !in s.used
    ensures Legal(s, o, SetStep(s.calls[o], s.kv, f), f.id)
  {
    var c := s.calls[o];
    if c.pc.SChunk? {
      if c.pc.i < |c.chunks| { ChunkLegal(s, o, f.id); } else { SetGo(s, o, SCheck, f.id); }
    } else if c.pc.SCheck? {
      if s.kv.gen == Some(c.root.gen) { SetGo(s, o, SRead, f.id); }
      else if s.kv.gen == None { ClaimLegal(s, o, f.id); }
      else { SetGo(s, o, Done(Miss), f.id); }
    } else if c.pc.SRead? {
      PublishLegal(s, o, f);
    } else if c.pc.SClean? {
      if c.pc.i < c.pc.m.count { CleanLegal(s, o, f.id); } else { SetGo(s, o, SLift, f.id); }
    } else if c.pc.SLift? {
      if c.captured.Some? { LiftLegal(s, o, f.id); } else { SetGo(s, o, Done(Over), f.id); }
    } else {
      DropLegal(s, o, f);
    }
  }

  /** Deleting instead of publishing needs nothing but the call's own address. */
  lemma DropLegal(s: State, o: nat, f: Fresh)
    requires Flight(s) && o in s.calls && s.calls[o].kind == Set && (s.calls[o].pc.ZCheck? || s.calls[o].pc.ZDrop?)
    ensures Legal(s, o, SetStep(s.calls[o], s.kv, f), f.id)
  {
    if s.calls[o].pc.ZDrop? { NewestIsLast(s, o, s.calls[o].(pc := ZDropW), DropEntry(s.calls[o].root), f.id); }
  }

  /** A move that keeps the call's identity keeps what every revision wrote. */
  lemma PlaceWhole(s: State, o: nat, m: Move, id: nat, c: Call, d: Call, manifest: Manifest, read: seq<string>)
    requires o in s.calls && Steady(s.calls[o], Moved(m)) && Whole(s, c, manifest, read) && d.root == c.root
    ensures Whole(Place(s, o, m, id), d, manifest, read)
  {
  }

  lemma ClaimStands(s: State, o: nat, d: Call)
    requires Reads(d) && (d.pc.GClaimW? || (d.pc.TClaimW? && d.kind == Stale))
    requires Whole(s, d, d.pc.m, d.pc.read) && Last(s, o, d, Claim(d.root.gen))
    ensures Stands(s, o, d)
  {
  }

  lemma WholeIsServed(s: State, c: Call, m: Manifest, read: seq<string>)
    requires Reading(s, c, m, read) && |read| == m.count
    ensures Served(s, c.root, Concat(read)) && Concat(read) == m.fingerprint
  {
    assert read == Parts(s, m.revision);
  }

  /** The next chunk a reader finds is the next part of the same value. */
  lemma NextPart(s: State, c: Call, m: Manifest, read: seq<string>)
    requires Chunks(s) && Reading(s, c, m, read) && |read| < m.count
    requires ChunkKey(c.root, m.revision, |read|) in s.kv.chunks
    ensures Reading(s, c, m, read + [s.kv.chunks[ChunkKey(c.root, m.revision, |read|)]])
  {
    var k := ChunkKey(c.root, m.revision, |read|);
    assert ChunkOk(s, k, s.kv.chunks[k]);
  }

  lemma GetGo(s: State, o: nat, pc: Pc, id: nat)
    requires o in s.calls && Reads(s.calls[o]) && GetStands(s, o, s.calls[o].(pc := pc))
    ensures Legal(s, o, At(s.calls[o], pc), id)
  {
    var c := s.calls[o];
    var t := Place(s, o, At(c, pc), id);
    assert Onward(s, t);
    GetOnward(s, t, o, c.(pc := pc));
  }

  lemma GetChunkLegal(s: State, o: nat, id: nat)
    requires Chunks(s) && o in s.calls && Reads(s.calls[o]) && s.calls[o].pc.GChunk? && GetStands(s, o, s.calls[o])
    ensures Legal(s, o, GetStep(s.calls[o], s.kv), id)
  {
    var c := s.calls[o];
    var m, read := c.pc.m, c.pc.read;
    var key := ChunkKey(c.root, m.revision, |read|);
    if |read| >= m.count {
      WholeIsServed(s, c, m, read);
      GetGo(s, o, GCheck(m, read), id);
    } else if key in s.kv.chunks {
      NextPart(s, c, m, read);
      GetGo(s, o, GChunk(m, read + [s.kv.chunks[key]]), id);
    } else {
      GetGo(s, o, Done(Miss), id);
    }
  }

  lemma ReadClaims(s: State, o: nat, pc: Pc, id: nat)
    requires Flight(s) && o in s.calls && Reads(s.calls[o]) && (pc.GClaimW? || (pc.TClaimW? && s.calls[o].kind == Stale))
    requires Whole(s, s.calls[o], pc.m, pc.read)
    ensures var c := s.calls[o]; Legal(s, o, Send(c.(pc := pc), Claim(c.root.gen)), id)
  {
    var c := s.calls[o];
    var m := Send(c.(pc := pc), Claim(c.root.gen));
    PlaceWhole(s, o, m, id, c, Moved(m), pc.m, pc.read);
    NewestIsLast(s, o, c.(pc := pc), Claim(c.root.gen), id);
    ClaimStands(Place(s, o, m, id), o, Moved(m));
  }

  lemma AcceptLegal(s: State, o: nat, id: nat)
    requires o in s.calls && Reads(s.calls[o]) && (s.calls[o].pc.GCheck? || s.calls[o].pc.GClaimW?)
    requires GetStands(s, o, s.calls[o])
    ensures var c := s.calls[o]; Legal(s, o, Accepted(c, c.pc.m, c.pc.read), id)
  {
    var c := s.calls[o];
    WholeIsServed(s, c, c.pc.m, c.pc.read);
    GetGo(s, o, if c.kind == Stale then TCheck(c.pc.m, c.pc.read) else Done(Hit(Concat(c.pc.read))), id);
  }

  lemma GetCheckLegal(s: State, o: nat, id: nat)
    requires Flight(s) && o in s.calls && Reads(s.calls[o]) && s.calls[o].pc.GCheck? && GetStands(s, o, s.calls[o])
    ensures Legal(s, o, GetStep(s.calls[o], s.kv), id)
  {
    var c := s.calls[o];
    if s.kv.gen == Some(c.root.gen) {
      AcceptLegal(s, o, id);
    } else if s.kv.gen == None {
      ReadClaims(s, o, GClaimW(c.pc.m, c.pc.read), id);
    } else {
      GetGo(s, o, Done(Miss), id);
    }
  }

  lemma StaleCheckLegal(s: State, o: nat, id: nat)
    requires Flight(s) && o in s.calls && Reads(s.calls[o]) && s.calls[o].pc.TCheck? && GetStands(s, o, s.calls[o])
    ensures Legal(s, o, GetStep(s.calls[o], s.kv), id)
  {
    var c := s.calls[o];
    if s.kv.gen == Some(c.root.gen) {
      GetGo(s, o, TFence(c.pc.m, c.pc.read), id);
    } else if s.kv.gen == None {
      ReadClaims(s, o, TClaimW(c.pc.m, c.pc.read), id);
    } else {
      GetGo(s, o, Done(Miss), id);
    }
  }

  lemma StaleFenceLegal(s: State, o: nat, id: nat)
    requires o in s.calls && Reads(s.calls[o]) && s.calls[o].pc.TFence? && GetStands(s, o, s.calls[o])
    ensures Legal(s, o, GetStep(s.calls[o], s.kv), id)
  {
    var c := s.calls[o];
    WholeIsServed(s, c, c.pc.m, c.pc.read);
    GetGo(s, o, Done(if FenceAt(s.kv, c.fence) == None then Stood(Concat(c.pc.read)) else Miss), id);
  }

  lemma GetLegal(s: State, o: nat, id: nat)
    requires Chunks(s) && Entries(s) && Flight(s) && o in s.calls && Reads(s.calls[o]) && GetStands(s, o, s.calls[o])
    requires !Waiting(s.calls[o].pc) && !s.calls[o].pc.Done?
    ensures Legal(s, o, GetStep(s.calls[o], s.kv), id)
  {
    var c := s.calls[o];
    if c.pc.GChunk? {
      GetChunkLegal(s, o, id);
    } else if c.pc.GCheck? {
      GetCheckLegal(s, o, id);
    } else if c.pc.TCheck? {
      StaleCheckLegal(s, o, id);
    } else if c.pc.TFence? {
      StaleFenceLegal(s, o, id);
    } else if c.root in s.kv.manifests {
      assert EntryOk(s, c.root, s.kv.manifests[c.root]);
      GetGo(s, o, GChunk(s.kv.manifests[c.root], []), id);
    } else {
      GetGo(s, o, Done(Miss), id);
    }
  }

  lemma OtherGo(s: State, o: nat, pc: Pc, id: nat)
    requires o in s.calls && s.calls[o].kind != Set && !Reads(s.calls[o]) && OtherStands(s, o, s.calls[o].(pc := pc))
    ensures Legal(s, o, At(s.calls[o], pc), id)
  {
  }

  lemma OtherSend(s: State, o: nat, pc: Pc, w: Write, id: nat)
    requires Flight(s) && o in s.calls
    requires var kind := s.calls[o].kind;
      (kind == Remove && pc == RDropW) || (kind == Invalidate && pc == IReplaceW) || (kind == Refuse && pc == FPutW)
    requires id !in s.used && s.bound <= s.used
    requires w.DropEntry? || w == Replace(id) || (w.PutFence? && w.mark == id)
    ensures Legal(s, o, Send(s.calls[o].(pc := pc), w), id)
  {
    NewestIsLast(s, o, s.calls[o].(pc := pc), w, id);
  }

  lemma OtherLegal(s: State, o: nat, f: Fresh)
    requires Generations(s) && Flight(s) && o in s.calls && s.calls[o].kind != Set && !Reads(s.calls[o]) && OtherStands(s, o, s.calls[o])
    requires !Waiting(s.calls[o].pc) && !s.calls[o].pc.Done? && f.id !in s.used
    ensures Legal(s, o, OtherStep(s.calls[o], s.kv, f), f.id)
  {
    var c := s.calls[o];
    var m := OtherStep(c, s.kv, f);
    if m.Send? {
      OtherSend(s, o, m.call.pc, m.w, f.id);
    } else {
      OtherGo(s, o, m.call.pc, f.id);
    }
  }

  /* ---- Answers and endings ----------------------------------------------------------------- */

  lemma QuitLegal(s: State, o: nat, id: nat)
    requires o in s.calls
    ensures Legal(s, o, End(s.calls[o], Over), id)
  {
  }

  lemma GetAnswerLegal(s: State, o: nat, won: bool, id: nat)
    requires o in s.calls && Reads(s.calls[o]) && Waiting(s.calls[o].pc) && GetStands(s, o, s.calls[o])
    ensures Legal(s, o, Answered(s.calls[o], won), id)
  {
    var c := s.calls[o];
    if c.pc.TClaimW? {
      GetGo(s, o, if won then TFence(c.pc.m, c.pc.read) else TCheck(c.pc.m, c.pc.read), id);
    } else if won {
      AcceptLegal(s, o, id);
    } else {
      GetGo(s, o, GCheck(c.pc.m, c.pc.read), id);
    }
  }

  /** The answered swap leaves nothing of this call that could still publish. */
  lemma PublishAnswered(s: State, r: Req)
    requires Records(s) && Flight(s) && Entries(s) && r in s.flight && Justified(s, r) && r.w.Publish? && !Takes(s.kv, r.w)
    ensures var t, c := Deliver(s, r), s.calls[r.op]; Unpublished(t, r.op, c) && Stored(t, c.root, c.revision, |c.chunks|)
  {
    var t, c := Deliver(s, r), s.calls[r.op];
    forall q | q in t.flight && q.op == r.op ensures !q.w.Publish? {
      assert Justified(s, q);
    }
  }

  lemma SwapAnswerLegal(s: State, r: Req, id: nat)
    requires Records(s) && Flight(s) && Entries(s) && r in s.flight && r.op in s.calls && Justified(s, r)
    requires var c := s.calls[r.op]; c.kind == Set && c.pc.SPublishW? && r.n + 1 == c.sent && SetStands(s, r.op, c)
    ensures Legal(Deliver(s, r), r.op, Answered(s.calls[r.op], Takes(s.kv, r.w)), id)
  {
    var t, c := Deliver(s, r), s.calls[r.op];
    assert r.w == Publish(c.root, c.pc.was, c.pc.m);
    if !Takes(s.kv, r.w) {
      PublishAnswered(s, r);
      SetGo(t, r.op, SCheck, id);
    } else if c.pc.was.Some? && c.pc.was.value.revision != c.revision {
      SetGo(t, r.op, SClean(c.pc.was.value, 0), id);
    } else {
      SetGo(t, r.op, SLift, id);
    }
  }

  lemma ChunkAnswerLegal(s: State, r: Req, id: nat)
    requires r in s.flight && r.op in s.calls
    requires var c := s.calls[r.op];
      && c.kind == Set && c.pc.SChunkW? && r.n + 1 == c.sent
      && SetStands(s, r.op, c) && SetStands(Deliver(s, r), r.op, c)
    ensures var c := s.calls[r.op]; Legal(Deliver(s, r), r.op, At(c, SChunk(c.pc.i + 1)), id)
  {
    var t, c := Deliver(s, r), s.calls[r.op];
    assert ChunkKey(c.root, c.revision, c.pc.i) in t.kv.chunks;
    SetGo(t, r.op, SChunk(c.pc.i + 1), id);
  }

  /** Answers that only move the call on. */
  lemma PlainAnswerLegal(s: State, o: nat, won: bool, id: nat)
    requires o in s.calls && s.calls[o].kind == Set && SetStands(s, o, s.calls[o])
    requires var pc := s.calls[o].pc; Waiting(pc) && !pc.SChunkW? && !pc.SPublishW?
    ensures Legal(s, o, Answered(s.calls[o], won), id)
  {
    var c := s.calls[o];
    if c.pc.SClaimW? {
      SetGo(s, o, if won then SRead else SCheck, id);
    } else if c.pc.SCleanW? {
      SetGo(s, o, SClean(c.pc.m, c.pc.i + 1), id);
    } else if c.pc.ZClaimW? {
      SetGo(s, o, if won then ZDrop else ZCheck, id);
    } else {
      SetGo(s, o, if c.pc.ZDropW? then SLift else Done(Over), id);
    }
  }

  lemma AnswerTo(c: Call, won: bool)
    ensures c.pc.SChunkW? ==> Answered(c, won) == At(c, SChunk(c.pc.i + 1))
  {
  }

  lemma SetAnswerLegal(s: State, r: Req, id: nat)
    requires Records(s) && Flight(s) && Entries(s) && r in s.flight && r.op in s.calls && Justified(s, r)
    requires var c := s.calls[r.op];
      && c.kind == Set && Waiting(c.pc) && r.n + 1 == c.sent
      && SetStands(s, r.op, c) && SetStands(Deliver(s, r), r.op, c)
    ensures Legal(Deliver(s, r), r.op, Answered(s.calls[r.op], Takes(s.kv, r.w)), id)
  {
    AnswerTo(s.calls[r.op], Takes(s.kv, r.w));
    if s.calls[r.op].pc.SChunkW? {
      ChunkAnswerLegal(s, r, id);
    } else if s.calls[r.op].pc.SPublishW? {
      SwapAnswerLegal(s, r, id);
    } else {
      PlainAnswerLegal(Deliver(s, r), r.op, Takes(s.kv, r.w), id);
    }
  }

  lemma OtherAnswerLegal(s: State, o: nat, won: bool, id: nat)
    requires o in s.calls && s.calls[o].kind != Set && !Reads(s.calls[o]) && OtherStands(s, o, s.calls[o])
    requires Waiting(s.calls[o].pc)
    ensures Legal(s, o, Answered(s.calls[o], won), id)
  {
  }

  lemma StepInv(s: State, o: nat, f: Fresh)
    requires Inv(s) && Enabled(s, Step(o, f))
    ensures Inv(Apply(s, Step(o, f)))
  {
    var c := s.calls[o];
    assert Stands(s, o, c);
    if c.kind == Set { SetLegal(s, o, f); } else if Reads(c) { GetLegal(s, o, f.id); } else { OtherLegal(s, o, f); }
    PlaceInv(s, o, Proceed(c, s.kv, f), f.id);
  }

  lemma AnswerLegal(s: State, r: Req)
    requires Records(s) && Flight(s) && Entries(s) && r in s.flight && r.op in s.calls
    requires Waiting(s.calls[r.op].pc) && r.n + 1 == s.calls[r.op].sent
    requires Stands(s, r.op, s.calls[r.op]) && Stands(Deliver(s, r), r.op, s.calls[r.op])
    ensures Legal(Deliver(s, r), r.op, Answered(s.calls[r.op], Takes(s.kv, r.w)), s.calls[r.op].revision)
  {
    var t, c := Deliver(s, r), s.calls[r.op];
    assert Justified(s, r);
    if c.kind == Set { SetAnswerLegal(s, r, c.revision); }
    else if Reads(c) { GetAnswerLegal(t, r.op, Takes(s.kv, r.w), c.revision); }
    else { OtherAnswerLegal(t, r.op, Takes(s.kv, r.w), c.revision); }
  }

  lemma Standing(s: State, o: nat)
    requires Inv(s) && o in s.calls
    ensures Stands(s, o, s.calls[o])
  {
  }

  lemma ReplyInv(s: State, r: Req)
    requires Inv(s) && Enabled(s, Reply(r))
    ensures Inv(Apply(s, Reply(r)))
  {
    DeliverInv(s, r);
    Standing(s, r.op);
    Standing(Deliver(s, r), r.op);
    AnswerLegal(s, r);
    PlaceInv(Deliver(s, r), r.op, Answered(s.calls[r.op], Takes(s.kv, r.w)), s.calls[r.op].revision);
  }

  lemma TripInv(s: State, o: nat)
    requires Inv(s) && Enabled(s, Trip(o))
    ensures Inv(Apply(s, Trip(o)))
  {
    assert Stands(s, o, s.calls[o]);
    SetGo(s, o, SLift, s.calls[o].revision);
    PlaceInv(s, o, At(s.calls[o], SLift), s.calls[o].revision);
  }

  lemma QuitInv(s: State, o: nat)
    requires Inv(s) && Enabled(s, Quit(o))
    ensures Inv(Apply(s, Quit(o)))
  {
    QuitLegal(s, o, s.calls[o].revision);
    PlaceInv(s, o, End(s.calls[o], Over), s.calls[o].revision);
  }
}
