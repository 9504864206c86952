/** Landing a write that is in flight, answered or not, keeps the invariant. */
module TokenLanding {
  import opened Options
  import opened TokenStore
  import opened TokenProtocol
  import opened TokenInvariant

  lemma Grows(s: State, r: Req)
    requires Flight(s) && r in s.flight
    ensures var s' := Deliver(s, r);
      && (forall o :: o in s.calls && Won(s, o, s.calls[o]) ==> Won(s', o, s.calls[o]))
      && (forall o :: o in s.calls && Live(s', o, s.calls[o]) ==> Live(s, o, s.calls[o]))
      && (forall o :: o in s.calls && Won(s', o, s.calls[o]) && !Won(s, o, s.calls[o]) ==>
            r.op == o && Flying(s, o, s.calls[o]) && r.w == Proposal(s.calls[o]) && Takes(s.kv, r.w))
      && (forall t :: WonBy(s, t) ==> WonBy(s', t))
      && (forall t, l :: Adopted(s, t, l) ==> Adopted(s', t, l))
  {
    assert Justified(s, r);
  }

  /** A lookup changes by a write that names it. */
  lemma LookupWrite(kv: Kv, w: Write, d: Digest)
    requires d in kv.lookups && (d !in Landed(kv, w).lookups || Landed(kv, w).lookups[d] != kv.lookups[d])
    ensures w.PutLookup? || w.DropLookup? || w.MoveLookup?
    ensures w.hash == d
    ensures w.PutLookup? ==> w.id != kv.lookups[d]
    ensures w.DropLookup? ==> w.id == kv.lookups[d]
    ensures w.MoveLookup? ==> w.source == kv.lookups[d]
  {
  }

  /** Lookups move only by their owner's writes, or from a legacy record to its adoption. */
  lemma LookupChange(s: State, r: Req, d: Digest)
    requires Base(s) && Shapes(s) && Flight(s) && Lookups(s) && r in s.flight && d in s.kv.lookups
    requires var kv := Landed(s.kv, r.w); d !in kv.lookups || kv.lookups[d] != s.kv.lookups[d]
    ensures d in s.minter || (r.w.MoveLookup? && r.w.hash == d && s.kv.lookups[d] in s.base.records)
    ensures d in s.minter ==> r.op == s.minter[d] && r.w == DropLookup(d, s.calls[r.op].mine.id)
  {
    LookupWrite(s.kv, r.w, d);
    assert Justified(s, r);
    Shape(s, r.op);
    if !r.w.MoveLookup? && s.kv.lookups[d] in s.owner { Shape(s, s.owner[s.kv.lookups[d]]); }
  }

  /** A lookup that names a minted record of a legacy digest never moves again. */
  lemma AdoptedLookupStays(s: State, r: Req, d: Digest)
    requires Base(s) && Shapes(s) && Flight(s) && Lookups(s) && r in s.flight && d in s.kv.lookups
    requires d !in s.minter && s.kv.lookups[d] in s.owner
    ensures var s' := Deliver(s, r); d in s'.kv.lookups && s'.kv.lookups[d] == s.kv.lookups[d]
  {
    if d !in Deliver(s, r).kv.lookups || Deliver(s, r).kv.lookups[d] != s.kv.lookups[d] {
      LookupChange(s, r, d);
    }
  }

  lemma TrackedStays(s: State, r: Req, l: Record)
    requires Base(s) && Shapes(s) && Flight(s) && Lookups(s) && r in s.flight
    requires Legacy(s, l) && Tracked(s, l)
    ensures Tracked(Deliver(s, r), l)
  {
    Grows(s, r);
    var s' := Deliver(s, r);
    if l.hash !in s'.kv.lookups || s'.kv.lookups[l.hash] != s.kv.lookups[l.hash] {
      LookupChange(s, r, l.hash);
      assert Justified(s, r);
    }
  }

  /** A record that was ever committed has no proposal left in flight. */
  lemma NotProposed(s: State, r: Req, t: Id)
    requires Shapes(s) && Flight(s) && Log(s) && r in s.flight && WonBy(s, t)
    ensures !(r.w.SwapSlot? && r.w.becomes.Issued? && r.w.becomes.token == t)
  {
    assert Justified(s, r);
    Shape(s, r.op);
  }

  lemma LoggedStays(s: State, r: Req, k: Commit)
    requires Shapes(s) && Flight(s) && Log(s) && r in s.flight && k in s.log
    ensures Logged(Deliver(s, r), k)
  {
    Grows(s, r);
    assert Logged(s, k);
    if k.was.Some? && k.was.value.Issued? { NotProposed(s, r, k.was.value.token); }
  }

  lemma LoggedNew(s: State, r: Req)
    requires Base(s) && Shapes(s) && Flight(s) && Log(s) && Slots(s) && r in s.flight
    requires r.w.SwapSlot? && Takes(s.kv, r.w)
    ensures var k := Commit(r.w.agent, r.w.was, r.w.becomes, r.op);
      && Logged(Deliver(s, r), k)
      && forall l :: l in s.log ==> !SameStart(k, l)
  {
    Grows(s, r);
    assert Justified(s, r);
    Shape(s, r.op);
    forall l | l in s.log ensures !SameStart(Commit(r.w.agent, r.w.was, r.w.becomes, r.op), l) {
      assert Logged(s, l);
    }
    if r.w.was.Some? && r.w.was.value.Issued? && r.w.becomes.Issued? {
      assert WonBy(s, r.w.was.value.token);
      assert Flying(s, r.op, s.calls[r.op]);
    }
  }

  lemma LandApart(s: State, r: Req)
    requires Shapes(s) && Flight(s) && Log(s) && r in s.flight
    ensures forall o :: o in s.calls ==> !(Flying(Deliver(s, r), o, s.calls[o]) && Won(Deliver(s, r), o, s.calls[o]))
  {
    Grows(s, r);
  }

  lemma LandLog(s: State, r: Req)
    requires Base(s) && Shapes(s) && Flight(s) && Log(s) && Slots(s) && r in s.flight
    ensures Log(Deliver(s, r))
  {
    var s' := Deliver(s, r);
    LandApart(s, r);
    forall k | k in s.log ensures Logged(s', k) { LoggedStays(s, r, k); }
    if r.w.SwapSlot? && Takes(s.kv, r.w) {
      LoggedNew(s, r);
      var k := Commit(r.w.agent, r.w.was, r.w.becomes, r.op);
      assert s'.log == s.log + {k};
      assert forall l :: SameStart(l, k) <==> SameStart(k, l);
    }
  }

  lemma LandSlots(s: State, r: Req)
    requires Shapes(s) && Flight(s) && Slots(s) && r in s.flight
    ensures Slots(Deliver(s, r))
  {
    Grows(s, r);
    var s' := Deliver(s, r);
    if r.w.SwapSlot? && Takes(s.kv, r.w) { SwappedSlot(s, r); }
    forall a | a in s.kv.slots && s.kv.slots[a].Revoked? && s'.kv.slots[a] == s.kv.slots[a]
      ensures exists was :: Commit(a, was, s'.kv.slots[a], s.owner[s.kv.slots[a].revocation]) in s'.log
    {
      var was :| Commit(a, was, s.kv.slots[a], s.owner[s.kv.slots[a].revocation]) in s.log;
      assert Commit(a, was, s'.kv.slots[a], s.owner[s.kv.slots[a].revocation]) in s'.log;
    }
  }

  /** The slot a swap has just written is accounted for by that swap. */
  lemma SwappedSlot(s: State, r: Req)
    requires Shapes(s) && Flight(s) && r in s.flight && r.w.SwapSlot? && Takes(s.kv, r.w)
    ensures var s', k := Deliver(s, r), r.w.becomes;
      match k
      case Issued(t, _) => WonBy(s', t) && s'.calls[s'.owner[t]].agent == r.w.agent && k == Next(s'.calls[s'.owner[t]])
      case Revoked(_, rid) => rid in s'.owner && Commit(r.w.agent, r.w.was, k, s'.owner[rid]) in s'.log
  {
    assert Justified(s, r);
    Shape(s, r.op);
  }

  lemma LandShapes(s: State, r: Req)
    requires Shapes(s)
    ensures Shapes(Deliver(s, r))
  {
    forall o | o in s.calls ensures Fixed(Deliver(s, r), o, s.calls[o]) { Shape(s, o); }
  }

  /** Records are written and removed by the call that minted them. */
  lemma RecordWrite(s: State, r: Req)
    requires Base(s) && Shapes(s) && Flight(s) && r in s.flight && (r.w.PutRecord? || r.w.DropRecord?)
    ensures r.op in s.calls && r.w.rec == s.calls[r.op].mine && Minted(s, r.w.rec.id) && s.owner[r.w.rec.id] == r.op
    ensures r.w.rec.id !in s.base.records
  {
    assert Justified(s, r);
    Shape(s, r.op);
  }

  lemma LandBase(s: State, r: Req)
    requires Base(s) && Shapes(s) && Flight(s) && r in s.flight
    ensures Base(Deliver(s, r))
  {
    if r.w.PutRecord? || r.w.DropRecord? { RecordWrite(s, r); }
  }

  lemma LandRecords(s: State, r: Req)
    requires Base(s) && Shapes(s) && Flight(s) && Records(s) && r in s.flight
    ensures Records(Deliver(s, r))
  {
    if r.w.PutRecord? || r.w.DropRecord? { RecordWrite(s, r); }
  }

  /** What a lookup may name: its legacy record, or a minted record of its digest. */
  predicate Names(s: State, d: Digest, id: Id) {
    || (d in s.base.lookups && id == s.base.lookups[d])
    || (Minted(s, id) && s.calls[s.owner[id]].mine.hash == d && (s.calls[s.owner[id]].kind.Adopt? ==> WonBy(s, id)))
  }

  /** The lookup a write has just stored. */
  lemma LookupLanded(s: State, r: Req)
    requires Shapes(s) && Flight(s) && r in s.flight && (r.w.PutLookup? || r.w.MoveLookup?)
    ensures Names(s, r.w.hash, if r.w.PutLookup? then r.w.id else r.w.target)
  {
    assert Justified(s, r);
    Shape(s, r.op);
    if r.w.MoveLookup? { Shape(s, s.owner[r.w.target]); }
  }

  lemma LandedName(s: State, w: Write, d: Digest)
    requires Lookups(s) && d in Landed(s.kv, w).lookups
    requires w.PutLookup? ==> Names(s, w.hash, w.id)
    requires w.MoveLookup? ==> Names(s, w.hash, w.target)
    ensures Names(s, d, Landed(s.kv, w).lookups[d])
  {
  }

  lemma LandLookups(s: State, r: Req)
    requires Shapes(s) && Flight(s) && Lookups(s) && r in s.flight
    ensures Lookups(Deliver(s, r))
  {
    var s' := Deliver(s, r);
    Grows(s, r);
    if r.w.PutLookup? || r.w.MoveLookup? { LookupLanded(s, r); }
    forall d | d in s'.kv.lookups ensures Names(s', d, s'.kv.lookups[d]) {
      LandedName(s, r.w, d);
    }
  }

  lemma LandFlight(s: State, r: Req)
    requires Flight(s) && r in s.flight
    ensures Flight(Deliver(s, r))
  {
    Grows(s, r);
    var s' := Deliver(s, r);
    forall q | q in s'.flight ensures Justified(s', q) { assert Justified(s, q); }
  }

  lemma ClaimStays(s: State, r: Req, l: Record, a: Agent)
    requires Claimed(s, l, a)
    ensures Claimed(Deliver(s, r), l, a)
  {
  }

  /** The record of a live proposal is not removed. */
  lemma LiveRecordStays(s: State, r: Req, o: nat)
    requires Base(s) && Shapes(s) && Flight(s) && Backing(s) && r in s.flight && o in s.calls && Live(s, o, s.calls[o])
    ensures var id, kv' := s.calls[o].mine.id, Landed(s.kv, r.w); id in kv'.records && kv'.records[id] == s.calls[o].mine
  {
    assert Backed(s, s.calls[o]);
    Shape(s, o);
    if r.w.PutRecord? || r.w.DropRecord? { RecordWrite(s, r); }
  }

  lemma LiveLookupStays(s: State, r: Req, o: nat)
    requires Base(s) && Shapes(s) && Flight(s) && Lookups(s) && Backing(s) && r in s.flight
    requires o in s.calls && Live(s, o, s.calls[o]) && s.calls[o].kind.Rotate?
    ensures var c, kv' := s.calls[o], Landed(s.kv, r.w); c.mine.hash in kv'.lookups && kv'.lookups[c.mine.hash] == c.mine.id
  {
    var c, kv' := s.calls[o], Landed(s.kv, r.w);
    assert Backed(s, c);
    Shape(s, o);
    if c.mine.hash !in kv'.lookups || kv'.lookups[c.mine.hash] != c.mine.id {
      LookupChange(s, r, c.mine.hash);
      assert false;
    }
  }

  lemma BackedStays(s: State, r: Req, o: nat)
    requires Base(s) && Shapes(s) && Flight(s) && Lookups(s) && Backing(s) && r in s.flight
    requires o in s.calls && Live(s, o, s.calls[o])
    ensures Backed(Deliver(s, r), s.calls[o])
  {
    var c := s.calls[o];
    assert Backed(s, c);
    LiveRecordStays(s, r, o);
    if c.kind.Adopt? {
      Shape(s, o);
      TrackedStays(s, r, c.legacy);
      ClaimStays(s, r, c.legacy, c.agent);
    } else if c.kind.Rotate? {
      LiveLookupStays(s, r, o);
    }
  }

  lemma LandBacking(s: State, r: Req)
    requires Base(s) && Shapes(s) && Flight(s) && Lookups(s) && Backing(s) && r in s.flight
    ensures Backing(Deliver(s, r))
  {
    Grows(s, r);
    forall o | o in s.calls && Live(s, o, s.calls[o]) ensures Backed(Deliver(s, r), s.calls[o]) {
      BackedStays(s, r, o);
    }
  }

  lemma LandCore(s: State, r: Req)
    requires Core(s) && r in s.flight
    ensures Core(Deliver(s, r))
  {
    LandShapes(s, r);
    LandBase(s, r);
    LandRecords(s, r);
    LandLookups(s, r);
    LandFlight(s, r);
    LandLog(s, r);
    LandSlots(s, r);
    LandBacking(s, r);
  }

  lemma SeenStays(s: State, r: Req, d: Digest, id: Id)
    requires Base(s) && Shapes(s) && Flight(s) && Lookups(s) && r in s.flight && Seen(s, d, id)
    ensures Seen(Deliver(s, r), d, id)
  {
    if Minted(s, id) && s.calls[s.owner[id]].kind.Adopt? {
      Shape(s, s.owner[id]);
      AdoptedLookupStays(s, r, d);
    }
  }

  lemma HonestStays(s: State, r: Req, o: nat, out: Outcome)
    requires Core(s) && r in s.flight && o in s.calls && Honest(s, o, s.calls[o], out)
    ensures Honest(Deliver(s, r), o, s.calls[o], out)
  {
    Grows(s, r);
    var c := s.calls[o];
    if c.kind.Adopt? && out.Ok? {
      Shape(s, s.owner[out.view.value.token]);
      AdoptedLookupStays(s, r, c.legacy.hash);
    }
    if c.kind.Rotate? && out.Aborted? && Won(s, o, c) && !Named(s.kv, c.agent, c.mine.id) {
      NeverRenamed(s, r, o);
    }
  }

  /** Once its commit has been superseded, a record is not named again. */
  lemma NeverRenamed(s: State, r: Req, o: nat)
    requires Shapes(s) && Flight(s) && Log(s) && r in s.flight && o in s.calls
    requires Won(s, o, s.calls[o]) && !Named(s.kv, s.calls[o].agent, s.calls[o].mine.id)
    ensures !Named(Deliver(s, r).kv, s.calls[o].agent, s.calls[o].mine.id)
  {
    assert Justified(s, r);
    Shape(s, o); Shape(s, r.op);
  }

  lemma RecordStays(s: State, r: Req, o: nat)
    requires Shapes(s) && Flight(s) && r in s.flight && o in s.calls
    requires s.calls[o].minted && !Dropping(s, o)
    requires s.calls[o].mine.id in s.kv.records && s.kv.records[s.calls[o].mine.id] == s.calls[o].mine
    ensures var id, kv' := s.calls[o].mine.id, Deliver(s, r).kv; id in kv'.records && kv'.records[id] == s.calls[o].mine
  {
    assert Justified(s, r);
    Shape(s, o); Shape(s, r.op);
  }

  lemma LandForward(s: State, r: Req)
    requires Base(s) && Shapes(s) && Flight(s) && Lookups(s) && r in s.flight
    ensures Forward(s, Deliver(s, r))
  {
    var s' := Deliver(s, r);
    Grows(s, r);
    forall l, a | Claimed(s, l, a) ensures Claimed(s', l, a) { ClaimStays(s, r, l, a); }
    forall l | Legacy(s, l) && Tracked(s, l) ensures Tracked(s', l) { TrackedStays(s, r, l); }
    forall d, id | Seen(s, d, id) ensures Seen(s', d, id) { SeenStays(s, r, d, id); }
  }

  lemma LandUnmoved(s: State, r: Req, o: nat)
    requires Core(s) && r in s.flight && o in s.calls
    ensures Unmoved(s, Deliver(s, r), o, s.calls[o])
  {
    var s', c := Deliver(s, r), s.calls[o];
    Grows(s, r);
    forall out | Honest(s, o, c, out) ensures Honest(s', o, c, out) { HonestStays(s, r, o, out); }
    if c.minted && !Dropping(s, o) && c.mine.id in s.kv.records && s.kv.records[c.mine.id] == c.mine {
      RecordStays(s, r, o);
    }
  }

  /** A write may land at any time, with or without its caller hearing of it. */
  lemma LandInv(s: State, r: Req)
    requires Inv(s) && r in s.flight
    ensures Inv(Deliver(s, r))
  {
    LandCore(s, r);
    LandForward(s, r);
    forall o | o in s.calls ensures Stands(Deliver(s, r), o, s.calls[o]) {
      LandUnmoved(s, r, o);
      Shape(s, o);
      StandsOnward(s, Deliver(s, r), o, s.calls[o]);
    }
  }
}
