/** Every step of a rotation or a revocation is legal wherever the call stands. */
module TokenSteps {
  import opened Options
  import opened TokenStore
  import opened TokenProtocol
  import opened TokenInvariant
  import opened TokenMoves

  /* ---- What a move leaves to prove ------------------------------------------------------ */

  /** What the invariant says of one call, apart from where it stands. */
  ghost predicate Knows(s: State, o: nat) {
    && o in s.calls
    && var c := s.calls[o];
    var holds :=
      && Fixed(s, o, c)
      && (c.cast == None ==> !Live(s, o, c))
      && (Live(s, o, c) ==> Backed(s, c))
      && !(Flying(s, o, c) && Won(s, o, c))
      && (c.minted && Named(s.kv, c.agent, c.mine.id) ==> Won(s, o, c) && SlotOf(s.kv, c.agent) == Some(Next(c)))
      && (forall r :: r in s.flight && r.op == o ==> r.n < c.sent)
      && (!c.minted ==> !Dropping(s, o) && forall k :: k in s.log && k.op == o ==> k.becomes.Revoked?);
    holds
  }

  lemma CoreKnows(s: State, o: nat)
    requires Shapes(s) && Flight(s) && Log(s) && Slots(s) && Backing(s) && o in s.calls
    ensures Knows(s, o)
  {
    var c := s.calls[o];
    Shape(s, o);
    forall r | r in s.flight && r.op == o
      ensures r.n < c.sent && (!c.minted ==> !r.w.DropRecord? && !r.w.DropLookup?)
    {
      assert Justified(s, r);
    }
    forall k | k in s.log && k.op == o ensures k.becomes.Issued? ==> c.minted && c.cast.Some? { assert Logged(s, k); }
  }

  /** A move that mints nothing and proposes nothing leaves the call what it was. */
  lemma FixedMoved(s: State, o: nat, m: Move, f: Fresh)
    requires Knows(s, o) && Unused(s, f) && Steady(s.calls[o], Moved(m))
    requires Moved(m).cast == s.calls[o].cast && Moved(m).minted == s.calls[o].minted
    ensures Fixed(Place(s, o, m, f), o, Moved(m))
  {
  }

  lemma BackedMoved(s: State, o: nat, m: Move, f: Fresh)
    requires o in s.calls && Unused(s, f) && Steady(s.calls[o], Moved(m)) && s.calls[o].minted && Backed(s, s.calls[o])
    ensures Backed(Place(s, o, m, f), Moved(m))
  {
    KeepsWon(s, o, m, f);
  }

  /** Whether a call's proposal is out depends on nothing a later move changes. */
  lemma LiveMoved(s: State, o: nat, m: Move, f: Fresh)
    requires o in s.calls && Steady(s.calls[o], Moved(m))
    requires Moved(m).cast == s.calls[o].cast && Moved(m).minted == s.calls[o].minted
    requires m.Send? ==> !(m.w.SwapSlot? && m.w.becomes.Issued?)
    ensures var s', c, d := Place(s, o, m, f), s.calls[o], Moved(m);
      (Flying(s', o, d) <==> Flying(s, o, c)) && (Won(s', o, d) <==> Won(s, o, c))
  {
  }

  lemma LegalGo(s: State, o: nat, d: Call, f: Fresh)
    requires Knows(s, o) && Unused(s, f)
    requires Steady(s.calls[o], d) && d.cast == s.calls[o].cast && d.minted == s.calls[o].minted
    requires Stands(Place(s, o, Go(d), f), o, d)
    ensures Legal(s, o, Go(d), f)
  {
    LiveMoved(s, o, Go(d), f);
    FixedMoved(s, o, Go(d), f);
    if Live(s, o, s.calls[o]) { BackedMoved(s, o, Go(d), f); }
  }

  lemma LegalSend(s: State, o: nat, d: Call, w: Write, f: Fresh)
    requires Knows(s, o) && Unused(s, f)
    requires d.sent == s.calls[o].sent && d.cast == s.calls[o].cast && d.minted == s.calls[o].minted
    requires Steady(s.calls[o], Moved(Send(d, w))) && !(w.SwapSlot? && w.becomes.Issued?)
    requires w.DropRecord? || w.DropLookup? ==> !Live(s, o, s.calls[o])
    requires var s' := Place(s, o, Send(d, w), f); Stands(s', o, Moved(Send(d, w))) && Justified(s', Req(o, d.sent, w))
    ensures Legal(s, o, Send(d, w), f)
  {
    LiveMoved(s, o, Send(d, w), f);
    FixedMoved(s, o, Send(d, w), f);
    if Live(s, o, s.calls[o]) { BackedMoved(s, o, Send(d, w), f); }
  }

  lemma Newest(s: State, o: nat, d: Call, w: Write, f: Fresh)
    requires Knows(s, o) && d.sent == s.calls[o].sent
    ensures var m := Send(d, w); Last(Place(s, o, m, f), o, Moved(m), w)
  {
  }

  /* ---- Rotation ------------------------------------------------------------------------- */

  lemma DropLookupLegal(s: State, o: nat, next: Pc, f: Fresh)
    requires Knows(s, o) && Unused(s, f)
    requires var c := s.calls[o]; Dead(s, o, c) && c.kind.Rotate? && AfterDrop(c, next) && !Undoing(c.pc)
    ensures var c := s.calls[o]; Legal(s, o, Send(c.(pc := DropLkW(next)), DropLookup(c.mine.hash, c.mine.id)), f)
  {
    var c := s.calls[o];
    var m := Send(c.(pc := DropLkW(next)), DropLookup(c.mine.hash, c.mine.id));
    LiveMoved(s, o, m, f);
    LegalSend(s, o, m.call, m.w, f);
  }

  lemma DropRecordLegal(s: State, o: nat, next: Pc, f: Fresh)
    requires Knows(s, o) && Unused(s, f)
    requires var c := s.calls[o]; Dead(s, o, c) && (c.kind.Rotate? || c.kind.Adopt?) && AfterDrop(c, next) && !Undoing(c.pc)
    ensures var c := s.calls[o]; Legal(s, o, Send(c.(pc := DropRecW(next)), DropRecord(c.mine)), f)
  {
    var c := s.calls[o];
    var m := Send(c.(pc := DropRecW(next)), DropRecord(c.mine));
    LiveMoved(s, o, m, f);
    LegalSend(s, o, m.call, m.w, f);
  }

  lemma DiscardLegal(s: State, o: nat, next: Pc, f: Fresh)
    requires Knows(s, o) && Unused(s, f)
    requires var c := s.calls[o];
      Dead(s, o, c) && (c.kind.Rotate? || c.kind.Adopt?) && AfterDrop(c, next) && !Undoing(c.pc)
    ensures Legal(s, o, Discard(s.calls[o], next), f)
  {
    if s.calls[o].kind.Rotate? { DropLookupLegal(s, o, next, f); } else { DropRecordLegal(s, o, next, f); }
  }

  /** The record a rotation mints at its first read. */
  function Minting(c: Call, kv: Kv, f: Fresh): Call {
    c.(raw := SlotOf(kv, c.agent), minted := true, pc := RProbe,
       mine := Record(f.id, f.digest, f.prefix, f.now, Some(c.agent), false, false))
  }

  lemma MintLegal(s: State, o: nat, f: Fresh)
    requires Knows(s, o) && Unused(s, f)
    requires var c := s.calls[o]; c.kind.Rotate? && c.pc == RRead && !c.minted && c.cast == None && c.sent == 0
    ensures Legal(s, o, Go(Minting(s.calls[o], s.kv, f)), f)
  {
    var m := Go(Minting(s.calls[o], s.kv, f));
    assert !Dropping(Place(s, o, m, f), o) by { assert !Dropping(s, o); }
    assert Win(m.call, o) !in s.log;
  }

  lemma CommittedLegal(s: State, o: nat, f: Fresh)
    requires Knows(s, o) && Unused(s, f)
    requires var c := s.calls[o]; c.kind.Rotate? && (c.pc == RNames || c.pc == RCommitW) && Won(s, o, c)
    ensures Legal(s, o, Committed(s.calls[o], f), f)
  {
    var c := s.calls[o];
    if c.gone {
      UndoingLegal(s, o, f);
    } else {
      OverLegal(s, o, if f.open then Ok(Some(Next(c))) else Unknown, f);
    }
  }

  lemma UndoingLegal(s: State, o: nat, f: Fresh)
    requires Knows(s, o) && Unused(s, f)
    requires var c := s.calls[o]; c.kind.Rotate? && (c.pc == RNames || c.pc == RCommitW) && Won(s, o, c)
    ensures Legal(s, o, Go(s.calls[o].(rid := f.id, pc := URead)), f)
  {
    var d := s.calls[o].(rid := f.id, pc := URead);
    LiveMoved(s, o, Go(d), f);
    LegalGo(s, o, d, f);
  }

  lemma UndoLegal(s: State, o: nat, f: Fresh)
    requires Knows(s, o) && Unused(s, f)
    requires var c := s.calls[o]; c.kind.Rotate? && c.pc == URead && RotateStands(s, o, c)
    ensures Legal(s, o, RevokeSwap(s.calls[o], Some(Next(s.calls[o])), USwapW, f), f)
  {
    var c := s.calls[o];
    var m := RevokeSwap(c, Some(Next(c)), USwapW, f);
    LiveMoved(s, o, m, f);
    Newest(s, o, m.call, m.w, f);
    UndoStands(Place(s, o, m, f), o, Moved(m));
    LegalSend(s, o, m.call, m.w, f);
  }

  lemma UndoStands(s: State, o: nat, d: Call)
    requires d.kind.Rotate? && d.pc == USwapW && Won(s, o, d) && d.rid in s.owner && s.owner[d.rid] == o
    requires Last(s, o, d, SwapSlot(d.agent, Some(Next(d)), Revoked(d.at, d.rid)))
    ensures Stands(s, o, d)
  {
  }

  /** Recording the minted secret before anything refers to it. */
  lemma RecordLegal(s: State, o: nat, f: Fresh)
    requires Knows(s, o) && Unused(s, f)
    requires var c := s.calls[o]; c.kind.Rotate? && c.pc == RProbe && RotateStands(s, o, c)
    ensures var c := s.calls[o]; Legal(s, o, Send(c.(pc := RRecW), PutRecord(c.mine)), f)
  {
    var c := s.calls[o];
    var m := Send(c.(pc := RRecW), PutRecord(c.mine));
    Newest(s, o, m.call, m.w, f);
    assert !Dropping(Place(s, o, m, f), o) by { assert !Dropping(s, o); }
    LegalSend(s, o, m.call, m.w, f);
  }

  lemma RProbeLegal(s: State, o: nat, f: Fresh)
    requires Knows(s, o) && Unused(s, f)
    requires var c := s.calls[o]; c.kind.Rotate? && c.pc == RProbe && RotateStands(s, o, c)
    ensures Legal(s, o, RotateStep(s.calls[o], s.kv, f), f)
  {
    var c := s.calls[o];
    if c.mine.hash in s.kv.lookups {
      DiscardLegal(s, o, Done(Conflict), f);
    } else if c.gone {
      DiscardLegal(s, o, Done(Aborted), f);
    } else {
      RecordLegal(s, o, f);
    }
  }

  /** What a call reports stays true of it when it stops. */
  lemma HonestMoved(s: State, o: nat, out: Outcome, f: Fresh)
    requires Knows(s, o) && Unused(s, f) && !s.calls[o].pc.Done? && Honest(s, o, s.calls[o], out)
    ensures Honest(Place(s, o, Over(s.calls[o], out), f), o, Over(s.calls[o], out).call, out)
  {
    var m := Over(s.calls[o], out);
    LiveMoved(s, o, m, f);
    if s.calls[o].kind.Adopt? { Keeps(s, o, m, f); }
  }

  lemma DoneStands(s: State, o: nat, c: Call)
    requires c.pc.Done? && Honest(s, o, c, c.pc.out)
    ensures Stands(s, o, c)
  {
  }

  /** Stopping changes nothing about a call but where it is. */
  lemma Stopped(c: Call, out: Outcome)
    ensures Over(c, out) == Go(c.(pc := Done(out))) && (!c.pc.Done? ==> Steady(c, c.(pc := Done(out))))
  {
  }

  lemma OverLegal(s: State, o: nat, out: Outcome, f: Fresh)
    requires Knows(s, o) && Unused(s, f) && !s.calls[o].pc.Done? && Honest(s, o, s.calls[o], out)
    ensures Legal(s, o, Over(s.calls[o], out), f)
  {
    var m := Over(s.calls[o], out);
    Stopped(s.calls[o], out);
    HonestMoved(s, o, out, f);
    DoneStands(Place(s, o, m, f), o, m.call);
    LegalGo(s, o, m.call, f);
  }

  lemma RotateReads(s: State, o: nat, f: Fresh)
    requires Knows(s, o) && Unused(s, f)
    requires var c := s.calls[o]; c.kind.Rotate? && RotateStands(s, o, c) && !Waiting(c.pc) && !c.pc.Done?
    ensures Legal(s, o, RotateStep(s.calls[o], s.kv, f), f)
  {
    var c := s.calls[o];
    if c.pc.RRead? {
      if Matches(c.demand, SlotOf(s.kv, c.agent)) { MintLegal(s, o, f); } else { OverLegal(s, o, SlotChanged, f); }
    } else if c.pc.RProbe? {
      RProbeLegal(s, o, f);
    } else if c.pc.RNames? {
      if Named(s.kv, c.agent, c.mine.id) { CommittedLegal(s, o, f); } else { OverLegal(s, o, Errored, f); }
    } else {
      if Named(s.kv, c.agent, c.mine.id) { UndoLegal(s, o, f); } else { OverLegal(s, o, Aborted, f); }
    }
  }

  /** Proposing is legal once the record, its lookup and, for an adoption, its claim are in place. */
  lemma CastLegal(s: State, o: nat, f: Fresh)
    requires Knows(s, o) && Unused(s, f)
    requires var c := s.calls[o];
      Building(s, o, c) && Backed(s, c) && ((c.kind.Rotate? && c.pc == RLkW) || (c.kind.Adopt? && c.pc == ARecW))
    ensures Legal(s, o, Cast(s.calls[o]), f)
  {
    var c := s.calls[o];
    var m := Cast(c);
    Recast(c);
    CastPlaced(s, o, f);
    CastFixed(s, o, m.call, m.w, f);
    BackedMoved(s, o, m, f);
    Uncommitted(s, o);
    CastIsLegal(s, o, f);
  }

  lemma CastPlaced(s: State, o: nat, f: Fresh)
    requires Knows(s, o)
    requires var c := s.calls[o];
      c.minted && c.cast == None && ((c.kind.Rotate? && c.pc == RLkW) || (c.kind.Adopt? && c.pc == ARecW))
    ensures var m := Cast(s.calls[o]); Stands(Place(s, o, m, f), o, Moved(m))
  {
    var m := Cast(s.calls[o]);
    Recast(s.calls[o]);
    Newest(s, o, m.call, m.w, f);
    CastStands(Place(s, o, m, f), o, Moved(m));
  }

  lemma Uncommitted(s: State, o: nat)
    requires Knows(s, o) && s.calls[o].minted && s.calls[o].cast == None
    ensures !Won(s, o, s.calls[o])
  {
  }

  lemma CastIsLegal(s: State, o: nat, f: Fresh)
    requires o in s.calls
    requires var c, m := s.calls[o], Cast(s.calls[o]);
      var s', d := Place(s, o, m, f), Moved(m);
      && m.call.sent == c.sent && m.w == Proposal(d) && Steady(c, d) && Fixed(s', o, d) && Stands(s', o, d)
      && d.minted && d.cast == Some(c.sent) && Backed(s', d) && !Won(s, o, d) && !Dropping(s, o)
    ensures Legal(s, o, Cast(s.calls[o]), f)
  {
  }

  /** Proposing fixes which of the call's writes is the issuing swap and changes nothing else. */
  lemma Recast(c: Call)
    requires c.minted && c.cast == None && ((c.kind.Rotate? && c.pc == RLkW) || (c.kind.Adopt? && c.pc == ARecW))
    ensures var m, pc := Cast(c), if c.kind.Rotate? then RCommitW else ACommitW;
      && m == Send(c.(pc := pc, cast := Some(c.sent)), Proposal(c)) && Steady(c, m.call)
      && Moved(m) == c.(pc := pc, cast := Some(c.sent), sent := c.sent + 1) && Steady(c, Moved(m))
      && Proposal(Moved(m)) == Proposal(c) && forall o :: Win(Moved(m), o) == Win(c, o)
  {
  }

  lemma CastFixed(s: State, o: nat, d: Call, w: Write, f: Fresh)
    requires Knows(s, o) && Unused(s, f) && s.calls[o].minted && s.calls[o].kind == d.kind && Steady(s.calls[o], d)
    requires d.cast.Some? && d.cast.value <= d.sent
    ensures Fixed(Place(s, o, Send(d, w), f), o, Moved(Send(d, w)))
  {
  }

  lemma CastStands(s: State, o: nat, c: Call)
    requires c.minted && c.sent > 0 && c.cast == Some(c.sent - 1) && Last(s, o, c, Proposal(c))
    requires (c.kind.Rotate? && c.pc == RCommitW) || (c.kind.Adopt? && c.pc == ACommitW)
    ensures Stands(s, o, c)
  {
  }

  /** The answer of the issuing swap settles whether this call committed. */
  lemma CommitAnswer(s: State, r: Req)
    requires Knows(s, r.op) && r in s.flight
    requires var c := s.calls[r.op];
      c.minted && c.cast == Some(c.sent - 1) && c.sent == r.n + 1 && Last(s, r.op, c, Proposal(c))
    ensures var s', c := Deliver(s, r), s.calls[r.op];
      if Takes(s.kv, r.w) then Won(s', r.op, c) else !Live(s', r.op, c)
  {
    assert Flying(s, r.op, s.calls[r.op]);
  }

  /** Removing this call's own uncommitted record goes on, whatever the removal of its lookup answered. */
  lemma DropLegal(s: State, o: nat, f: Fresh)
    requires Knows(s, o) && Unused(s, f)
    requires var c := s.calls[o];
      Dead(s, o, c) && (c.kind.Rotate? || c.kind.Adopt?) && c.pc.DropRecW? && AfterDrop(c, c.pc.next)
    ensures Legal(s, o, Discarded(s.calls[o], s.calls[o].pc.next), f)
  {
    var c := s.calls[o];
    if c.pc.next.Quit? {
      OverLegal(s, o, CutShort(c), f);
    } else if c.pc.next.Done? {
      OverLegal(s, o, c.pc.next.out, f);
    } else {
      RereadLegal(s, o, f);
    }
  }

  lemma RereadLegal(s: State, o: nat, f: Fresh)
    requires Knows(s, o) && Unused(s, f)
    requires var c := s.calls[o]; Dead(s, o, c) && c.kind.Adopt? && c.pc.DropRecW? && c.pc.next.AReread?
    ensures Legal(s, o, Go(s.calls[o].(pc := AReread)), f)
  {
    var d := s.calls[o].(pc := AReread);
    LiveMoved(s, o, Go(d), f);
    LegalGo(s, o, d, f);
  }

  /** Once the record is stored, its lookup is written. */
  lemma LookupLegal(s: State, o: nat, f: Fresh)
    requires Knows(s, o) && Unused(s, f)
    requires var c := s.calls[o];
      && c.kind.Rotate? && c.pc == RRecW && RotateStands(s, o, c)
      && c.mine.id in s.kv.records && s.kv.records[c.mine.id] == c.mine
    ensures var c := s.calls[o]; Legal(s, o, Send(c.(pc := RLkW), PutLookup(c.mine.hash, c.mine.id)), f)
  {
    var c := s.calls[o];
    var m := Send(c.(pc := RLkW), PutLookup(c.mine.hash, c.mine.id));
    Newest(s, o, m.call, m.w, f);
    assert !Dropping(Place(s, o, m, f), o) by { assert !Dropping(s, o); }
    LegalSend(s, o, m.call, m.w, f);
  }

  lemma RotateBuilds(s: State, r: Req, f: Fresh)
    requires r in s.flight && r.op in s.calls && Unused(s, f) && Knows(Deliver(s, r), r.op)
    requires var c := s.calls[r.op];
      && c.kind.Rotate? && (c.pc == RRecW || c.pc == RLkW) && r.n + 1 == c.sent
      && RotateStands(s, r.op, c) && RotateStands(Deliver(s, r), r.op, c)
    ensures Legal(Deliver(s, r), r.op, RotateHears(s.calls[r.op], Takes(s.kv, r.w), f), f)
  {
    var s', c := Deliver(s, r), s.calls[r.op];
    if c.pc == RRecW {
      LookupLegal(s', r.op, f);
    } else if c.gone {
      DiscardLegal(s', r.op, Done(Aborted), f);
    } else {
      CastLegal(s', r.op, f);
    }
  }

  lemma RetryLegal(s: State, o: nat, f: Fresh)
    requires Knows(s, o) && Unused(s, f)
    requires var c := s.calls[o]; c.kind.Rotate? && RotateStands(s, o, c) && (c.pc.URead? || c.pc.USwapW?)
    ensures Legal(s, o, Go(s.calls[o].(pc := URead)), f)
  {
    var d := s.calls[o].(pc := URead);
    LiveMoved(s, o, Go(d), f);
    LegalGo(s, o, d, f);
  }

  lemma UndoAnswer(s: State, r: Req, f: Fresh)
    requires r in s.flight && r.op in s.calls && Unused(s, f) && Knows(Deliver(s, r), r.op)
    requires var c := s.calls[r.op];
      && c.kind.Rotate? && c.pc == USwapW && r.n + 1 == c.sent
      && RotateStands(s, r.op, c) && RotateStands(Deliver(s, r), r.op, c)
    ensures Legal(Deliver(s, r), r.op, RotateHears(s.calls[r.op], Takes(s.kv, r.w), f), f)
  {
    if Takes(s.kv, r.w) { OverLegal(Deliver(s, r), r.op, Aborted, f); } else { RetryLegal(Deliver(s, r), r.op, f); }
  }

  lemma CommitAnswered(s: State, r: Req, f: Fresh)
    requires r in s.flight && Knows(s, r.op) && Unused(s, f) && Knows(Deliver(s, r), r.op)
    requires var c := s.calls[r.op]; c.kind.Rotate? && c.pc.RCommitW? && r.n + 1 == c.sent && RotateStands(s, r.op, c)
    ensures Legal(Deliver(s, r), r.op, RotateHears(s.calls[r.op], Takes(s.kv, r.w), f), f)
  {
    var s', c := Deliver(s, r), s.calls[r.op];
    CommitAnswer(s, r);
    if Takes(s.kv, r.w) {
      CommittedLegal(s', r.op, f);
    } else {
      DiscardLegal(s', r.op, Done(if c.demand.Unconditional? then Conflict else SlotChanged), f);
    }
  }

  lemma RotateAnswers(s: State, r: Req, f: Fresh)
    requires r in s.flight && Knows(s, r.op) && Unused(s, f) && Knows(Deliver(s, r), r.op)
    requires var c := s.calls[r.op];
      && c.kind.Rotate? && Waiting(c.pc) && r.n + 1 == c.sent
      && RotateStands(s, r.op, c) && RotateStands(Deliver(s, r), r.op, c)
    ensures Legal(Deliver(s, r), r.op, RotateHears(s.calls[r.op], Takes(s.kv, r.w), f), f)
  {
    var s', c := Deliver(s, r), s.calls[r.op];
    if c.pc.RRecW? || c.pc.RLkW? { RotateBuilds(s, r, f); }
    else if c.pc.RCommitW? { CommitAnswered(s, r, f); }
    else if c.pc.USwapW? { UndoAnswer(s, r, f); }
    else if c.pc.DropLkW? { DropRecordLegal(s', r.op, c.pc.next, f); }
    else { DropLegal(s', r.op, f); }
  }

  lemma RotateFails(s: State, o: nat, late: bool, f: Fresh)
    requires Knows(s, o) && Unused(s, f)
    requires var c := s.calls[o]; c.kind.Rotate? && RotateStands(s, o, c) && !c.pc.Done?
    ensures Legal(s, o, RotateFailed(s.calls[o], late), f)
  {
    var c := s.calls[o];
    if c.pc.DropLkW? {
      DropRecordLegal(s, o, c.pc.next, f);
    } else if c.pc.DropRecW? {
      DropLegal(s, o, f);
    } else if c.pc.RProbe? || c.pc.RRecW? || c.pc.RLkW? {
      DiscardLegal(s, o, if late then Quit else Done(Errored), f);
    } else {
      RotateStops(s, o, late, f);
    }
  }

  lemma RotateStops(s: State, o: nat, late: bool, f: Fresh)
    requires Knows(s, o) && Unused(s, f)
    requires var c := s.calls[o];
      && c.kind.Rotate? && RotateStands(s, o, c)
      && (c.pc.RRead? || c.pc.URead? || c.pc.USwapW? || c.pc.RCommitW? || c.pc.RNames?)
    ensures Legal(s, o, RotateFailed(s.calls[o], late), f)
  {
    var c := s.calls[o];
    if c.pc.RRead? { OverLegal(s, o, if late then CutShort(c) else Errored, f); }
    else if late { OverLegal(s, o, Unknown, f); }
    else if c.pc.URead? || c.pc.USwapW? { RetryLegal(s, o, f); }
    else { ReadBackLegal(s, o, f); }
  }

  lemma ReadBackLegal(s: State, o: nat, f: Fresh)
    requires Knows(s, o) && Unused(s, f)
    requires var c := s.calls[o]; c.kind.Rotate? && RotateStands(s, o, c) && (c.pc.RCommitW? || c.pc.RNames?)
    ensures Legal(s, o, Go(s.calls[o].(pc := RNames)), f)
  {
    LegalGo(s, o, s.calls[o].(pc := RNames), f);
  }
}
