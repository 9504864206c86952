/** Every step of a revocation, an adoption or an authorization is legal wherever the call stands. */
module TokenAdoptSteps {
  import opened Options
  import opened TokenStore
  import opened TokenProtocol
  import opened TokenInvariant
  import opened TokenMoves
  import opened TokenSteps

  /* ---- Revocation ----------------------------------------------------------------------- */

  /** A slot carrying this call's revocation id was written by it, from what a conditional call read. */
  lemma OwnRevocation(s: State, o: nat)
    requires Log(s) && Slots(s) && o in s.calls
    requires var c := s.calls[o];
      && c.kind.Revoke? && !c.demand.Unconditional? && Revoking(s, o, c)
      && c.agent in s.kv.slots && s.kv.slots[c.agent].Revoked? && s.kv.slots[c.agent].revocation == c.rid
    ensures var c := s.calls[o]; Commit(c.agent, c.raw, s.kv.slots[c.agent], o) in s.log
  {
    var c := s.calls[o];
    var was :| Commit(c.agent, was, s.kv.slots[c.agent], s.owner[c.rid]) in s.log;
    assert Logged(s, Commit(c.agent, was, s.kv.slots[c.agent], o));
  }

  lemma RevokeSwapLegal(s: State, o: nat, c: Call, was: Option<Slot>, pc: Pc, f: Fresh)
    requires Knows(s, o) && Unused(s, f) && Steady(s.calls[o], c)
    requires c.kind.Revoke? && c.cast == None && !c.minted && c.sent == s.calls[o].sent
    requires c.raw.Some? && c.raw.value.Issued? && was.Some? && was.value.Issued?
    requires c.rid == f.id || (c.rid in s.owner && s.owner[c.rid] == o)
    requires !c.demand.Unconditional? ==> was == c.raw
    requires match pc
             case VSwapW => was == c.raw
             case VLoopW => c.demand.Unconditional?
             case VSettleW => !c.demand.Unconditional?
             case _ => false
    ensures Legal(s, o, RevokeSwap(c, was, pc, f), f)
  {
    var m := RevokeSwap(c, was, pc, f);
    Newest(s, o, m.call, m.w, f);
    RevokeSwapStands(Place(s, o, m, f), o, Moved(m), was);
    LegalSend(s, o, m.call, m.w, f);
  }

  lemma RevokeSwapStands(s: State, o: nat, d: Call, was: Option<Slot>)
    requires d.kind.Revoke? && Revoking(s, o, d) && Last(s, o, d, SwapSlot(d.agent, was, Revoked(d.at, d.rid)))
    requires match d.pc
             case VSwapW => was == d.raw
             case VLoopW => d.demand.Unconditional?
             case VSettleW => was == d.raw && !d.demand.Unconditional?
             case _ => false
    ensures Stands(s, o, d)
  {
  }

  lemma VReadLegal(s: State, o: nat, f: Fresh)
    requires Knows(s, o) && Unused(s, f)
    requires var c := s.calls[o]; c.kind.Revoke? && RevokeStands(s, o, c) && c.pc.VRead?
    ensures Legal(s, o, RevokeStep(s.calls[o], s.kv, f), f)
  {
    var c, cur := s.calls[o], SlotOf(s.kv, s.calls[o].agent);
    if !Matches(c.demand, cur) { OverLegal(s, o, SlotChanged, f); }
    else if cur.None? || cur.value.Revoked? { OverLegal(s, o, if f.open then Ok(cur) else Unknown, f); }
    else if c.gone { OverLegal(s, o, Aborted, f); }
    else { RevokeSwapLegal(s, o, c.(raw := cur, rid := f.id), cur, VSwapW, f); }
  }

  lemma VLoopLegal(s: State, o: nat, f: Fresh)
    requires Knows(s, o) && Unused(s, f)
    requires var c := s.calls[o]; c.kind.Revoke? && RevokeStands(s, o, c) && c.pc.VLoop?
    ensures Legal(s, o, RevokeStep(s.calls[o], s.kv, f), f)
  {
    var c, cur := s.calls[o], SlotOf(s.kv, s.calls[o].agent);
    if cur.None? || cur.value.Revoked? { OverLegal(s, o, if f.open then Ok(cur) else Unknown, f); }
    else { RevokeSwapLegal(s, o, c, cur, VLoopW, f); }
  }

  lemma VSettleLegal(s: State, o: nat, f: Fresh)
    requires Knows(s, o) && Unused(s, f) && Log(s) && Slots(s)
    requires var c := s.calls[o]; c.kind.Revoke? && RevokeStands(s, o, c) && c.pc.VSettle?
    ensures Legal(s, o, RevokeStep(s.calls[o], s.kv, f), f)
  {
    var c, cur := s.calls[o], SlotOf(s.kv, s.calls[o].agent);
    if cur.Some? && cur.value.Revoked? && cur.value.revocation == c.rid {
      OwnRevocation(s, o);
      OverLegal(s, o, if f.open then Ok(cur) else Unknown, f);
    } else if cur != c.raw {
      OverLegal(s, o, SlotChanged, f);
    } else {
      RevokeSwapLegal(s, o, c, c.raw, VSettleW, f);
    }
  }

  lemma RevokeReads(s: State, o: nat, f: Fresh)
    requires Knows(s, o) && Unused(s, f) && Log(s) && Slots(s)
    requires var c := s.calls[o]; c.kind.Revoke? && RevokeStands(s, o, c) && !Waiting(c.pc) && !c.pc.Done?
    ensures Legal(s, o, RevokeStep(s.calls[o], s.kv, f), f)
  {
    var c := s.calls[o];
    if c.pc.VRead? { VReadLegal(s, o, f); } else if c.pc.VLoop? { VLoopLegal(s, o, f); } else { VSettleLegal(s, o, f); }
  }

  lemma RevokeGo(s: State, o: nat, pc: Pc, f: Fresh)
    requires Knows(s, o) && Unused(s, f)
    requires var c := s.calls[o];
      && c.kind.Revoke? && RevokeStands(s, o, c) && !c.pc.VRead? && !c.pc.Done?
      && ((pc == VLoop && c.demand.Unconditional?) || (pc == VSettle && !c.demand.Unconditional?))
    ensures Legal(s, o, Go(s.calls[o].(pc := pc)), f)
  {
    LegalGo(s, o, s.calls[o].(pc := pc), f);
  }

  lemma RevokeAnswers(s: State, r: Req, f: Fresh)
    requires r in s.flight && r.op in s.calls && Unused(s, f) && Knows(Deliver(s, r), r.op)
    requires var c := s.calls[r.op];
      && c.kind.Revoke? && Waiting(c.pc) && r.n + 1 == c.sent
      && RevokeStands(s, r.op, c) && RevokeStands(Deliver(s, r), r.op, c)
    ensures Legal(Deliver(s, r), r.op, RevokeHears(s.calls[r.op], Takes(s.kv, r.w), f), f)
  {
    var s', c := Deliver(s, r), s.calls[r.op];
    if Takes(s.kv, r.w) {
      assert !c.demand.Unconditional? ==> Commit(c.agent, c.raw, Revoked(c.at, c.rid), r.op) in s'.log;
      OverLegal(s', r.op, if f.open then Ok(Some(Revoked(c.at, c.rid))) else Unknown, f);
    } else if c.pc.VSwapW? && !c.demand.Unconditional? {
      OverLegal(s', r.op, SlotChanged, f);
    } else {
      RevokeGo(s', r.op, if c.demand.Unconditional? then VLoop else VSettle, f);
    }
  }

  lemma RevokeFails(s: State, o: nat, late: bool, f: Fresh)
    requires Knows(s, o) && Unused(s, f)
    requires var c := s.calls[o]; c.kind.Revoke? && RevokeStands(s, o, c) && !c.pc.Done?
    ensures Legal(s, o, RevokeFailed(s.calls[o], late), f)
  {
    var c := s.calls[o];
    if c.pc.VRead? {
      OverLegal(s, o, if late then CutShort(c) else Errored, f);
    } else if late {
      OverLegal(s, o, Unknown, f);
    } else {
      RevokeGo(s, o, if c.demand.Unconditional? then VLoop else VSettle, f);
    }
  }

  /* ---- Adoption ------------------------------------------------------------------------- */

  /** An adoption's place carries over when it moves there without writing. */
  lemma AdoptHere(s: State, o: nat, d: Call, f: Fresh)
    requires o in s.calls && Unused(s, f) && Steady(s.calls[o], d) && d.kind.Adopt? && AdoptStands(s, o, d)
    requires !Waiting(d.pc) && !d.pc.Done?
    ensures AdoptStands(Place(s, o, Go(d), f), o, d)
  {
    var s' := Place(s, o, Go(d), f);
    Keeps(s, o, Go(d), f);
    assert Adopting(s, d) ==> Adopting(s', d);
    assert Live(s', o, d) == Live(s, o, d);
    if d.pc.AResume? || d.pc.AReRec? {
      assert WonBy(s', d.pc.t) && MintedFor(s', d.pc.t, d.agent);
    } else if d.pc.AComplete? {
      assert Adopted(s', d.pc.t, d.legacy) && MintedFor(s', d.pc.t, d.agent);
    } else if Early(d.pc) {
      assert Tracked(s, d.legacy) ==> Tracked(s', d.legacy);
    }
  }

  /** Stepping forward without writing: the new place must rest on facts already established. */
  lemma AdoptGo(s: State, o: nat, d: Call, f: Fresh)
    requires Knows(s, o) && Unused(s, f) && d.kind.Adopt? && AdoptStands(s, o, d)
    requires Steady(s.calls[o], d) && d.cast == s.calls[o].cast && d.minted == s.calls[o].minted
    requires !Waiting(d.pc) && !d.pc.Done?
    ensures Legal(s, o, Go(d), f)
  {
    AdoptHere(s, o, d, f);
    LegalGo(s, o, d, f);
  }

  /** Moving an adoption changes nothing else about it. */
  lemma Onto(s: State, c: Call, pc: Pc)
    requires c.kind.Adopt?
    ensures var d := c.(pc := pc); Steady(c, d) && (Adopting(s, c) ==> Adopting(s, d))
  {
  }

  /** A slot that names a record names one committed for its agent. */
  lemma NamedWon(s: State, a: Agent)
    requires Shapes(s) && Slots(s) && a in s.kv.slots && s.kv.slots[a].Issued?
    ensures WonBy(s, s.kv.slots[a].token) && MintedFor(s, s.kv.slots[a].token, a)
  {
    Shape(s, s.owner[s.kv.slots[a].token]);
  }

  /** A committed record with a legacy digest is the adoption of that one legacy record. */
  lemma SameDigest(s: State, t: Id, l: Record)
    requires Base(s) && Shapes(s) && Records(s) && Legacy(s, l) && WonBy(s, t) && HashAt(s.kv, t) == Some(l.hash)
    ensures Adopted(s, t, l)
  {
    Shape(s, s.owner[t]);
  }

  /** Two committed adoptions of one legacy record are the same one. */
  lemma OneAdoption(s: State, t: Id, u: Id, l: Record)
    requires Shapes(s) && Log(s) && Backing(s) && Adopted(s, t, l) && Adopted(s, u, l)
    ensures t == u
  {
    var p, q := s.owner[t], s.owner[u];
    Shape(s, p); Shape(s, q);
    assert Backed(s, s.calls[p]) && Backed(s, s.calls[q]);
    assert SameStart(Win(s.calls[p], p), Win(s.calls[q], q));
  }

  /** A record without agent, principal or revocation is one the store held from the start. */
  lemma FreeIsLegacy(s: State, id: Id)
    requires Base(s) && Shapes(s) && Records(s) && id in s.kv.records
    requires s.kv.records[id].id == id && s.kv.records[id].agent == None
    ensures Legacy(s, s.kv.records[id])
  {
    if id !in s.base.records { Shape(s, s.owner[id]); }
  }

  lemma FoundLegal(s: State, o: nat, l: Record, f: Fresh)
    requires Knows(s, o) && Unused(s, f) && Legacy(s, l) && l.agent == None
    requires var c := s.calls[o]; c.kind.Adopt? && AdoptStands(s, o, c) && c.pc.ARead?
    ensures Legal(s, o, Go(s.calls[o].(legacy := l, pc := AClaim)), f)
  {
    AdoptGo(s, o, s.calls[o].(legacy := l, pc := AClaim), f);
  }

  lemma AReadLegal(s: State, o: nat, f: Fresh)
    requires Base(s) && Shapes(s) && Records(s) && Knows(s, o) && Unused(s, f)
    requires var c := s.calls[o]; c.kind.Adopt? && AdoptStands(s, o, c) && c.pc.ARead?
    ensures Legal(s, o, AdoptStep(s.calls[o], s.kv, s.order, f), f)
  {
    var c := s.calls[o];
    var id := c.target;
    if id !in s.kv.records {
      OverLegal(s, o, NotAdoptable, f);
    } else if s.kv.records[id].id != id {
      OverLegal(s, o, Errored, f);
    } else if s.kv.records[id].agent.Some? || s.kv.records[id].human || s.kv.records[id].retired {
      OverLegal(s, o, NotAdoptable, f);
    } else {
      FreeIsLegacy(s, id);
      FoundLegal(s, o, s.kv.records[id], f);
    }
  }

  lemma HeldLegal(s: State, o: nat, held: bool, f: Fresh)
    requires Knows(s, o) && Unused(s, f) && (held ==> Claimed(s, s.calls[o].legacy, s.calls[o].agent))
    requires var c := s.calls[o]; c.kind.Adopt? && AdoptStands(s, o, c) && c.pc.AClaim?
    ensures Legal(s, o, Go(s.calls[o].(held := held, pc := ASlot)), f)
  {
    AdoptGo(s, o, s.calls[o].(held := held, pc := ASlot), f);
  }

  lemma AClaimLegal(s: State, o: nat, f: Fresh)
    requires Knows(s, o) && Unused(s, f)
    requires var c := s.calls[o]; c.kind.Adopt? && AdoptStands(s, o, c) && c.pc.AClaim?
    ensures Legal(s, o, AdoptStep(s.calls[o], s.kv, s.order, f), f)
  {
    var c := s.calls[o];
    if c.legacy.id in s.kv.claims && s.kv.claims[c.legacy.id] != c.agent {
      OverLegal(s, o, NotAdoptable, f);
    } else {
      HeldLegal(s, o, c.legacy.id in s.kv.claims, f);
    }
  }

  lemma VacantLegal(s: State, o: nat, f: Fresh)
    requires Knows(s, o) && Unused(s, f) && Adopting(s, s.calls[o]) && s.calls[o].pc.ASlot?
    ensures Legal(s, o, Go(s.calls[o].(raw := None, pc := ALookup)), f)
  {
    AdoptGo(s, o, s.calls[o].(raw := None, pc := ALookup), f);
  }

  lemma ResumingLegal(s: State, o: nat, v: Slot, f: Fresh)
    requires Knows(s, o) && Unused(s, f) && Adopting(s, s.calls[o]) && s.calls[o].pc.ASlot?
    requires v.Issued? && WonBy(s, v.token) && MintedFor(s, v.token, s.calls[o].agent)
    ensures Legal(s, o, Go(s.calls[o].(raw := Some(v), pc := AResume(v.token, v.at))), f)
  {
    AdoptGo(s, o, s.calls[o].(raw := Some(v), pc := AResume(v.token, v.at)), f);
  }

  lemma ASlotLegal(s: State, o: nat, f: Fresh)
    requires Shapes(s) && Slots(s) && Knows(s, o) && Unused(s, f)
    requires var c := s.calls[o]; c.kind.Adopt? && AdoptStands(s, o, c) && c.pc.ASlot?
    ensures Legal(s, o, AdoptStep(s.calls[o], s.kv, s.order, f), f)
  {
    var c, cur := s.calls[o], SlotOf(s.kv, s.calls[o].agent);
    if !Matches(c.demand, cur) {
      OverLegal(s, o, SlotChanged, f);
    } else if cur.None? {
      VacantLegal(s, o, f);
    } else if cur.value.Revoked? {
      OverLegal(s, o, NotAdoptable, f);
    } else {
      NamedWon(s, c.agent);
      ResumingLegal(s, o, cur.value, f);
    }
  }

  lemma ALookupLegal(s: State, o: nat, f: Fresh)
    requires Knows(s, o) && Unused(s, f)
    requires var c := s.calls[o]; c.kind.Adopt? && AdoptStands(s, o, c) && c.pc.ALookup?
    ensures Legal(s, o, AdoptStep(s.calls[o], s.kv, s.order, f), f)
  {
    var c := s.calls[o];
    if c.legacy.hash !in s.kv.lookups || s.kv.lookups[c.legacy.hash] != c.legacy.id {
      OverLegal(s, o, NotAdoptable, f);
    } else {
      CarryGo(s, o, ACarry(0), f);
    }
  }

  /** Completion starts, or starts again, from a committed record of this digest. */
  lemma CompletionLegal(s: State, o: nat, t: Id, since: Time, f: Fresh)
    requires Knows(s, o) && Unused(s, f) && !s.calls[o].pc.Done? && Completing(s, s.calls[o], t)
    ensures Legal(s, o, Go(s.calls[o].(pc := AComplete(t, since))), f)
  {
    Onto(s, s.calls[o], AComplete(t, since));
    AdoptGo(s, o, s.calls[o].(pc := AComplete(t, since)), f);
  }

  /** Finding a committed record of this digest in its own slot resumes its completion. */
  lemma ResumeLegal(s: State, o: nat, f: Fresh)
    requires Base(s) && Shapes(s) && Records(s) && Knows(s, o) && Unused(s, f)
    requires var c := s.calls[o]; c.kind.Adopt? && AdoptStands(s, o, c) && c.pc.AResume?
    ensures Legal(s, o, AdoptStep(s.calls[o], s.kv, s.order, f), f)
  {
    var c := s.calls[o];
    if HashAt(s.kv, c.pc.t) == Some(c.legacy.hash) {
      SameDigest(s, c.pc.t, c.legacy);
      CompletionLegal(s, o, c.pc.t, c.pc.since, f);
    } else {
      OverLegal(s, o, NotAdoptable, f);
    }
  }

  lemma RereadRecordLegal(s: State, o: nat, f: Fresh)
    requires Base(s) && Shapes(s) && Records(s) && Knows(s, o) && Unused(s, f)
    requires var c := s.calls[o]; c.kind.Adopt? && AdoptStands(s, o, c) && c.pc.AReRec?
    ensures Legal(s, o, AdoptEnd(s.calls[o], s.kv, f), f)
  {
    var c := s.calls[o];
    if HashAt(s.kv, c.pc.t) == Some(c.legacy.hash) {
      SameDigest(s, c.pc.t, c.legacy);
      CompletionLegal(s, o, c.pc.t, c.pc.since, f);
    } else {
      OverLegal(s, o, Conflict, f);
    }
  }

  lemma MintAdoptionLegal(s: State, o: nat, f: Fresh)
    requires Knows(s, o) && Unused(s, f)
    requires var c := s.calls[o];
      Adopting(s, c) && c.raw == None && Tracked(s, c.legacy) && Claimed(s, c.legacy, c.agent) && !c.pc.Done?
    ensures Legal(s, o, MintAdoption(s.calls[o], f), f)
  {
    var c := s.calls[o];
    var m := MintAdoption(c, f);
    var s', d := Place(s, o, m, f), Moved(m);
    KeepsWon(s, o, m, f);
    Newest(s, o, m.call, m.w, f);
    assert Win(d, o) !in s.log;
    assert !Dropping(s', o) by { assert !Dropping(s, o); }
    MintStands(s', o, d);
  }

  lemma MintStands(s: State, o: nat, c: Call)
    requires c.kind.Adopt? && c.pc.ARecW? && Building(s, o, c) && Last(s, o, c, PutRecord(c.mine))
    requires Claimed(s, c.legacy, c.agent) && Tracked(s, c.legacy)
    ensures Stands(s, o, c)
  {
  }

  lemma ClaimLegal(s: State, o: nat, f: Fresh)
    requires Knows(s, o) && Unused(s, f)
    requires var c := s.calls[o]; Adopting(s, c) && c.raw == None && Tracked(s, c.legacy) && c.pc.ACarry?
    ensures var c := s.calls[o]; Legal(s, o, Send(c.(pc := AClaimW), Claim(c.legacy.id, c.agent)), f)
  {
    var c := s.calls[o];
    var m := Send(c.(pc := AClaimW), Claim(c.legacy.id, c.agent));
    KeepsWon(s, o, m, f);
    Newest(s, o, m.call, m.w, f);
    LegalSend(s, o, m.call, m.w, f);
  }

  lemma CarryStands(s: State, o: nat, d: Call)
    requires Adopting(s, d) && d.raw == None && Tracked(s, d.legacy) && (d.pc.ACarry? || d.pc.ACarryRec? || d.pc.AReclaim?)
    ensures AdoptStands(s, o, d)
  {
  }

  lemma CarryGo(s: State, o: nat, pc: Pc, f: Fresh)
    requires Knows(s, o) && Unused(s, f) && (pc.ACarry? || pc.ACarryRec? || pc.AReclaim?) && !s.calls[o].pc.Done?
    requires var c := s.calls[o]; Adopting(s, c) && c.raw == None && Tracked(s, c.legacy)
    ensures Legal(s, o, Go(s.calls[o].(pc := pc)), f)
  {
    Onto(s, s.calls[o], pc);
    CarryStands(s, o, s.calls[o].(pc := pc));
    AdoptGo(s, o, s.calls[o].(pc := pc), f);
  }

  /** Where the search for a slot that already carries the digest goes next. */
  function CarryNext(kv: Kv, order: seq<Agent>, i: nat): Pc
    requires i < |order|
  {
    var held := SlotOf(kv, order[i]);
    if held.Some? && held.value.Issued? then ACarryRec(i, held.value.token) else ACarry(i + 1)
  }

  lemma CarryStep(c: Call, kv: Kv, order: seq<Agent>, f: Fresh)
    requires c.pc.ACarry?
    ensures AdoptStep(c, kv, order, f) ==
      if c.pc.i < |order| then Go(c.(pc := CarryNext(kv, order, c.pc.i)))
      else if c.gone then Over(c, Aborted)
      else if c.held then MintAdoption(c, f)
      else Send(c.(pc := AClaimW), Claim(c.legacy.id, c.agent))
  {
  }

  lemma CarryRecStep(c: Call, kv: Kv, order: seq<Agent>, f: Fresh)
    requires c.pc.ACarryRec?
    ensures AdoptStep(c, kv, order, f) ==
      if HashAt(kv, c.pc.t) == Some(c.legacy.hash) then Over(c, NotAdoptable) else Go(c.(pc := ACarry(c.pc.i + 1)))
  {
  }

  lemma ReclaimStep(c: Call, kv: Kv, order: seq<Agent>, f: Fresh)
    requires c.pc.AReclaim?
    ensures AdoptStep(c, kv, order, f) ==
      if c.legacy.id in kv.claims && kv.claims[c.legacy.id] == c.agent then MintAdoption(c, f) else Over(c, NotAdoptable)
  {
  }

  lemma CarryReads(s: State, o: nat, f: Fresh)
    requires Knows(s, o) && Unused(s, f)
    requires var c := s.calls[o]; Adopting(s, c) && c.raw == None && Tracked(s, c.legacy) && c.pc.ACarry?
    ensures Legal(s, o, AdoptStep(s.calls[o], s.kv, s.order, f), f)
  {
    var c := s.calls[o];
    CarryStep(c, s.kv, s.order, f);
    if c.pc.i < |s.order| {
      CarryGo(s, o, CarryNext(s.kv, s.order, c.pc.i), f);
    } else if c.gone {
      OverLegal(s, o, Aborted, f);
    } else if c.held {
      MintAdoptionLegal(s, o, f);
    } else {
      ClaimLegal(s, o, f);
    }
  }

  lemma CarryRecReads(s: State, o: nat, f: Fresh)
    requires Knows(s, o) && Unused(s, f)
    requires var c := s.calls[o]; Adopting(s, c) && c.raw == None && Tracked(s, c.legacy) && c.pc.ACarryRec?
    ensures Legal(s, o, AdoptStep(s.calls[o], s.kv, s.order, f), f)
  {
    var c := s.calls[o];
    CarryRecStep(c, s.kv, s.order, f);
    if HashAt(s.kv, c.pc.t) == Some(c.legacy.hash) {
      OverLegal(s, o, NotAdoptable, f);
    } else {
      CarryGo(s, o, ACarry(c.pc.i + 1), f);
    }
  }

  lemma ReclaimReads(s: State, o: nat, f: Fresh)
    requires Knows(s, o) && Unused(s, f)
    requires var c := s.calls[o]; Adopting(s, c) && c.raw == None && Tracked(s, c.legacy) && c.pc.AReclaim?
    ensures Legal(s, o, AdoptStep(s.calls[o], s.kv, s.order, f), f)
  {
    ReclaimStep(s.calls[o], s.kv, s.order, f);
    if Claimed(s, s.calls[o].legacy, s.calls[o].agent) {
      MintAdoptionLegal(s, o, f);
    } else {
      OverLegal(s, o, NotAdoptable, f);
    }
  }

  /** The lookup of an adopted digest names the legacy record or this adoption, never anything else. */
  lemma NeverTaken(s: State, o: nat)
    requires Shapes(s) && Log(s) && Backing(s) && o in s.calls
    requires var c := s.calls[o]; c.pc.AComplete? && Completing(s, c, c.pc.t)
    ensures var c := s.calls[o];
      c.legacy.hash in s.kv.lookups && (s.kv.lookups[c.legacy.hash] == c.legacy.id || s.kv.lookups[c.legacy.hash] == c.pc.t)
  {
    var c := s.calls[o];
    var p := s.owner[c.pc.t];
    assert Backed(s, s.calls[p]);
    if s.kv.lookups[c.legacy.hash] != c.legacy.id {
      OneAdoption(s, s.kv.lookups[c.legacy.hash], c.pc.t, c.legacy);
    }
  }

  lemma CompletingMoved(s: State, o: nat, m: Move, f: Fresh, t: Id)
    requires o in s.calls && Unused(s, f) && Steady(s.calls[o], Moved(m)) && Completing(s, s.calls[o], t)
    requires Moved(m).legacy == s.calls[o].legacy
    ensures Completing(Place(s, o, m, f), Moved(m), t)
  {
    Keeps(s, o, m, f);
    assert Adopted(s, t, s.calls[o].legacy);
  }

  lemma MoveLegal(s: State, o: nat, f: Fresh)
    requires Knows(s, o) && Unused(s, f)
    requires var c := s.calls[o]; c.pc.AComplete? && Completing(s, c, c.pc.t)
    ensures var c := s.calls[o];
      Legal(s, o, Send(c.(pc := AMoveW(c.pc.t, c.pc.since)), MoveLookup(c.legacy.hash, c.legacy.id, c.pc.t)), f)
  {
    var c := s.calls[o];
    var m := Send(c.(pc := AMoveW(c.pc.t, c.pc.since)), MoveLookup(c.legacy.hash, c.legacy.id, c.pc.t));
    CompletingMoved(s, o, m, f, c.pc.t);
    Newest(s, o, m.call, m.w, f);
    MoveStands(Place(s, o, m, f), o, Moved(m));
    LegalSend(s, o, m.call, m.w, f);
  }

  lemma MoveStands(s: State, o: nat, c: Call)
    requires c.pc.AMoveW? && Completing(s, c, c.pc.t) && Last(s, o, c, MoveLookup(c.legacy.hash, c.legacy.id, c.pc.t))
    ensures Stands(s, o, c)
    ensures forall n: nat :: n < c.sent && o in s.calls && s.calls[o] == c ==>
      Justified(s, Req(o, n, MoveLookup(c.legacy.hash, c.legacy.id, c.pc.t)))
  {
  }

  lemma CompleteStep(c: Call, kv: Kv, f: Fresh)
    requires c.pc.AComplete? && c.legacy.hash in kv.lookups
    requires kv.lookups[c.legacy.hash] == c.legacy.id || kv.lookups[c.legacy.hash] == c.pc.t
    ensures AdoptEnd(c, kv, f) ==
      if kv.lookups[c.legacy.hash] == c.pc.t then Completed(c, Issued(c.pc.t, c.pc.since), f)
      else Send(c.(pc := AMoveW(c.pc.t, c.pc.since)), MoveLookup(c.legacy.hash, c.legacy.id, c.pc.t))
  {
  }

  lemma CompleteLegal(s: State, o: nat, f: Fresh)
    requires Knows(s, o) && Unused(s, f)
    requires var c := s.calls[o]; c.pc.AComplete? && Completing(s, c, c.pc.t)
    requires var c := s.calls[o];
      c.legacy.hash in s.kv.lookups && (s.kv.lookups[c.legacy.hash] == c.legacy.id || s.kv.lookups[c.legacy.hash] == c.pc.t)
    ensures Legal(s, o, AdoptEnd(s.calls[o], s.kv, f), f)
  {
    var c := s.calls[o];
    CompleteStep(c, s.kv, f);
    if s.kv.lookups[c.legacy.hash] == c.pc.t {
      CompletedLegal(s, o, f);
    } else {
      MoveLegal(s, o, f);
    }
  }

  lemma CompletedLegal(s: State, o: nat, f: Fresh)
    requires Knows(s, o) && Unused(s, f)
    requires var c := s.calls[o];
      && (c.pc.AComplete? || c.pc.AMoveW?) && Completing(s, c, c.pc.t)
      && c.legacy.hash in s.kv.lookups && s.kv.lookups[c.legacy.hash] == c.pc.t
    ensures var c := s.calls[o]; Legal(s, o, Completed(c, Issued(c.pc.t, c.pc.since), f), f)
  {
    var c := s.calls[o];
    OverLegal(s, o, if f.open then Ok(Some(Issued(c.pc.t, c.pc.since))) else Lapsed(c), f);
  }

  lemma EarlyReads(s: State, o: nat, f: Fresh)
    requires Core(s) && Knows(s, o) && Unused(s, f)
    requires var c := s.calls[o]; c.kind.Adopt? && AdoptStands(s, o, c) && Early(c.pc)
    ensures Legal(s, o, AdoptStep(s.calls[o], s.kv, s.order, f), f)
  {
    match s.calls[o].pc
    case ARead => AReadLegal(s, o, f);
    case AClaim => AClaimLegal(s, o, f);
    case ASlot => ASlotLegal(s, o, f);
    case AResume(_, _) => ResumeLegal(s, o, f);
    case ALookup => ALookupLegal(s, o, f);
    case ACarry(_) => CarryReads(s, o, f);
    case ACarryRec(_, _) => CarryRecReads(s, o, f);
    case AReclaim => ReclaimReads(s, o, f);
  }

  lemma LateReads(s: State, o: nat, f: Fresh)
    requires Core(s) && Knows(s, o) && Unused(s, f)
    requires var c := s.calls[o];
      c.kind.Adopt? && AdoptStands(s, o, c) && !Early(c.pc) && !Waiting(c.pc) && !c.pc.Done?
    ensures Legal(s, o, AdoptEnd(s.calls[o], s.kv, f), f)
  {
    var c := s.calls[o];
    if c.pc.ANames? { NamesLegal(s, o, f); }
    else if c.pc.AReread? { RereadSlotLegal(s, o, f); }
    else if c.pc.AReRec? { RereadRecordLegal(s, o, f); }
    else { NeverTaken(s, o); CompleteLegal(s, o, f); }
  }

  lemma NamesLegal(s: State, o: nat, f: Fresh)
    requires Knows(s, o) && Unused(s, f)
    requires var c := s.calls[o]; c.kind.Adopt? && AdoptStands(s, o, c) && c.pc.ANames?
    ensures Legal(s, o, AdoptEnd(s.calls[o], s.kv, f), f)
  {
    var c := s.calls[o];
    if Named(s.kv, c.agent, c.mine.id) { OwnCompletion(s, o, f); } else { OverLegal(s, o, Errored, f); }
  }

  lemma RereadStands(s: State, o: nat, c: Call, pc: Pc)
    requires Dead(s, o, c) && pc.AReRec? && WonBy(s, pc.t) && MintedFor(s, pc.t, c.agent)
    ensures AdoptStands(s, o, c.(pc := pc))
  {
    assert Live(s, o, c.(pc := pc)) == Live(s, o, c);
  }

  lemma RereadGo(s: State, o: nat, v: Slot, f: Fresh)
    requires Knows(s, o) && Unused(s, f)
    requires v.Issued? && WonBy(s, v.token) && MintedFor(s, v.token, s.calls[o].agent)
    requires var c := s.calls[o]; c.kind.Adopt? && AdoptStands(s, o, c) && c.pc.AReread?
    ensures Legal(s, o, Go(s.calls[o].(pc := AReRec(v.token, v.at))), f)
  {
    Onto(s, s.calls[o], AReRec(v.token, v.at));
    RereadStands(s, o, s.calls[o], AReRec(v.token, v.at));
    AdoptGo(s, o, s.calls[o].(pc := AReRec(v.token, v.at)), f);
  }

  lemma RereadSlotLegal(s: State, o: nat, f: Fresh)
    requires Shapes(s) && Slots(s) && Knows(s, o) && Unused(s, f)
    requires var c := s.calls[o]; c.kind.Adopt? && AdoptStands(s, o, c) && c.pc.AReread?
    ensures Legal(s, o, AdoptEnd(s.calls[o], s.kv, f), f)
  {
    var c, cur := s.calls[o], SlotOf(s.kv, s.calls[o].agent);
    if cur.Some? && cur.value.Issued? {
      NamedWon(s, c.agent);
      RereadGo(s, o, cur.value, f);
    } else {
      OverLegal(s, o, Conflict, f);
    }
  }

  lemma OwnCompletion(s: State, o: nat, f: Fresh)
    requires Knows(s, o) && Unused(s, f)
    requires var c := s.calls[o]; c.kind.Adopt? && Won(s, o, c) && !c.pc.Done?
    ensures var c := s.calls[o]; Legal(s, o, Go(c.(pc := AComplete(c.mine.id, IssuedAt(c)))), f)
  {
    CompletionLegal(s, o, s.calls[o].mine.id, IssuedAt(s.calls[o]), f);
  }

  lemma ClaimAnswered(s: State, r: Req, f: Fresh)
    requires r in s.flight && r.op in s.calls && Unused(s, f) && Knows(Deliver(s, r), r.op)
    requires var c := s.calls[r.op];
      && c.kind.Adopt? && c.pc.AClaimW? && r.n + 1 == c.sent
      && AdoptStands(s, r.op, c) && AdoptStands(Deliver(s, r), r.op, c)
    ensures Legal(Deliver(s, r), r.op, AdoptHears(s.calls[r.op], Takes(s.kv, r.w), f), f)
  {
    if Takes(s.kv, r.w) { MintAdoptionLegal(Deliver(s, r), r.op, f); } else { CarryGo(Deliver(s, r), r.op, AReclaim, f); }
  }

  lemma RecordAnswered(s: State, r: Req, f: Fresh)
    requires r in s.flight && r.op in s.calls && Unused(s, f) && Knows(Deliver(s, r), r.op)
    requires var c := s.calls[r.op];
      && c.kind.Adopt? && c.pc.ARecW? && r.n + 1 == c.sent
      && AdoptStands(s, r.op, c) && AdoptStands(Deliver(s, r), r.op, c)
    ensures Legal(Deliver(s, r), r.op, AdoptHears(s.calls[r.op], Takes(s.kv, r.w), f), f)
  {
    if s.calls[r.op].gone { DiscardLegal(Deliver(s, r), r.op, Done(Aborted), f); } else { CastLegal(Deliver(s, r), r.op, f); }
  }

  lemma ProposalAnswered(s: State, r: Req, f: Fresh)
    requires r in s.flight && Knows(s, r.op) && Unused(s, f) && Knows(Deliver(s, r), r.op)
    requires var c := s.calls[r.op]; c.kind.Adopt? && c.pc.ACommitW? && r.n + 1 == c.sent && AdoptStands(s, r.op, c)
    ensures Legal(Deliver(s, r), r.op, AdoptHears(s.calls[r.op], Takes(s.kv, r.w), f), f)
  {
    var s', c := Deliver(s, r), s.calls[r.op];
    CommitAnswer(s, r);
    if Takes(s.kv, r.w) {
      OwnCompletion(s', r.op, f);
    } else {
      DiscardLegal(s', r.op, if c.demand.Unconditional? then AReread else Done(SlotChanged), f);
    }
  }

  lemma MoveAnswered(s: State, r: Req, f: Fresh)
    requires r in s.flight && r.op in s.calls && Unused(s, f) && Knows(Deliver(s, r), r.op)
    requires var c := s.calls[r.op];
      && c.kind.Adopt? && c.pc.AMoveW? && r.n + 1 == c.sent
      && AdoptStands(s, r.op, c) && AdoptStands(Deliver(s, r), r.op, c)
    ensures Legal(Deliver(s, r), r.op, AdoptHears(s.calls[r.op], Takes(s.kv, r.w), f), f)
  {
    var s', c := Deliver(s, r), s.calls[r.op];
    if Takes(s.kv, r.w) { CompletedLegal(s', r.op, f); } else { CompletionLegal(s', r.op, c.pc.t, c.pc.since, f); }
  }

  lemma AdoptAnswers(s: State, r: Req, f: Fresh)
    requires r in s.flight && Knows(s, r.op) && Unused(s, f) && Knows(Deliver(s, r), r.op)
    requires var c := s.calls[r.op];
      && c.kind.Adopt? && Waiting(c.pc) && r.n + 1 == c.sent
      && AdoptStands(s, r.op, c) && AdoptStands(Deliver(s, r), r.op, c)
    ensures Legal(Deliver(s, r), r.op, AdoptHears(s.calls[r.op], Takes(s.kv, r.w), f), f)
  {
    var c := s.calls[r.op];
    if c.pc.AClaimW? { ClaimAnswered(s, r, f); }
    else if c.pc.ARecW? { RecordAnswered(s, r, f); }
    else if c.pc.ACommitW? { ProposalAnswered(s, r, f); }
    else if c.pc.AMoveW? { MoveAnswered(s, r, f); }
    else { DropLegal(Deliver(s, r), r.op, f); }
  }

  lemma AdoptFails(s: State, o: nat, late: bool, f: Fresh)
    requires Knows(s, o) && Unused(s, f)
    requires var c := s.calls[o]; c.kind.Adopt? && AdoptStands(s, o, c) && !c.pc.Done?
    ensures Legal(s, o, AdoptFailed(s.calls[o], late), f)
  {
    var c := s.calls[o];
    if c.pc.DropRecW? { DropLegal(s, o, f); }
    else if c.pc.ARecW? { DiscardLegal(s, o, if late then Quit else Done(Errored), f); }
    else if c.pc.ACommitW? || c.pc.ANames? { ProposalFails(s, o, late, f); }
    else if c.pc.AComplete? || c.pc.AMoveW? { CompletionFails(s, o, late, f); }
    else if Early(c.pc) && !c.pc.AReclaim? { EarlyFails(s, o, late, f); }
    else { ClaimFails(s, o, late, f); }
  }

  /** What an adoption does when a storage call throws, or its window closes, by where it stands. */
  lemma FailedAt(c: Call, late: bool)
    ensures c.pc.ACommitW? || c.pc.ANames? ==>
      AdoptFailed(c, late) == if late then Over(c, Unknown) else Go(c.(pc := ANames))
    ensures c.pc.AComplete? || c.pc.AMoveW? ==>
      AdoptFailed(c, late) == if late then Over(c, Lapsed(c)) else Go(c.(pc := AComplete(c.pc.t, c.pc.since)))
    ensures c.pc.AClaimW? || c.pc.AReclaim? || c.pc.AReread? || c.pc.AReRec? ==>
      AdoptFailed(c, late) == Over(c, if late then Unknown else Errored)
  {
  }

  lemma ProposalFails(s: State, o: nat, late: bool, f: Fresh)
    requires Knows(s, o) && Unused(s, f)
    requires var c := s.calls[o]; c.kind.Adopt? && AdoptStands(s, o, c) && (c.pc.ACommitW? || c.pc.ANames?)
    ensures Legal(s, o, AdoptFailed(s.calls[o], late), f)
  {
    FailedAt(s.calls[o], late);
    if late { OverLegal(s, o, Unknown, f); } else { ReadBack(s, o, f); }
  }

  lemma ReadBack(s: State, o: nat, f: Fresh)
    requires Knows(s, o) && Unused(s, f) && !s.calls[o].pc.Done?
    requires var c := s.calls[o]; c.kind.Adopt? && c.minted && c.cast.Some?
    ensures Legal(s, o, Go(s.calls[o].(pc := ANames)), f)
  {
    Onto(s, s.calls[o], ANames);
    AdoptGo(s, o, s.calls[o].(pc := ANames), f);
  }

  lemma CompletionFails(s: State, o: nat, late: bool, f: Fresh)
    requires Knows(s, o) && Unused(s, f)
    requires var c := s.calls[o]; c.kind.Adopt? && AdoptStands(s, o, c) && (c.pc.AComplete? || c.pc.AMoveW?)
    ensures Legal(s, o, AdoptFailed(s.calls[o], late), f)
  {
    var c := s.calls[o];
    FailedAt(c, late);
    if late { OverLegal(s, o, Lapsed(c), f); } else { CompletionLegal(s, o, c.pc.t, c.pc.since, f); }
  }

  /** A failure before anything was published. */
  lemma EarlyFails(s: State, o: nat, late: bool, f: Fresh)
    requires Knows(s, o) && Unused(s, f)
    requires var c := s.calls[o]; c.kind.Adopt? && AdoptStands(s, o, c) && Early(c.pc) && !c.pc.AReclaim?
    ensures Legal(s, o, AdoptFailed(s.calls[o], late), f)
  {
    var c := s.calls[o];
    OverLegal(s, o, if late then CutShort(c) else Errored, f);
  }

  lemma ClaimFails(s: State, o: nat, late: bool, f: Fresh)
    requires Knows(s, o) && Unused(s, f)
    requires var c := s.calls[o]; c.kind.Adopt? && (c.pc.AClaimW? || c.pc.AReclaim? || c.pc.AReread? || c.pc.AReRec?)
    ensures Legal(s, o, AdoptFailed(s.calls[o], late), f)
  {
    FailedAt(s.calls[o], late);
    OverLegal(s, o, if late then Unknown else Errored, f);
  }

  /* ---- Authorization -------------------------------------------------------------------- */

  /** A token that admits rests on a committed record that cannot go away. */
  lemma AdmittingIsFirm(s: State, tok: Token)
    requires Base(s) && Records(s) && Slots(s) && Admitting(s.kv, s.order, tok)
    ensures Firm(s, tok, s.kv.lookups[tok.digest])
  {
  }

  lemma LookupSeen(s: State, d: Digest)
    requires Lookups(s) && d in s.kv.lookups
    ensures Seen(s, d, s.kv.lookups[d])
  {
  }

  /** A record some call can be shown under an id is that id's only record. */
  lemma RecordMinted(s: State, id: Id, tok: Token)
    requires Base(s) && Records(s) && id in s.kv.records && Presentable(s.kv.records[id], id, tok, s.order)
    ensures Minted(s, id) && s.calls[s.owner[id]].mine == s.kv.records[id]
  {
  }

  /** While its record is named, a seen and firm token admits. */
  lemma FirmAdmits(s: State, tok: Token, rec: Record)
    requires Shapes(s) && Backing(s) && Seen(s, tok.digest, rec.id) && WonBy(s, rec.id)
    requires s.calls[s.owner[rec.id]].mine == rec && Presentable(rec, rec.id, tok, s.order)
    ensures tok.digest in s.kv.lookups && s.kv.lookups[tok.digest] == rec.id
    ensures rec.id in s.kv.records && s.kv.records[rec.id] == rec
  {
    var p := s.owner[rec.id];
    Shape(s, p);
    assert Backed(s, s.calls[p]);
  }

  lemma AuthGo(s: State, o: nat, d: Call, f: Fresh)
    requires Knows(s, o) && Unused(s, f) && Base(s) && d.kind.Authorize?
    requires Steady(s.calls[o], d) && d.cast == None && !d.minted && AuthorizeStands(s, o, d)
    ensures Legal(s, o, Go(d), f)
  {
    var s' := Place(s, o, Go(d), f);
    Keeps(s, o, Go(d), f);
    forall e, id | Seen(s, e, id) ensures Seen(s', e, id) {
      assert Minted(s', id) ==> id !in s.base.lookups.Values;
    }
    LegalGo(s, o, d, f);
  }

  lemma ULookStands(s: State, o: nat, c: Call)
    requires Base(s) && Records(s) && Slots(s) && Lookups(s)
    requires c.kind.Authorize? && c.pc.ULook? && !c.minted && (!c.denied ==> Admitting(s.kv, s.order, c.tok))
    ensures AuthorizeStands(s, o, Authorized(c, s.kv, s.order).call)
  {
    if c.tok.digest in s.kv.lookups {
      if !c.denied { AdmittingIsFirm(s, c.tok); }
      LookupSeen(s, c.tok.digest);
      FoundStands(s, o, c);
    } else {
      Ends(s, o, c, Refused);
    }
  }

  lemma FoundStands(s: State, o: nat, c: Call)
    requires c.kind.Authorize? && c.pc.ULook? && !c.minted && c.tok.digest in s.kv.lookups
    requires Seen(s, c.tok.digest, s.kv.lookups[c.tok.digest]) && (c.denied || Firm(s, c.tok, s.kv.lookups[c.tok.digest]))
    ensures AuthorizeStands(s, o, Authorized(c, s.kv, s.order).call)
  {
  }

  lemma URecStands(s: State, o: nat, c: Call)
    requires Base(s) && Shapes(s) && Records(s) && Backing(s)
    requires c.kind.Authorize? && c.pc.URec? && AuthorizeStands(s, o, c)
    ensures AuthorizeStands(s, o, Authorized(c, s.kv, s.order).call)
  {
    var id := c.pc.id;
    if id in s.kv.records && Presentable(s.kv.records[id], id, c.tok, s.order) {
      RecordMinted(s, id, c.tok);
      ShownStands(s, o, c);
    } else {
      if !c.denied { FirmAdmits(s, c.tok, s.calls[s.owner[id]].mine); }
      Ends(s, o, c, Refused);
    }
  }

  lemma ShownStands(s: State, o: nat, c: Call)
    requires c.kind.Authorize? && c.pc.URec? && AuthorizeStands(s, o, c) && c.pc.id in s.kv.records
    requires Presentable(s.kv.records[c.pc.id], c.pc.id, c.tok, s.order)
    requires Minted(s, c.pc.id) && s.calls[s.owner[c.pc.id]].mine == s.kv.records[c.pc.id]
    ensures AuthorizeStands(s, o, Authorized(c, s.kv, s.order).call)
  {
  }

  lemma USlotStands(s: State, o: nat, c: Call)
    requires Shapes(s) && Backing(s)
    requires c.kind.Authorize? && c.pc.USlot? && AuthorizeStands(s, o, c)
    requires !c.denied ==> Admitting(s.kv, s.order, c.tok)
    ensures AuthorizeStands(s, o, Authorized(c, s.kv, s.order).call)
  {
    var rec := c.pc.rec;
    if Named(s.kv, rec.agent.value, rec.id) {
      Ends(s, o, c, Admitted(rec.agent.value));
    } else {
      if !c.denied { NamedWhileAdmitting(s, c.tok, rec); }
      Ends(s, o, c, Refused);
    }
  }

  lemma NamedWhileAdmitting(s: State, tok: Token, rec: Record)
    requires Shapes(s) && Backing(s) && Seen(s, tok.digest, rec.id) && WonBy(s, rec.id)
    requires s.calls[s.owner[rec.id]].mine == rec && Presentable(rec, rec.id, tok, s.order)
    requires Admitting(s.kv, s.order, tok)
    ensures Named(s.kv, rec.agent.value, rec.id)
  {
    FirmAdmits(s, tok, rec);
  }

  lemma Ends(s: State, o: nat, c: Call, out: Outcome)
    requires c.kind.Authorize? && !c.minted && (out.Refused? ==> c.denied)
    ensures Over(c, out) == Go(c.(pc := Done(out))) && AuthorizeStands(s, o, c.(pc := Done(out)))
  {
  }

  /** Noticing that a token does not admit moves no call. */
  lemma ObservedStands(s: State, o: nat, c: Call)
    requires c.kind.Authorize? && !c.pc.Done? && AuthorizeStands(s, o, c)
    ensures AuthorizeStands(s, o, Observe(c, s.kv, s.order)) && !Observe(c, s.kv, s.order).pc.Done?
  {
  }

  lemma ReadStands(s: State, o: nat, c: Call)
    requires Base(s) && Shapes(s) && Records(s) && Slots(s) && Lookups(s) && Backing(s)
    requires c.kind.Authorize? && AuthorizeStands(s, o, c) && !c.pc.Done?
    requires !c.denied ==> Admitting(s.kv, s.order, c.tok)
    ensures AuthorizeStands(s, o, Authorized(c, s.kv, s.order).call)
  {
    if c.pc.ULook? { ULookStands(s, o, c); } else if c.pc.URec? { URecStands(s, o, c); } else { USlotStands(s, o, c); }
  }

  lemma ReadGoes(c: Call, b: Call, kv: Kv, order: seq<Agent>)
    requires c.kind.Authorize? && c.cast == None && !c.minted && b == c.(denied := b.denied)
    requires b.pc.ULook? || b.pc.URec? || b.pc.USlot?
    ensures var m := Authorized(b, kv, order);
      && m == Go(b.(pc := m.call.pc)) && Steady(c, m.call)
      && m.call.kind.Authorize? && m.call.cast == None && !m.call.minted
  {
    Repositioned(c, b.denied, Authorized(b, kv, order).call.pc);
  }

  lemma Repositioned(c: Call, denied: bool, pc: Pc)
    requires c.kind.Authorize?
    ensures Steady(c, c.(denied := denied, pc := pc))
  {
  }

  lemma AuthReads(s: State, o: nat, f: Fresh)
    requires Core(s) && Knows(s, o) && Unused(s, f)
    requires var c := s.calls[o]; c.kind.Authorize? && AuthorizeStands(s, o, c) && !c.pc.Done?
    ensures Legal(s, o, Authorized(Observe(s.calls[o], s.kv, s.order), s.kv, s.order), f)
  {
    var c := Observe(s.calls[o], s.kv, s.order);
    ObservedStands(s, o, s.calls[o]);
    ReadStands(s, o, c);
    Shape(s, o);
    ReadGoes(s.calls[o], c, s.kv, s.order);
    AuthGo(s, o, Authorized(c, s.kv, s.order).call, f);
  }

  lemma AuthFails(s: State, o: nat, late: bool, f: Fresh)
    requires Knows(s, o) && Unused(s, f)
    requires var c := s.calls[o]; c.kind.Authorize? && AuthorizeStands(s, o, c) && !c.pc.Done?
    ensures Legal(s, o, Failed(s.calls[o], late), f)
  {
    OverLegal(s, o, Errored, f);
  }
}
