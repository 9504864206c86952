/**
 * What a call's `expect` does: the revision it names is the only slot value the call may commit from, and a
 * slot that is not that value refuses it at its first read.
 */
module TokenDemands {
  import opened Options
  import opened TokenStore
  import opened TokenProtocol
  import opened TokenInvariant
  import opened TokenMoves
  import opened TokenSteps
  import opened TokenRuns
  import opened TokenTheorems
  import opened TokenRevocations

  /** The call named no revision, or named this slot value. */
  predicate Allows(demand: Demand, slot: Option<Slot>) {
    demand.Unconditional? || (demand.At? && demand.raw == slot)
  }

  /* ---- What the slot a call read has to do with its demand ------------------------------------ */

  /** An adoption that has read its slot and not yet recorded anything. */
  predicate PastSlot(pc: Pc) {
    pc.AResume? || pc.ALookup? || pc.ACarry? || pc.ACarryRec? || pc.AClaimW? || pc.AReclaim?
  }

  /** The call goes on only from a slot its demand allows, and reports `slot_changed` only if it named one. */
  predicate Keeping(c: Call) {
    var keeping :=
      match c.kind
      case Rotate => c.minted ==> Allows(c.demand, c.raw)
      case Adopt => c.minted || PastSlot(c.pc) ==> Allows(c.demand, c.raw)
      case Revoke =>
        && (c.raw.Some? ==> Allows(c.demand, c.raw))
        && (c.raw.None? && c.pc.Done? && c.pc.out.Ok? ==> Allows(c.demand, c.pc.out.view))
      case Authorize => true;
    keeping
  }

  /** A call that recorded something keeps the slot it read. */
  lemma MintedKeeping(c: Call, d: Call)
    requires Same(c, d) && c.minted && Keeping(c) && (c.kind.Rotate? || c.kind.Adopt?)
    ensures Keeping(d)
  {
  }

  lemma RotateKeeping(c: Call, kv: Kv, f: Fresh)
    requires c.kind.Rotate? && !c.minted && c.pc == RRead
    ensures Keeping(Moved(RotateStep(c, kv, f)))
  {
  }

  lemma RotateFailsKeeping(c: Call, late: bool)
    requires c.kind.Rotate? && !c.minted && c.pc == RRead
    ensures Keeping(Moved(RotateFailed(c, late)))
  {
  }

  lemma SlotKeeping(c: Call, kv: Kv, order: seq<Agent>, f: Fresh)
    requires c.kind.Adopt? && !c.minted && c.pc == ASlot
    ensures Keeping(Moved(AdoptStep(c, kv, order, f)))
  {
  }

  lemma BeforeSlotKeeping(c: Call, kv: Kv, order: seq<Agent>, f: Fresh)
    requires c.kind.Adopt? && !c.minted && (c.pc == ARead || c.pc == AClaim)
    ensures Keeping(Moved(AdoptStep(c, kv, order, f)))
  {
  }

  lemma PastSlotKeeping(c: Call, kv: Kv, order: seq<Agent>, f: Fresh)
    requires c.kind.Adopt? && !c.minted && Early(c.pc) && PastSlot(c.pc) && Keeping(c)
    ensures Keeping(Moved(AdoptStep(c, kv, order, f)))
  {
    KeepsSlot(c, kv, order, f);
  }

  /** Once it has read its slot, an adoption keeps what it read. */
  lemma KeepsSlot(c: Call, kv: Kv, order: seq<Agent>, f: Fresh)
    requires Early(c.pc) && PastSlot(c.pc)
    ensures var d := Moved(AdoptStep(c, kv, order, f)); d.kind == c.kind && d.demand == c.demand && d.raw == c.raw
  {
    match c.pc
    case AResume(_, _) => ResumeKeeps(c, kv, order, f);
    case ALookup => LookupKeeps(c, kv, order, f);
    case ACarry(_) => CarryKeeps(c, kv, order, f);
    case ACarryRec(_, _) => CarryRecKeeps(c, kv, order, f);
    case AReclaim => ReclaimKeeps(c, kv, order, f);
  }

  lemma ResumeKeeps(c: Call, kv: Kv, order: seq<Agent>, f: Fresh)
    requires c.pc.AResume?
    ensures var d := Moved(AdoptStep(c, kv, order, f)); d.kind == c.kind && d.demand == c.demand && d.raw == c.raw
  {
  }

  lemma LookupKeeps(c: Call, kv: Kv, order: seq<Agent>, f: Fresh)
    requires c.pc.ALookup?
    ensures var d := Moved(AdoptStep(c, kv, order, f)); d.kind == c.kind && d.demand == c.demand && d.raw == c.raw
  {
  }

  lemma CarryKeeps(c: Call, kv: Kv, order: seq<Agent>, f: Fresh)
    requires c.pc.ACarry?
    ensures var d := Moved(AdoptStep(c, kv, order, f)); d.kind == c.kind && d.demand == c.demand && d.raw == c.raw
  {
  }

  lemma CarryRecKeeps(c: Call, kv: Kv, order: seq<Agent>, f: Fresh)
    requires c.pc.ACarryRec?
    ensures var d := Moved(AdoptStep(c, kv, order, f)); d.kind == c.kind && d.demand == c.demand && d.raw == c.raw
  {
  }

  lemma ReclaimKeeps(c: Call, kv: Kv, order: seq<Agent>, f: Fresh)
    requires c.pc.AReclaim?
    ensures var d := Moved(AdoptStep(c, kv, order, f)); d.kind == c.kind && d.demand == c.demand && d.raw == c.raw
  {
  }

  /** An adoption resumed without recording anything of its own proposes nothing. */
  lemma ResumedKeeping(c: Call, kv: Kv, f: Fresh)
    requires c.kind.Adopt? && !c.minted && c.pc.AComplete?
    ensures Keeping(Moved(AdoptEnd(c, kv, f)))
  {
  }

  lemma AdoptHearsKeeping(c: Call, won: bool, f: Fresh)
    requires c.kind.Adopt? && !c.minted && (c.pc.AClaimW? || c.pc.AMoveW?) && Keeping(c)
    ensures Keeping(Moved(AdoptHears(c, won, f)))
  {
  }

  lemma AdoptFailsKeeping(c: Call, late: bool)
    requires c.kind.Adopt? && !c.minted && (Early(c.pc) || c.pc.AClaimW? || c.pc.AComplete? || c.pc.AMoveW?)
    ensures Keeping(Moved(AdoptFailed(c, late)))
  {
  }

  lemma RevokeKeeping(c: Call, kv: Kv, f: Fresh)
    requires c.kind.Revoke? && Keeping(c) && !c.pc.Done?
    requires if c.pc.VRead? then c.raw == None else c.raw.Some?
    ensures Keeping(Moved(RevokeStep(c, kv, f)))
  {
    if c.pc.VRead? { FirstKeeping(c, kv, f); } else { RaisedKeeping(c, kv, f); }
  }

  lemma FirstKeeping(c: Call, kv: Kv, f: Fresh)
    requires c.kind.Revoke? && c.pc.VRead? && c.raw == None
    ensures Keeping(Moved(RevokeStep(c, kv, f)))
  {
    ReadStep(c, kv, f);
  }

  lemma RaisedKeeping(c: Call, kv: Kv, f: Fresh)
    requires c.kind.Revoke? && Keeping(c) && c.raw.Some? && !c.pc.VRead? && !c.pc.Done?
    ensures Keeping(Moved(RevokeStep(c, kv, f)))
  {
    StepFollows(c, kv, f);
    RawStays(c, kv, f);
  }

  lemma RawStays(c: Call, kv: Kv, f: Fresh)
    requires c.kind.Revoke? && !c.pc.VRead?
    ensures Moved(RevokeStep(c, kv, f)).raw == c.raw
  {
  }

  lemma RevokeHearsKeeping(c: Call, won: bool, f: Fresh)
    requires c.kind.Revoke? && Keeping(c) && c.raw.Some?
    ensures Keeping(Moved(RevokeHears(c, won, f)))
  {
    HearsKeeps(c, won, f);
  }

  lemma RevokeFailsKeeping(c: Call, late: bool)
    requires c.kind.Revoke? && Keeping(c) && !c.pc.Done?
    ensures Keeping(Moved(RevokeFailed(c, late)))
  {
    FailedKeeps(c, late);
    NeverOkByFailing(c, late);
  }

  lemma NeverOkByFailing(c: Call, late: bool)
    requires c.kind.Revoke? && !c.pc.Done?
    ensures RevokeFailed(c, late).Go?
    ensures var pc := RevokeFailed(c, late).call.pc; pc.Done? ==> !pc.out.Ok?
  {
  }

  /* ---- Steps ---------------------------------------------------------------------------------- */

  lemma RevokeMoverKeeping(s: State, e: Event, o: nat)
    requires Enabled(s, e) && Moves(e) && Mover(e) == o && o in s.calls && s.calls[o].kind.Revoke?
    requires RevokeStands(s, o, s.calls[o]) && Keeping(s.calls[o])
    ensures o in Apply(s, e).calls && Keeping(Apply(s, e).calls[o])
  {
    var c := s.calls[o];
    MovedTo(s, e, o);
    RevokePlaces(s, o, c);
    if e.Step? { RevokeKeeping(c, s.kv, e.f); }
    else if e.Reply? { RevokeHearsKeeping(c, Takes(s.kv, e.req.w), e.f); }
    else { RevokeFailsKeeping(c, e.late); }
  }

  /** Past its first read, a revocation holds the issued slot it read. */
  lemma RevokePlaces(s: State, o: nat, c: Call)
    requires c.kind.Revoke? && RevokeStands(s, o, c) && !c.pc.Done?
    ensures if c.pc.VRead? then c.raw == None else c.raw.Some?
  {
  }

  lemma MintedMoverKeeping(s: State, e: Event, o: nat)
    requires Inv(s) && Enabled(s, e) && Moves(e) && Mover(e) == o && o in s.calls
    requires (s.calls[o].kind.Rotate? || s.calls[o].kind.Adopt?) && s.calls[o].minted && Keeping(s.calls[o])
    ensures o in Apply(s, e).calls && Keeping(Apply(s, e).calls[o])
  {
    EventLegal(s, e);
    MoverAt(s, e);
    MintedKeeping(s.calls[o], Moved(MoveOf(s, e)));
  }

  lemma RotatePlaces(s: State, o: nat, c: Call)
    requires c.kind.Rotate? && RotateStands(s, o, c) && !c.pc.Done? && !c.minted
    ensures c.pc == RRead
  {
  }

  lemma RotateMoverKeeping(s: State, e: Event, o: nat)
    requires Enabled(s, e) && Moves(e) && Mover(e) == o && o in s.calls && s.calls[o].kind.Rotate?
    requires RotateStands(s, o, s.calls[o]) && !s.calls[o].minted
    ensures o in Apply(s, e).calls && Keeping(Apply(s, e).calls[o])
  {
    var c := s.calls[o];
    RotatePlaces(s, o, c);
    MoverAt(s, e);
    if e.Step? {
      StepOf(c, s.kv, s.order, e.f);
      RotateKeeping(c, s.kv, e.f);
    } else {
      RotateFailsKeeping(c, e.late);
    }
  }

  lemma AdoptPlaces(s: State, o: nat, c: Call)
    requires c.kind.Adopt? && AdoptStands(s, o, c) && !c.pc.Done? && !c.minted
    ensures Early(c.pc) || c.pc.AClaimW? || c.pc.AComplete? || c.pc.AMoveW?
    ensures Waiting(c.pc) <==> c.pc.AClaimW? || c.pc.AMoveW?
  {
  }

  lemma AdoptStepKeeping(c: Call, kv: Kv, order: seq<Agent>, f: Fresh)
    requires c.kind.Adopt? && !c.minted && Keeping(c) && (Early(c.pc) || c.pc.AComplete?)
    ensures Keeping(Moved(if Early(c.pc) then AdoptStep(c, kv, order, f) else AdoptEnd(c, kv, f)))
  {
    if PastSlot(c.pc) { PastSlotKeeping(c, kv, order, f); }
    else if c.pc == ASlot { SlotKeeping(c, kv, order, f); }
    else if c.pc.AComplete? { ResumedKeeping(c, kv, f); }
    else { BeforeSlotKeeping(c, kv, order, f); }
  }

  lemma AdoptMoverKeeping(s: State, e: Event, o: nat)
    requires Enabled(s, e) && Moves(e) && Mover(e) == o && o in s.calls && s.calls[o].kind.Adopt?
    requires AdoptStands(s, o, s.calls[o]) && !s.calls[o].minted && Keeping(s.calls[o])
    ensures o in Apply(s, e).calls && Keeping(Apply(s, e).calls[o])
  {
    var c := s.calls[o];
    AdoptPlaces(s, o, c);
    MoverAt(s, e);
    if e.Step? {
      StepOf(c, s.kv, s.order, e.f);
      AdoptStepKeeping(c, s.kv, s.order, e.f);
    } else if e.Reply? {
      AdoptHearsKeeping(c, Takes(s.kv, e.req.w), e.f);
    } else {
      AdoptFailsKeeping(c, e.late);
    }
  }

  lemma MoverLives(s: State, e: Event)
    requires Enabled(s, e) && Moves(e)
    ensures Mover(e) in s.calls && !s.calls[Mover(e)].pc.Done?
  {
  }

  lemma AuthorizeKeeping(s: State, e: Event, o: nat)
    requires Inv(s) && Enabled(s, e) && o in s.calls && s.calls[o].kind.Authorize?
    ensures o in Apply(s, e).calls && Keeping(Apply(s, e).calls[o])
  {
    KindStays(s, e, o);
  }

  lemma KeepingStep(s: State, e: Event, o: nat)
    requires Inv(s) && Enabled(s, e) && o in s.calls && Keeping(s.calls[o])
    ensures o in Apply(s, e).calls && Keeping(Apply(s, e).calls[o])
  {
    if !Moves(e) || Mover(e) != o {
      OthersStay(s, e, o);
    } else if s.calls[o].kind.Authorize? {
      AuthorizeKeeping(s, e, o);
    } else if s.calls[o].minted && !s.calls[o].kind.Revoke? {
      MintedMoverKeeping(s, e, o);
    } else {
      Standing(s, o);
      MoverLives(s, e);
      match s.calls[o].kind
      case Rotate => RotateMoverKeeping(s, e, o);
      case Revoke => RevokeMoverKeeping(s, e, o);
      case Adopt => AdoptMoverKeeping(s, e, o);
    }
  }

  lemma NewKeeping(s: State, e: Event, o: nat)
    requires Enabled(s, e) && o !in s.calls && o in Apply(s, e).calls
    ensures Keeping(Apply(s, e).calls[o])
  {
  }

  lemma {:induction false} RunKeeping(run: Run, i: nat, o: nat)
    requires ValidRun(run) && i < |run.states| && o in run.states[i].calls
    ensures Keeping(run.states[i].calls[o])
  {
    if i > 0 {
      KeepingAt(run, i - 1, o) by { if o in run.states[i - 1].calls { RunKeeping(run, i - 1, o); } }
    }
  }

  lemma KeepingAt(run: Run, i: nat, o: nat)
    requires ValidRun(run) && i < |run.events| && o in run.states[i + 1].calls
    requires o in run.states[i].calls ==> Keeping(run.states[i].calls[o])
    ensures Keeping(run.states[i + 1].calls[o])
  {
    RunInv(run, i);
    if o in run.states[i].calls { KeepingStep(run.states[i], run.events[i], o); } else { NewKeeping(run.states[i], run.events[i], o); }
  }

  /* ---- Runs ------------------------------------------------------------------------------------ */

  /** The swap issues a record, or revokes for a revocation: what a demand speaks about. */
  predicate Demanding(c: Call, k: Commit) { k.becomes.Issued? || c.kind.Revoke? }

  lemma LoggedAsDemanded(s: State, k: Commit)
    requires Shapes(s) && Log(s) && k in s.log && k.op in s.calls && Keeping(s.calls[k.op]) && Demanding(s.calls[k.op], k)
    ensures Allows(s.calls[k.op].demand, k.was)
  {
    assert Logged(s, k);
    Shape(s, k.op);
  }

  /**
   * Every slot swap of a rotation, an adoption or a revocation starts from exactly the slot value its call
   * named, if it named one; a call whose revision matches nothing commits nothing.
   */
  lemma CommitsAsDemanded(run: Run, j: nat, n: nat, k: Commit)
    requires ValidRun(run) && CommitAt(run, j, k) && j < n < |run.states|
    ensures k.op in run.states[n].calls
    ensures Demanding(run.states[n].calls[k.op], k) ==> Allows(run.states[n].calls[k.op].demand, k.was)
  {
    HappenedLogged(run, j, n, k);
    RunFlight(run, n);
    LoggedCaller(run.states[n], k);
    RunKeeping(run, n, k.op);
    if Demanding(run.states[n].calls[k.op], k) { LoggedAsDemanded(run.states[n], k); }
  }

  lemma LoggedCaller(s: State, k: Commit)
    requires Log(s) && k in s.log
    ensures k.op in s.calls
  {
    assert Logged(s, k);
  }

  /** A revocation succeeds only from the slot it named: by its own swap from it, or because it found it vacant or revoked. */
  lemma RevokedAsDemanded(run: Run, i: nat, o: nat)
    requires ValidRun(run) && i < |run.states| && o in run.states[i].calls && run.states[i].calls[o].kind.Revoke?
    requires run.states[i].calls[o].pc.Done? && run.states[i].calls[o].pc.out.Ok?
    requires !run.states[i].calls[o].demand.Unconditional?
    ensures var c := run.states[i].calls[o];
      && c.demand.At?
      && (|| c.demand.raw == c.pc.out.view
          || (c.pc.out.view.Some? && c.demand.raw.Some? && c.demand.raw.value.Issued?
              && exists j :: 0 <= j < i && CommitAt(run, j, Commit(c.agent, c.demand.raw, c.pc.out.view.value, o))))
  {
    RunKeeping(run, i, o);
    if run.states[i].calls[o].raw.Some? {
      ConditionalRevocation(run, i, o);
      var c := run.states[i].calls[o];
      var k := Commit(c.agent, c.raw, c.pc.out.view.value, o);
      var j :| 0 <= j < i && CommitAt(run, j, k);
      HappenedLogged(run, j, i, k);
      RunFlight(run, i);
      RevokesFromRaw(run.states[i], k);
    }
  }

  /** The step at which a call first reads its agent's slot. */
  predicate ReadsSlotAt(run: Run, i: nat, o: nat) {
    && ReadAt(run, i, o) && |run.states| == |run.events| + 1
    && (run.states[i].calls[o].pc == RRead || run.states[i].calls[o].pc == VRead || run.states[i].calls[o].pc == ASlot)
  }

  lemma RotateFirst(c: Call, kv: Kv, f: Fresh)
    requires c.kind.Rotate? && c.pc == RRead
    ensures Moved(RotateStep(c, kv, f)).pc == Done(SlotChanged) <==> !Allows(c.demand, SlotOf(kv, c.agent))
  {
  }

  lemma RevokeFirst(c: Call, kv: Kv, f: Fresh)
    requires c.kind.Revoke? && c.pc == VRead
    ensures Moved(RevokeStep(c, kv, f)).pc == Done(SlotChanged) <==> !Allows(c.demand, SlotOf(kv, c.agent))
  {
    ReadStep(c, kv, f);
  }

  lemma AdoptFirst(c: Call, kv: Kv, order: seq<Agent>, f: Fresh)
    requires c.kind.Adopt? && c.pc == ASlot
    ensures Moved(AdoptStep(c, kv, order, f)).pc == Done(SlotChanged) <==> !Allows(c.demand, SlotOf(kv, c.agent))
  {
  }

  lemma FirstStands(s: State, o: nat)
    requires o in s.calls && Stands(s, o, s.calls[o])
    ensures s.calls[o].pc == RRead ==> s.calls[o].kind.Rotate?
    ensures s.calls[o].pc == VRead ==> s.calls[o].kind.Revoke?
    ensures s.calls[o].pc == ASlot ==> s.calls[o].kind.Adopt?
  {
  }

  /** The first read of the slot refuses the call exactly when the call named a slot value and this is not it. */
  lemma FirstReadRefuses(run: Run, i: nat, o: nat)
    requires ValidRun(run) && ReadsSlotAt(run, i, o)
    ensures o in run.states[i + 1].calls
    ensures var c := run.states[i].calls[o];
      run.states[i + 1].calls[o].pc == Done(SlotChanged) <==> !Allows(c.demand, SlotOf(run.states[i].kv, c.agent))
  {
    var s, e := run.states[i], run.events[i];
    RunInv(run, i);
    Standing(s, o);
    FirstStands(s, o);
    FirstReadAt(s, e, o);
  }

  lemma FirstReadAt(s: State, e: Event, o: nat)
    requires Enabled(s, e) && e.Step? && e.op == o && o in s.calls
    requires (s.calls[o].kind.Rotate? && s.calls[o].pc == RRead) || (s.calls[o].kind.Revoke? && s.calls[o].pc == VRead)
             || (s.calls[o].kind.Adopt? && s.calls[o].pc == ASlot)
    ensures o in Apply(s, e).calls
    ensures Apply(s, e).calls[o].pc == Done(SlotChanged) <==> !Allows(s.calls[o].demand, SlotOf(s.kv, s.calls[o].agent))
  {
    var c := s.calls[o];
    MoverAt(s, e);
    StepOf(c, s.kv, s.order, e.f);
    match c.kind
    case Rotate => RotateFirst(c, s.kv, e.f);
    case Revoke => RevokeFirst(c, s.kv, e.f);
    case Adopt => AdoptFirst(c, s.kv, s.order, e.f);
  }

  /** A reported rotation took its agent's slot to the new secret, from the slot value it named if it named one. */
  lemma RotatedAsDemanded(run: Run, i: nat, o: nat) returns (was: Option<Slot>)
    requires ValidRun(run) && i < |run.states| && o in run.states[i].calls && run.states[i].calls[o].kind.Rotate?
    requires run.states[i].calls[o].pc.Done? && run.states[i].calls[o].pc.out.Ok?
    ensures var c := run.states[i].calls[o];
      Allows(c.demand, was) && exists j :: 0 <= j < i && CommitAt(run, j, Commit(c.agent, was, Next(c), o))
  {
    RotationReported(run, i, o);
    var c := run.states[i].calls[o];
    was := c.raw;
    var j :| 0 <= j < i && CommitAt(run, j, Win(c, o));
    CommitsAsDemanded(run, j, i, Win(c, o));
  }
}
