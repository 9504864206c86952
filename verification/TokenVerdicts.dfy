/**
 * Why a token call ends as it does, and that it gets there: the exact verdict of an authorization, what
 * makes a rotation, a revocation or an adoption stop short, and the progress of every call.
 */
module TokenVerdicts {
  import opened Options
  import opened TokenStore
  import opened TokenProtocol
  import opened TokenInvariant
  import opened TokenMoves
  import opened TokenLanding
  import opened TokenSteps
  import opened TokenAdoptSteps
  import opened TokenRuns
  import opened TokenTheorems
  import opened TokenRevocations
  import opened TokenDemands

  /* ---- Authorization --------------------------------------------------------------------------- */

  /** Whether this read of an authorization goes on, and with what. */
  ghost predicate Judged(s: State, c: Call, pc: Pc) {
    var judged :=
      match c.pc
      case ULook =>
        pc == (if c.tok.digest in s.kv.lookups then URec(s.kv.lookups[c.tok.digest]) else Done(Refused))
      case URec(id) =>
        pc == (if id in s.kv.records && Presentable(s.kv.records[id], id, c.tok, s.order)
               then USlot(s.kv.records[id]) else Done(Refused))
      case USlot(_) =>
        && (forall a :: pc == Done(Admitted(a)) <==> Admits(s.kv, s.order, c.tok, a))
        && (pc == Done(Refused) <==> !AdmitsAny(s.kv, s.order, c.tok))
      case _ => false;
    judged
  }

  lemma AdmitsOne(kv: Kv, order: seq<Agent>, tok: Token, a: Agent, b: Agent)
    requires Admits(kv, order, tok, a) && Admits(kv, order, tok, b)
    ensures a == b
  {
  }

  lemma SlotJudged(s: State, o: nat, c: Call)
    requires Core(s) && c.kind.Authorize? && c.pc.USlot? && AuthorizeStands(s, o, c)
    ensures Judged(s, c, Authorized(c, s.kv, s.order).call.pc)
  {
    var pc := Authorized(c, s.kv, s.order).call.pc;
    SlotEnds(c, s.kv, s.order);
    if pc == Done(Refused) {
      RefusesAtSlot(s, o, c);
    } else {
      AdmitsAtSlotRead(s, o, c, pc.out.agent);
      forall a ensures pc == Done(Admitted(a)) <==> Admits(s.kv, s.order, c.tok, a) {
        if Admits(s.kv, s.order, c.tok, a) { AdmitsOne(s.kv, s.order, c.tok, a, pc.out.agent); }
      }
    }
  }

  lemma SlotEnds(c: Call, kv: Kv, order: seq<Agent>)
    requires c.pc.USlot?
    ensures Authorized(c, kv, order).Go?
    ensures var pc := Authorized(c, kv, order).call.pc; pc == Done(Refused) || (pc.Done? && pc.out.Admitted?)
  {
  }

  lemma EarlyJudged(s: State, c: Call)
    requires c.pc.ULook? || c.pc.URec?
    ensures Judged(s, c, Authorized(c, s.kv, s.order).call.pc)
  {
  }

  lemma StandsAsking(s: State, o: nat, c: Call)
    requires c.kind.Authorize? && AuthorizeStands(s, o, c) && !c.pc.Done?
    ensures c.pc.ULook? || c.pc.URec? || c.pc.USlot?
  {
  }

  lemma JudgedAlike(s: State, c: Call, b: Call, pc: Pc)
    requires b == c.(denied := b.denied) && Judged(s, b, pc)
    ensures Judged(s, c, pc)
  {
  }

  lemma AuthorizationJudged(s: State, o: nat, f: Fresh)
    requires Core(s) && Enabled(s, Step(o, f)) && s.calls[o].kind.Authorize? && AuthorizeStands(s, o, s.calls[o])
    ensures o in Apply(s, Step(o, f)).calls && Judged(s, s.calls[o], Apply(s, Step(o, f)).calls[o].pc)
  {
    var c, b := s.calls[o], Observe(s.calls[o], s.kv, s.order);
    AuthMoves(s, o, f);
    AuthGoes(b, s.kv, s.order);
    ObservedStands(s, o, c);
    StandsAsking(s, o, b);
    if b.pc.USlot? { SlotJudged(s, o, b); } else { EarlyJudged(s, b); }
    JudgedAlike(s, c, b, Authorized(b, s.kv, s.order).call.pc);
  }

  /**
   * Every read of an authorization, in every run: the lookup and the record it names are followed exactly when
   * they can be, and the last read admits exactly the agent the store admits at that instant, or refuses.
   */
  lemma AuthorizeVerdict(run: Run, i: nat, o: nat)
    requires ValidRun(run) && ReadAt(run, i, o) && run.states[i].calls[o].kind.Authorize?
    ensures |run.states| == |run.events| + 1 && o in run.states[i + 1].calls
    ensures Judged(run.states[i], run.states[i].calls[o], run.states[i + 1].calls[o].pc)
  {
    RunInv(run, i);
    Standing(run.states[i], o);
    AuthorizationJudged(run.states[i], o, run.events[i].f);
  }

  /* ---- Digests ---------------------------------------------------------------------------------- */

  /** The digest of a secret whose call has written nothing yet is in no lookup. */
  predicate Untaken(s: State, o: nat) {
    o in s.calls && s.calls[o].kind.Rotate? && s.calls[o].minted && s.calls[o].sent == 0 ==>
      s.calls[o].mine.hash !in s.kv.lookups
  }

  lemma LookupAppears(kv: Kv, w: Write, d: Digest)
    requires d !in kv.lookups && d in Landed(kv, w).lookups
    ensures w.PutLookup? && w.hash == d
  {
  }

  /** Only its own call writes the lookup of a minted digest. */
  lemma OwnLookup(s: State, r: Req, o: nat)
    requires Base(s) && Shapes(s) && Flight(s) && r in s.flight && r.w.PutLookup?
    requires o in s.calls && s.calls[o].kind.Rotate? && s.calls[o].minted && r.w.hash == s.calls[o].mine.hash
    ensures r.op == o && s.calls[o].sent > 0
  {
    assert Justified(s, r);
    Shape(s, o);
    Shape(s, r.op);
  }

  lemma LandsUntaken(s: State, r: Req, o: nat)
    requires Base(s) && Shapes(s) && Flight(s) && r in s.flight && Untaken(s, o)
    ensures Untaken(Deliver(s, r), o)
  {
    if o in s.calls && s.calls[o].kind.Rotate? && s.calls[o].minted && s.calls[o].sent == 0 {
      var d := s.calls[o].mine.hash;
      if d in Landed(s.kv, r.w).lookups {
        LookupAppears(s.kv, r.w, d);
        OwnLookup(s, r, o);
      }
    }
  }

  /** A fresh digest is in no lookup. */
  lemma FreshUntaken(s: State, f: Fresh)
    requires Base(s) && Shapes(s) && Lookups(s) && Unused(s, f)
    ensures f.digest !in s.kv.lookups
  {
    if f.digest in s.kv.lookups && Minted(s, s.kv.lookups[f.digest]) { Shape(s, s.owner[s.kv.lookups[f.digest]]); }
  }

  lemma MintsFresh(c: Call, kv: Kv, f: Fresh)
    requires c.kind.Rotate? && !c.minted
    ensures var d := Moved(RotateStep(c, kv, f)); d.minted ==> d.mine.hash == f.digest
  {
  }

  lemma RotateMintsByReading(s: State, e: Event, o: nat)
    requires Enabled(s, e) && Moves(e) && Mover(e) == o && o in s.calls && s.calls[o].kind.Rotate? && !s.calls[o].minted
    requires RotateStands(s, o, s.calls[o])
    requires o in Apply(s, e).calls && Apply(s, e).calls[o].minted
    ensures e.Step? && Apply(s, e).calls[o].mine.hash == e.f.digest
  {
    var c := s.calls[o];
    RotatePlaces(s, o, c);
    MoverAt(s, e);
    if e.Step? {
      StepOf(c, s.kv, s.order, e.f);
      MintsFresh(c, s.kv, e.f);
    }
  }

  lemma MoverUntaken(s: State, e: Event, o: nat)
    requires Inv(s) && Enabled(s, e) && Moves(e) && Mover(e) == o && o in s.calls && s.calls[o].kind.Rotate? && Untaken(s, o)
    ensures Untaken(Apply(s, e), o)
  {
    StoreChange(s, e);
    MoverAt(s, e);
    if s.calls[o].minted {
      EventLegal(s, e);
      if e.Reply? { LandsUntaken(s, e.req, o); }
    } else if Apply(s, e).calls[o].minted {
      Standing(s, o);
      RotateMintsByReading(s, e, o);
      FreshUntaken(s, e.f);
    }
  }

  lemma UntakenStep(s: State, e: Event, o: nat)
    requires Inv(s) && Enabled(s, e) && Untaken(s, o)
    ensures Untaken(Apply(s, e), o)
  {
    if o !in s.calls {
      if o in Apply(s, e).calls { NewIsBare(s, e, o); }
    } else {
      KindStays(s, e, o);
      if s.calls[o].kind.Rotate? {
        if Moves(e) && Mover(e) == o {
          MoverUntaken(s, e, o);
        } else {
          OthersStay(s, e, o);
          StoreChange(s, e);
          if e.Reply? || e.Land? { LandsUntaken(s, e.req, o); }
        }
      }
    }
  }

  lemma NewIsBare(s: State, e: Event, o: nat)
    requires Enabled(s, e) && o !in s.calls && o in Apply(s, e).calls
    ensures var c := Apply(s, e).calls[o];
      !c.minted && c.cast == None && c.pc == Start(c.kind) && c.sent == 0 && c.raw == None
  {
  }

  lemma {:induction false} RunUntaken(run: Run, i: nat, o: nat)
    requires ValidRun(run) && i < |run.states|
    ensures Untaken(run.states[i], o)
  {
    if i > 0 {
      RunUntaken(run, i - 1, o);
      UntakenAt(run, i - 1, o);
    }
  }

  lemma UntakenAt(run: Run, i: nat, o: nat)
    requires ValidRun(run) && i < |run.events| && Untaken(run.states[i], o)
    ensures Untaken(run.states[i + 1], o)
  {
    RunInv(run, i);
    UntakenStep(run.states[i], run.events[i], o);
  }

  /* ---- Causes ------------------------------------------------------------------------------------ */

  /** The call has ended with this outcome, or will once it has removed its own record and lookup. */
  predicate Ends(pc: Pc, out: Outcome) { pc == Done(out) || pc == DropLkW(Done(out)) || pc == DropRecW(Done(out)) }

  /** A rotation stops short only because its request ended, or another's swap came between. */
  predicate RotateCaused(c: Call) {
    var caused :=
      && (c.pc.URead? || c.pc.USwapW? || Ends(c.pc, Aborted) ==> c.gone)
      && (Ends(c.pc, Conflict) ==> c.demand.Unconditional? && c.cast.Some?)
      && (Ends(c.pc, SlotChanged) ==> !c.demand.Unconditional? && (c.minted ==> c.cast.Some?))
      && !Ends(c.pc, NotAdoptable);
    caused
  }

  predicate RevokeCaused(c: Call) {
    var caused :=
      && (c.pc == Done(Aborted) ==> c.gone) && (c.pc == Done(SlotChanged) ==> !c.demand.Unconditional?)
      && c.pc != Done(Conflict) && c.pc != Done(NotAdoptable);
    caused
  }

  /** An adoption that lost its swap looks again whether its agent has adopted the secret by another call. */
  predicate Looking(pc: Pc) { pc.AReread? || pc.AReRec? || pc == DropRecW(AReread) }

  predicate AdoptCaused(c: Call) {
    var caused :=
      && (Ends(c.pc, Aborted) ==> c.gone)
      && (Looking(c.pc) || Ends(c.pc, Conflict) ==> c.demand.Unconditional? && c.cast.Some?)
      && (Ends(c.pc, SlotChanged) ==> !c.demand.Unconditional? && (c.minted ==> c.cast.Some?))
      && (Ends(c.pc, NotAdoptable) ==> !c.minted);
    caused
  }

  predicate Caused(c: Call) {
    match c.kind
    case Rotate => RotateCaused(c)
    case Revoke => RevokeCaused(c)
    case Adopt => AdoptCaused(c)
    case Authorize => true
  }

  /* ---- Where a call goes --------------------------------------------------------------------------- */

  /** What no step of a call changes, and what only its minting step does. */
  predicate Onto(c: Call, d: Call) {
    && d.kind == c.kind && d.gone == c.gone && d.demand == c.demand && (c.minted ==> d.minted)
    && (c.cast.Some? ==> d.cast.Some?) && (d.minted ==> c.minted || d.pc.RProbe? || d.pc.ARecW?)
  }

  /** Where a removal of the call's own record leads. */
  predicate Dropped(c: Call, pc: Pc) {
    if c.pc.DropRecW? && c.pc.next.Quit? then pc == Done(CutShort(c)) else c.pc.DropRecW? && pc == c.pc.next
  }

  predicate RotateTo(c: Call, pc: Pc) {
    match c.pc
    case RRead => pc == RProbe || (pc == Done(SlotChanged) && !c.demand.Unconditional?)
    case RProbe => pc == RRecW || (pc == DropLkW(Done(Aborted)) && c.gone)
    case RRecW => pc == RLkW
    case RLkW => pc == RCommitW || (pc == DropLkW(Done(Aborted)) && c.gone)
    case RCommitW =>
      || (pc == URead && c.gone) || (pc.Done? && (pc.out.Ok? || pc.out.Unknown?))
      || pc == DropLkW(Done(if c.demand.Unconditional? then Conflict else SlotChanged))
    case RNames => (pc == URead && c.gone) || (pc.Done? && (pc.out.Ok? || pc.out.Unknown? || pc.out.Errored?))
    case URead => pc == USwapW || pc == Done(Aborted)
    case USwapW => pc == URead || pc == Done(Aborted)
    case DropLkW(next) => pc == DropRecW(next)
    case _ => Dropped(c, pc)
  }

  predicate RotateFailsTo(c: Call, pc: Pc) {
    match c.pc
    case RRead => pc == Done(CutShort(c)) || pc == Done(Errored)
    case RProbe | RRecW | RLkW => pc == DropLkW(Quit) || pc == DropLkW(Done(Errored))
    case RCommitW | RNames => pc == Done(Unknown) || pc == RNames
    case URead | USwapW => pc == Done(Unknown) || pc == URead
    case DropLkW(next) => pc == DropRecW(next)
    case _ => Dropped(c, pc)
  }

  predicate RevokeTo(c: Call, pc: Pc) {
    match c.pc
    case VRead =>
      || pc == VSwapW || (pc.Done? && (pc.out.Ok? || pc.out.Unknown?))
      || (pc == Done(SlotChanged) && !c.demand.Unconditional?) || (pc == Done(Aborted) && c.gone)
    case VSwapW =>
      || (pc == VLoop && c.demand.Unconditional?) || (pc.Done? && (pc.out.Ok? || pc.out.Unknown?))
      || (pc == Done(SlotChanged) && !c.demand.Unconditional?)
    case VLoop => pc == VLoopW || (pc.Done? && (pc.out.Ok? || pc.out.Unknown?))
    case VLoopW => pc == VLoop || (pc.Done? && (pc.out.Ok? || pc.out.Unknown?))
    case VSettle => pc == VSettleW || pc == Done(SlotChanged) || (pc.Done? && (pc.out.Ok? || pc.out.Unknown?))
    case VSettleW => pc == VSettle || (pc.Done? && (pc.out.Ok? || pc.out.Unknown?))
    case _ => false
  }

  predicate RevokeFailsTo(c: Call, pc: Pc) {
    match c.pc
    case VRead => pc == Done(CutShort(c)) || pc == Done(Errored)
    case VSwapW => pc == Done(Unknown) || pc == (if c.demand.Unconditional? then VLoop else VSettle)
    case VLoop | VLoopW => pc == Done(Unknown) || pc == VLoop
    case VSettle | VSettleW => pc == Done(Unknown) || pc == VSettle
    case _ => false
  }

  predicate EarlyTo(c: Call, pc: Pc, n: nat) {
    match c.pc
    case ARead => pc == AClaim || pc == Done(NotAdoptable) || pc == Done(Errored)
    case AClaim => pc == ASlot || pc == Done(NotAdoptable)
    case ASlot =>
      || pc.AResume? || pc == ALookup || pc == Done(NotAdoptable) || (pc == Done(SlotChanged) && !c.demand.Unconditional?)
    case AResume(t, since) => pc == AComplete(t, since) || pc == Done(NotAdoptable)
    case ALookup => pc == ACarry(0) || pc == Done(NotAdoptable)
    case ACarry(i) =>
      || (i < n && (pc == ACarry(i + 1) || (pc.ACarryRec? && pc.i == i))) || pc == AClaimW || pc == ARecW
      || (pc == Done(Aborted) && c.gone)
    case ACarryRec(i, _) => pc == ACarry(i + 1) || pc == Done(NotAdoptable)
    case AReclaim => pc == ARecW || pc == Done(NotAdoptable)
    case _ => false
  }

  predicate LateTo(c: Call, pc: Pc) {
    match c.pc
    case ANames => pc.AComplete? || pc == Done(Errored)
    case AReread => pc.AReRec? || pc == Done(Conflict)
    case AReRec(_, _) => pc.AComplete? || pc == Done(Conflict)
    case AComplete(_, _) => pc.AMoveW? || pc.ATaken? || (pc.Done? && pc.out.Ok?) || pc == Done(Lapsed(c))
    case AClaimW => pc == ARecW || pc == AReclaim
    case ARecW => pc == ACommitW || (pc == DropRecW(Done(Aborted)) && c.gone)
    case ACommitW => pc.AComplete? || pc == DropRecW(if c.demand.Unconditional? then AReread else Done(SlotChanged))
    case AMoveW(_, _) => pc.AComplete? || (pc.Done? && pc.out.Ok?) || pc == Done(Lapsed(c))
    case _ => Dropped(c, pc)
  }

  predicate AdoptFailsTo(c: Call, pc: Pc) {
    if c.pc.DropRecW? then Dropped(c, pc)
    else if c.pc.ARecW? then pc == DropRecW(Quit) || pc == DropRecW(Done(Errored))
    else if c.pc.ACommitW? || c.pc.ANames? then pc == Done(Unknown) || pc == ANames
    else if c.pc.AComplete? || c.pc.AMoveW? then pc == Done(Lapsed(c)) || pc.AComplete?
    else pc == Done(CutShort(c)) || pc == Done(Unknown) || pc == Done(Errored)
  }

  lemma RotateStepGoes(c: Call, kv: Kv, f: Fresh)
    requires c.kind.Rotate? && !Waiting(c.pc) && !c.pc.Done? && !c.pc.Quit?
    requires c.pc.RRead? || c.pc.RProbe? || c.pc.RNames? || c.pc.URead?
    requires c.pc.RProbe? ==> c.mine.hash !in kv.lookups
    ensures var d := Moved(RotateStep(c, kv, f)); RotateTo(c, d.pc)
  {
  }

  lemma RotateHearsGoes(c: Call, won: bool, f: Fresh)
    requires c.kind.Rotate? && Waiting(c.pc)
    requires c.pc.RRecW? || c.pc.RLkW? || c.pc.RCommitW? || c.pc.USwapW? || c.pc.DropLkW? || c.pc.DropRecW?
    ensures RotateTo(c, Moved(RotateHears(c, won, f)).pc)
  {
  }

  lemma RotateFailedGoes(c: Call, late: bool)
    requires c.kind.Rotate? && !c.pc.Done?
    requires c.pc.RRead? || c.pc.RProbe? || c.pc.RNames? || c.pc.URead?
             || c.pc.RRecW? || c.pc.RLkW? || c.pc.RCommitW? || c.pc.USwapW? || c.pc.DropLkW? || c.pc.DropRecW?
    ensures RotateFailsTo(c, Moved(RotateFailed(c, late)).pc)
  {
  }

  lemma RevokeStepGoes(c: Call, kv: Kv, f: Fresh)
    requires c.kind.Revoke? && (c.pc.VRead? || c.pc.VLoop? || c.pc.VSettle?)
    ensures RevokeTo(c, Moved(RevokeStep(c, kv, f)).pc)
  {
  }

  lemma RevokeHearsGoes(c: Call, won: bool, f: Fresh)
    requires c.kind.Revoke? && (c.pc.VSwapW? || c.pc.VLoopW? || c.pc.VSettleW?)
    ensures RevokeTo(c, Moved(RevokeHears(c, won, f)).pc)
  {
  }

  lemma RevokeFailedGoes(c: Call, late: bool)
    requires c.kind.Revoke? && !c.pc.Done?
    requires c.pc.VRead? || c.pc.VLoop? || c.pc.VSettle? || c.pc.VSwapW? || c.pc.VLoopW? || c.pc.VSettleW?
    ensures RevokeFailsTo(c, Moved(RevokeFailed(c, late)).pc)
  {
  }

  lemma FirstGoes(c: Call, kv: Kv, order: seq<Agent>, f: Fresh)
    requires c.kind.Adopt? && (c.pc.ARead? || c.pc.AClaim? || c.pc.ASlot?)
    ensures EarlyTo(c, Moved(AdoptStep(c, kv, order, f)).pc, |order|)
  {
  }

  lemma NextGoes(c: Call, kv: Kv, order: seq<Agent>, f: Fresh)
    requires c.kind.Adopt? && (c.pc.AResume? || c.pc.ALookup? || c.pc.ACarry? || c.pc.ACarryRec? || c.pc.AReclaim?)
    ensures EarlyTo(c, Moved(AdoptStep(c, kv, order, f)).pc, |order|)
  {
  }

  lemma EarlyGoes(c: Call, kv: Kv, order: seq<Agent>, f: Fresh)
    requires c.kind.Adopt? && Early(c.pc)
    ensures EarlyTo(c, Moved(AdoptStep(c, kv, order, f)).pc, |order|)
  {
    if c.pc.ARead? || c.pc.AClaim? || c.pc.ASlot? { FirstGoes(c, kv, order, f); } else { NextGoes(c, kv, order, f); }
  }

  lemma LateGoes(c: Call, kv: Kv, f: Fresh)
    requires c.kind.Adopt? && (c.pc.ANames? || c.pc.AReread? || c.pc.AReRec? || c.pc.AComplete?)
    ensures LateTo(c, Moved(AdoptEnd(c, kv, f)).pc)
  {
  }

  lemma AdoptHearsGoes(c: Call, won: bool, f: Fresh)
    requires c.kind.Adopt? && (c.pc.AClaimW? || c.pc.ARecW? || c.pc.ACommitW? || c.pc.AMoveW? || c.pc.DropRecW?)
    ensures LateTo(c, Moved(AdoptHears(c, won, f)).pc)
  {
  }

  lemma AdoptFailedGoes(c: Call, late: bool)
    requires c.kind.Adopt? && (c.pc.DropRecW? ==> AfterDrop(c, c.pc.next))
    requires Early(c.pc) || c.pc.ANames? || c.pc.AReread? || c.pc.AReRec? || c.pc.AComplete?
             || c.pc.AClaimW? || c.pc.ARecW? || c.pc.ACommitW? || c.pc.AMoveW? || c.pc.DropRecW?
    ensures AdoptFailsTo(c, Moved(AdoptFailed(c, late)).pc)
  {
  }


  /* ---- One move ---------------------------------------------------------------------------------- */

  lemma RotatePcs(s: State, o: nat, c: Call)
    requires c.kind.Rotate? && RotateStands(s, o, c) && !c.pc.Done?
    ensures Waiting(c.pc) ==>
      c.pc.RRecW? || c.pc.RLkW? || c.pc.RCommitW? || c.pc.USwapW? || c.pc.DropLkW? || c.pc.DropRecW?
    ensures !Waiting(c.pc) ==> c.pc.RRead? || c.pc.RProbe? || c.pc.RNames? || c.pc.URead?
    ensures (c.pc.RCommitW? ==> c.cast.Some?) && (c.pc.RRead? ==> !c.minted) && (!c.pc.RRead? ==> c.minted)
    ensures c.pc.RProbe? ==> c.sent == 0
    ensures c.pc.DropLkW? || c.pc.DropRecW? ==> AfterDrop(c, c.pc.next)
  {
  }

  lemma RotateMoves(s: State, e: Event, o: nat)
    requires Enabled(s, e) && Moves(e) && Mover(e) == o && o in s.calls && s.calls[o].kind.Rotate?
    requires RotateStands(s, o, s.calls[o]) && Untaken(s, o)
    ensures o in Apply(s, e).calls
    ensures var c, pc := s.calls[o], Apply(s, e).calls[o].pc; if e.Fail? then RotateFailsTo(c, pc) else RotateTo(c, pc)
  {
    var c := s.calls[o];
    MoverLives(s, e);
    RotatePcs(s, o, c);
    MoverAt(s, e);
    if e.Step? {
      StepOf(c, s.kv, s.order, e.f);
      RotateStepGoes(c, s.kv, e.f);
    } else if e.Reply? {
      RotateHearsGoes(c, Takes(s.kv, e.req.w), e.f);
    } else {
      RotateFailedGoes(c, e.late);
    }
  }

  lemma RotateCausedOn(c: Call, d: Call)
    requires c.kind.Rotate? && RotateCaused(c) && Onto(c, d) && (RotateTo(c, d.pc) || RotateFailsTo(c, d.pc))
    requires (c.pc.RCommitW? ==> c.cast.Some?) && (c.pc.RRead? ==> !c.minted)
    requires c.pc.DropLkW? || c.pc.DropRecW? ==> AfterDrop(c, c.pc.next)
    ensures RotateCaused(d)
  {
  }

  lemma RevokePcs(s: State, o: nat, c: Call)
    requires c.kind.Revoke? && RevokeStands(s, o, c) && !c.pc.Done?
    ensures Waiting(c.pc) ==> c.pc.VSwapW? || c.pc.VLoopW? || c.pc.VSettleW?
    ensures !Waiting(c.pc) ==> c.pc.VRead? || c.pc.VLoop? || c.pc.VSettle?
    ensures c.pc.VSettle? || c.pc.VSettleW? ==> !c.demand.Unconditional?
  {
  }

  lemma RevokeMoves(s: State, e: Event, o: nat)
    requires Enabled(s, e) && Moves(e) && Mover(e) == o && o in s.calls && s.calls[o].kind.Revoke?
    requires RevokeStands(s, o, s.calls[o])
    ensures o in Apply(s, e).calls
    ensures var c, pc := s.calls[o], Apply(s, e).calls[o].pc; if e.Fail? then RevokeFailsTo(c, pc) else RevokeTo(c, pc)
  {
    var c := s.calls[o];
    MoverLives(s, e);
    RevokePcs(s, o, c);
    MoverAt(s, e);
    if e.Step? {
      StepOf(c, s.kv, s.order, e.f);
      RevokeStepGoes(c, s.kv, e.f);
    } else if e.Reply? {
      RevokeHearsGoes(c, Takes(s.kv, e.req.w), e.f);
    } else {
      RevokeFailedGoes(c, e.late);
    }
  }

  lemma RevokeCausedOn(c: Call, d: Call)
    requires c.kind.Revoke? && RevokeCaused(c) && Onto(c, d) && (RevokeTo(c, d.pc) || RevokeFailsTo(c, d.pc))
    requires c.pc.VSettle? ==> !c.demand.Unconditional?
    ensures RevokeCaused(d)
  {
  }

  lemma AdoptPcs(s: State, o: nat, c: Call)
    requires c.kind.Adopt? && AdoptStands(s, o, c) && !c.pc.Done?
    ensures Waiting(c.pc) ==> c.pc.AClaimW? || c.pc.ARecW? || c.pc.ACommitW? || c.pc.AMoveW? || c.pc.DropRecW?
    ensures !Waiting(c.pc) ==> Early(c.pc) || c.pc.ANames? || c.pc.AReread? || c.pc.AReRec? || c.pc.AComplete?
    ensures (c.pc.ACommitW? ==> c.cast.Some?) && (Early(c.pc) || c.pc.AClaimW? ==> !c.minted)
    ensures c.pc.DropRecW? ==> AfterDrop(c, c.pc.next)
  {
  }

  lemma AdoptMovesOn(s: State, e: Event, o: nat)
    requires Enabled(s, e) && Moves(e) && Mover(e) == o && o in s.calls && s.calls[o].kind.Adopt?
    requires AdoptStands(s, o, s.calls[o])
    ensures o in Apply(s, e).calls
    ensures var c, pc := s.calls[o], Apply(s, e).calls[o].pc;
      if e.Fail? then AdoptFailsTo(c, pc) else if Early(c.pc) then EarlyTo(c, pc, |s.order|) else LateTo(c, pc)
  {
    var c := s.calls[o];
    MoverLives(s, e);
    AdoptPcs(s, o, c);
    MoverAt(s, e);
    if e.Step? {
      StepOf(c, s.kv, s.order, e.f);
      if Early(c.pc) { EarlyGoes(c, s.kv, s.order, e.f); } else { LateGoes(c, s.kv, e.f); }
    } else if e.Reply? {
      AdoptHearsGoes(c, Takes(s.kv, e.req.w), e.f);
    } else {
      AdoptFailedGoes(c, e.late);
    }
  }

  lemma AdoptCausedOn(c: Call, d: Call, n: nat)
    requires c.kind.Adopt? && AdoptCaused(c) && Onto(c, d)
    requires AdoptFailsTo(c, d.pc) || (if Early(c.pc) then EarlyTo(c, d.pc, n) else LateTo(c, d.pc))
    requires (c.pc.ACommitW? ==> c.cast.Some?) && (Early(c.pc) || c.pc.AClaimW? ==> !c.minted)
    requires c.pc.DropRecW? ==> AfterDrop(c, c.pc.next)
    ensures AdoptCaused(d)
  {
  }

  lemma MovedOnto(s: State, e: Event, o: nat)
    requires Inv(s) && Enabled(s, e) && Moves(e) && Mover(e) == o && o in s.calls
    ensures o in Apply(s, e).calls && Onto(s.calls[o], Apply(s, e).calls[o])
  {
    EventSteady(s, e);
    MoverAt(s, e);
    SameOnto(s.calls[o], Moved(MoveOf(s, e)));
  }

  lemma EventSteady(s: State, e: Event)
    requires Inv(s) && Enabled(s, e) && Moves(e)
    ensures Mover(e) in s.calls && Steady(s.calls[Mover(e)], Moved(MoveOf(s, e)))
  {
    EventLegal(s, e);
    MoverLives(s, e);
  }

  lemma SameOnto(c: Call, d: Call)
    requires Steady(c, d)
    ensures Onto(c, d)
  {
  }

  lemma CausedStep(s: State, e: Event, o: nat)
    requires Inv(s) && Enabled(s, e) && o in s.calls && Caused(s.calls[o]) && Untaken(s, o)
    ensures o in Apply(s, e).calls && Caused(Apply(s, e).calls[o])
  {
    var c := s.calls[o];
    if !Moves(e) || Mover(e) != o {
      OthersStay(s, e, o);
      SignalCaused(c, Apply(s, e).calls[o], s, e, o);
    } else {
      MoverLives(s, e);
      Standing(s, o);
      MovedOnto(s, e, o);
      match c.kind
      case Rotate => RotateMoves(s, e, o); RotatePcs(s, o, c); RotateCausedOn(c, Apply(s, e).calls[o]);
      case Revoke => RevokeMoves(s, e, o); RevokePcs(s, o, c); RevokeCausedOn(c, Apply(s, e).calls[o]);
      case Adopt => AdoptMovesOn(s, e, o); AdoptPcs(s, o, c); AdoptCausedOn(c, Apply(s, e).calls[o], |s.order|);
      case Authorize =>
    }
  }

  /** A request that ends stays ended. */
  lemma SignalCaused(c: Call, d: Call, s: State, e: Event, o: nat)
    requires Enabled(s, e) && o in s.calls && c == s.calls[o] && (Moves(e) ==> Mover(e) != o)
    requires o in Apply(s, e).calls && d == Apply(s, e).calls[o] && Caused(c) && d == c.(gone := d.gone)
    ensures Caused(d)
  {
    SignalStays(s, e, o);
  }

  lemma SignalStays(s: State, e: Event, o: nat)
    requires Enabled(s, e) && o in s.calls && (Moves(e) ==> Mover(e) != o)
    ensures o in Apply(s, e).calls && (s.calls[o].gone ==> Apply(s, e).calls[o].gone)
  {
    if Moves(e) { assert Apply(s, e) == Place(Before(s, e), Mover(e), MoveOf(s, e), e.f); }
  }

  lemma CausedAt(run: Run, i: nat, o: nat)
    requires ValidRun(run) && i < |run.events| && o in run.states[i + 1].calls
    requires o in run.states[i].calls ==> Caused(run.states[i].calls[o])
    ensures Caused(run.states[i + 1].calls[o])
  {
    RunInv(run, i);
    RunUntaken(run, i, o);
    CausedNext(run.states[i], run.events[i], o);
  }

  lemma CausedNext(s: State, e: Event, o: nat)
    requires Inv(s) && Enabled(s, e) && Untaken(s, o) && o in Apply(s, e).calls
    requires o in s.calls ==> Caused(s.calls[o])
    ensures Caused(Apply(s, e).calls[o])
  {
    if o in s.calls { CausedStep(s, e, o); } else { NewCaused(s, e, o); }
  }

  lemma NewCaused(s: State, e: Event, o: nat)
    requires Enabled(s, e) && o !in s.calls && o in Apply(s, e).calls
    ensures Caused(Apply(s, e).calls[o])
  {
    NewIsBare(s, e, o);
  }

  /**
   * Why a call stops short, in every run. `aborted` means its request ended. `slot_changed` means it named a
   * slot value, and once it minted a secret it has proposed it. `conflict` means it named none, and has
   * proposed: a minted digest is never found taken.
   */
  lemma {:induction false} OutcomeCaused(run: Run, i: nat, o: nat)
    requires ValidRun(run) && i < |run.states| && o in run.states[i].calls
    ensures Caused(run.states[i].calls[o])
  {
    if i > 0 {
      if o in run.states[i - 1].calls { OutcomeCaused(run, i - 1, o); }
      CausedAt(run, i - 1, o);
    }
  }

  /* ---- Progress ------------------------------------------------------------------------------------ */

  function Stage(pc: Pc): nat {
    match pc
    case RRead => 30 case RProbe => 29 case RRecW => 28 case RLkW => 27 case RCommitW => 26 case RNames => 20
    case URead => 18 case USwapW => 17
    case DropLkW(_) => 15 case DropRecW(_) => 14
    case VRead => 30 case VSwapW => 29 case VLoop => 20 case VLoopW => 19 case VSettle => 20 case VSettleW => 19
    case ARead => 30 case AClaim => 29 case ASlot => 28 case AResume(_, _) => 27 case ALookup => 26
    case ACarry(_) => 25 case ACarryRec(_, _) => 25 case AClaimW => 24 case AReclaim => 23 case ARecW => 22
    case ACommitW => 21 case ANames => 20 case AReread => 13 case AReRec(_, _) => 12
    case AComplete(_, _) => 11 case AMoveW(_, _) => 10 case ATaken => 1
    case ULook => 30 case URec(_) => 29 case USlot(_) => 28
    case Quit => 1 case Done(_) => 0
  }

  /** How many slots an adoption has still to look at. */
  function Left(n: nat, i: nat): nat { if i < n then n - i else 0 }

  function Rest(pc: Pc, n: nat): nat {
    match pc case ACarry(i) => 2 * Left(n, i) + 1 case ACarryRec(i, _) => 2 * Left(n, i + 1) + 2 case _ => 0
  }

  predicate Nearer(pc: Pc, next: Pc, n: nat) { Stage(next) < Stage(pc) || (Stage(next) == Stage(pc) && Rest(next, n) < Rest(pc, n)) }

  lemma RotateNearer(c: Call, pc: Pc, n: nat)
    requires RotateTo(c, pc) && (c.pc.DropRecW? ==> AfterDrop(c, c.pc.next) && c.kind.Rotate?)
    ensures Nearer(c.pc, pc, n) || (c.pc.USwapW? && pc.URead?)
  {
  }

  lemma RevokeNearer(c: Call, pc: Pc, n: nat)
    requires RevokeTo(c, pc)
    ensures Nearer(c.pc, pc, n) || (c.pc.VLoopW? && pc.VLoop?) || (c.pc.VSettleW? && pc.VSettle?)
  {
  }

  lemma LateNearer(c: Call, pc: Pc, n: nat)
    requires LateTo(c, pc) && (c.pc.DropRecW? ==> AfterDrop(c, c.pc.next)) && c.kind.Adopt?
    ensures Nearer(c.pc, pc, n) || (c.pc.AMoveW? && pc.AComplete?)
  {
  }

  lemma EarlyNearer(c: Call, pc: Pc, n: nat)
    requires EarlyTo(c, pc, n)
    ensures Nearer(c.pc, pc, n)
  {
  }

  lemma JudgedNearer(s: State, c: Call, pc: Pc)
    requires Judged(s, c, pc)
    ensures Nearer(c.pc, pc, |s.order|)
  {
    if c.pc.USlot? && AdmitsAny(s.kv, s.order, c.tok) {
      var a :| Admits(s.kv, s.order, c.tok, a);
      assert pc == Done(Admitted(a));
    }
  }

  /** A last compare-and-set that takes effect ends its call. */
  lemma WonEnds(c: Call, f: Fresh)
    requires (c.kind.Rotate? && c.pc.USwapW?) || (c.kind.Revoke? && (c.pc.VLoopW? || c.pc.VSettleW?)) || (c.kind.Adopt? && c.pc.AMoveW?)
    ensures Moved(Answered(c, true, f)).pc.Done?
  {
  }

  predicate HearsNow(s: State, e: Event, o: nat) { e.Reply? && e.req.op == o }

  lemma RotateAdvances(s: State, e: Event, o: nat)
    requires Enabled(s, e) && (HearsNow(s, e, o) || (e.Step? && e.op == o)) && o in s.calls && s.calls[o].kind.Rotate?
    requires RotateStands(s, o, s.calls[o]) && Untaken(s, o)
    ensures o in Apply(s, e).calls
    ensures Nearer(s.calls[o].pc, Apply(s, e).calls[o].pc, |s.order|) || (HearsNow(s, e, o) && !Takes(s.kv, e.req.w))
  {
    MoverLives(s, e);
    RotatePcs(s, o, s.calls[o]);
    RotateMoves(s, e, o);
    RotateNearer(s.calls[o], Apply(s, e).calls[o].pc, |s.order|);
    if s.calls[o].pc.USwapW? {
      MoverAt(s, e);
      WonEnds(s.calls[o], e.f);
    }
  }

  lemma RevokeAdvances(s: State, e: Event, o: nat)
    requires Enabled(s, e) && (HearsNow(s, e, o) || (e.Step? && e.op == o)) && o in s.calls && s.calls[o].kind.Revoke?
    requires RevokeStands(s, o, s.calls[o])
    ensures o in Apply(s, e).calls
    ensures Nearer(s.calls[o].pc, Apply(s, e).calls[o].pc, |s.order|) || (HearsNow(s, e, o) && !Takes(s.kv, e.req.w))
  {
    MoverLives(s, e);
    RevokePcs(s, o, s.calls[o]);
    RevokeMoves(s, e, o);
    RevokeNearer(s.calls[o], Apply(s, e).calls[o].pc, |s.order|);
    if s.calls[o].pc.VLoopW? || s.calls[o].pc.VSettleW? {
      MoverAt(s, e);
      WonEnds(s.calls[o], e.f);
    }
  }

  lemma AdoptAdvances(s: State, e: Event, o: nat)
    requires Enabled(s, e) && (HearsNow(s, e, o) || (e.Step? && e.op == o)) && o in s.calls && s.calls[o].kind.Adopt?
    requires AdoptStands(s, o, s.calls[o])
    ensures o in Apply(s, e).calls
    ensures Nearer(s.calls[o].pc, Apply(s, e).calls[o].pc, |s.order|) || (HearsNow(s, e, o) && !Takes(s.kv, e.req.w))
  {
    var c := s.calls[o];
    MoverLives(s, e);
    AdoptPcs(s, o, c);
    AdoptMovesOn(s, e, o);
    if Early(c.pc) { EarlyNearer(c, Apply(s, e).calls[o].pc, |s.order|); } else { LateNearer(c, Apply(s, e).calls[o].pc, |s.order|); }
    if c.pc.AMoveW? {
      MoverAt(s, e);
      WonEnds(c, e.f);
    }
  }

  /** Step `i` of the run is a step of the call, or an answer it hears. */
  predicate MovesAt(run: Run, i: nat, o: nat) {
    i < |run.events| && i < |run.states| && o in run.states[i].calls && Moves(run.events[i]) && Mover(run.events[i]) == o
  }

  lemma AdvancesNow(s: State, e: Event, o: nat)
    requires Inv(s) && Enabled(s, e) && Moves(e) && Mover(e) == o && !e.Fail? && o in s.calls && Untaken(s, o)
    ensures o in Apply(s, e).calls
    ensures Nearer(s.calls[o].pc, Apply(s, e).calls[o].pc, |s.order|) || (e.Reply? && !Takes(s.kv, e.req.w))
  {
    Standing(s, o);
    match s.calls[o].kind
    case Rotate => RotateAdvances(s, e, o);
    case Revoke => RevokeAdvances(s, e, o);
    case Adopt => AdoptAdvances(s, e, o);
    case Authorize =>
      NeverWaits(s, o);
      AuthorizationJudged(s, o, e.f);
      JudgedNearer(s, s.calls[o], Apply(s, e).calls[o].pc);
  }

  /**
   * Every read of a call, and every answer it hears, brings it nearer to its end, unless the answer says that
   * a compare-and-set lost: no call runs on, and none stops short of an outcome.
   */
  lemma Advances(run: Run, i: nat, o: nat)
    requires ValidRun(run) && MovesAt(run, i, o) && !run.events[i].Fail?
    ensures |run.states| == |run.events| + 1 && o in run.states[i + 1].calls
    ensures var s, e := run.states[i], run.events[i];
      Nearer(s.calls[o].pc, run.states[i + 1].calls[o].pc, |s.order|) || (e.Reply? && !Takes(s.kv, e.req.w))
  {
    RunInv(run, i);
    RunUntaken(run, i, o);
    AdvancesNow(run.states[i], run.events[i], o);
  }

  /* ---- Refused adoptions --------------------------------------------------------------------------- */

  /** What the store must show at a read of an adoption for the adoption to be refused there. */
  predicate Unadoptable(s: State, c: Call) {
    var slot := SlotOf(s.kv, c.agent);
    var unadoptable :=
      match c.pc
      case ARead =>
        c.target in s.kv.records ==>
          var r := s.kv.records[c.target]; r.id == c.target && (r.agent.Some? || r.human || r.retired)
      case AClaim => c.legacy.id in s.kv.claims && s.kv.claims[c.legacy.id] != c.agent
      case ASlot => Allows(c.demand, slot) && slot.Some? && slot.value.Revoked?
      case AResume(t, _) => HashAt(s.kv, t) != Some(c.legacy.hash)
      case ALookup => c.legacy.hash !in s.kv.lookups || s.kv.lookups[c.legacy.hash] != c.legacy.id
      case ACarryRec(_, t) => HashAt(s.kv, t) == Some(c.legacy.hash)
      case AReclaim => !Claimed(s, c.legacy, c.agent)
      case _ => false;
    unadoptable
  }

  lemma RefusedAtRead(s: State, c: Call, f: Fresh)
    requires c.kind.Adopt? && (c.pc.ARead? || c.pc.AClaim? || c.pc.ASlot?)
    ensures Moved(AdoptStep(c, s.kv, s.order, f)).pc == Done(NotAdoptable) <==> Unadoptable(s, c)
  {
  }

  lemma RefusedLater(s: State, c: Call, f: Fresh)
    requires c.kind.Adopt? && (c.pc.AResume? || c.pc.ALookup? || c.pc.ACarryRec? || c.pc.AReclaim?)
    ensures Moved(AdoptStep(c, s.kv, s.order, f)).pc == Done(NotAdoptable) <==> Unadoptable(s, c)
  {
  }

  lemma CarryNeverRefused(s: State, c: Call, f: Fresh)
    requires c.kind.Adopt? && c.pc.ACarry?
    ensures Moved(AdoptStep(c, s.kv, s.order, f)).pc != Done(NotAdoptable)
  {
    CarryStep(c, s.kv, s.order, f);
  }

  lemma EarlyRefused(s: State, c: Call, f: Fresh)
    requires c.kind.Adopt? && Early(c.pc)
    ensures Moved(AdoptStep(c, s.kv, s.order, f)).pc == Done(NotAdoptable) <==> Unadoptable(s, c)
  {
    if c.pc.ACarry? { CarryNeverRefused(s, c, f); }
    else if c.pc.ARead? || c.pc.AClaim? || c.pc.ASlot? { RefusedAtRead(s, c, f); }
    else { RefusedLater(s, c, f); }
  }

  lemma AdoptionJudged(s: State, o: nat, f: Fresh)
    requires Enabled(s, Step(o, f)) && s.calls[o].kind.Adopt? && Early(s.calls[o].pc)
    ensures o in Apply(s, Step(o, f)).calls
    ensures Apply(s, Step(o, f)).calls[o].pc == Done(NotAdoptable) <==> Unadoptable(s, s.calls[o])
  {
    MoverAt(s, Step(o, f));
    StepOf(s.calls[o], s.kv, s.order, f);
    EarlyRefused(s, s.calls[o], f);
  }

  /** An adoption is refused as not adoptable at exactly the read that shows why. */
  lemma AdoptionVerdict(run: Run, i: nat, o: nat)
    requires ValidRun(run) && ReadAt(run, i, o) && run.states[i].calls[o].kind.Adopt? && Early(run.states[i].calls[o].pc)
    ensures |run.states| == |run.events| + 1 && o in run.states[i + 1].calls
    ensures run.states[i + 1].calls[o].pc == Done(NotAdoptable) <==> Unadoptable(run.states[i], run.states[i].calls[o])
  {
    assert Stepped(run.states[i], run.events[i], run.states[i + 1]);
    AdoptionJudged(run.states[i], o, run.events[i].f);
  }

  /* ---- Unanswered proposals -------------------------------------------------------------------------- */

  lemma NamesStep(c: Call, kv: Kv, f: Fresh)
    requires c.kind.Rotate? && c.pc == RNames
    ensures var pc := Moved(RotateStep(c, kv, f)).pc;
      if !Named(kv, c.agent, c.mine.id) then pc == Done(Errored)
      else pc == if c.gone then URead else Done(if f.open then Ok(Some(Next(c))) else Unknown)
  {
  }

  /** The answer that settles a proposal. */
  lemma ProposalStep(c: Call, won: bool, f: Fresh)
    requires c.kind.Rotate? && c.pc == RCommitW
    ensures var pc := Moved(RotateHears(c, won, f)).pc;
      if won then pc == if c.gone then URead else Done(if f.open then Ok(Some(Next(c))) else Unknown)
      else pc == DropLkW(Done(if c.demand.Unconditional? then Conflict else SlotChanged))
  {
  }

  /** What the store says of a rotation's proposal where the rotation learns of it. */
  predicate Proposed(s: State, e: Event, o: nat) {
    && o in s.calls && s.calls[o].kind.Rotate?
    && ((e.Step? && e.op == o && s.calls[o].pc == RNames) || (e.Reply? && e.req.op == o && s.calls[o].pc == RCommitW))
  }

  predicate Learnt(s: State, e: Event, o: nat)
    requires Proposed(s, e, o)
  {
    if e.Step? then Named(s.kv, s.calls[o].agent, s.calls[o].mine.id) else Takes(s.kv, e.req.w)
  }

  lemma ProposalSettles(s: State, e: Event, o: nat)
    requires Enabled(s, e) && Proposed(s, e, o)
    ensures o in Apply(s, e).calls
    ensures var c, pc := s.calls[o], Apply(s, e).calls[o].pc;
      if Learnt(s, e, o) then pc == if c.gone then URead else Done(if e.f.open then Ok(Some(Next(c))) else Unknown)
      else if e.Step? then pc == Done(Errored)
      else pc == DropLkW(Done(if c.demand.Unconditional? then Conflict else SlotChanged))
  {
    MoverAt(s, e);
    if e.Step? {
      StepOf(s.calls[o], s.kv, s.order, e.f);
      NamesStep(s.calls[o], s.kv, e.f);
    } else {
      ProposalStep(s.calls[o], Takes(s.kv, e.req.w), e.f);
    }
  }

  /**
   * A rotation that learns that its slot names its record, by the answer of its swap or by reading back,
   * reports success inside its window to a request that is still there, and begins to undo it otherwise.
   */
  lemma RotationVerdict(run: Run, i: nat, o: nat)
    requires ValidRun(run) && i < |run.events| && Proposed(run.states[i], run.events[i], o)
    ensures |run.states| == |run.events| + 1 && o in run.states[i + 1].calls
    ensures var s, e, pc := run.states[i], run.events[i], run.states[i + 1].calls[o].pc;
      var c := s.calls[o];
      if Learnt(s, e, o) then pc == if c.gone then URead else Done(if e.f.open then Ok(Some(Next(c))) else Unknown)
      else if e.Step? then pc == Done(Errored)
      else pc == DropLkW(Done(if c.demand.Unconditional? then Conflict else SlotChanged))
  {
    assert Stepped(run.states[i], run.events[i], run.states[i + 1]);
    ProposalSettles(run.states[i], run.events[i], o);
  }
}
