/** The invariant holds in every state of every run. */
module TokenRuns {
  import opened TokenStore
  import opened TokenProtocol
  import opened TokenInvariant
  import opened TokenMoves
  import opened TokenLanding
  import opened TokenSteps
  import opened TokenAdoptSteps

  /** The move an event makes, the call it moves, and the state it moves it in. */
  predicate Moves(e: Event) { e.Step? || e.Reply? || e.Fail? }

  function Mover(e: Event): nat
    requires Moves(e)
  {
    if e.Reply? then e.req.op else e.op
  }

  function Before(s: State, e: Event): State { if e.Reply? then Deliver(s, e.req) else s }

  function MoveOf(s: State, e: Event): Move
    requires Moves(e) && Enabled(s, e)
  {
    match e
    case Step(o, f) => Proceed(Observe(s.calls[o], s.kv, s.order), s.kv, s.order, f)
    case Reply(r, f) => Answered(s.calls[r.op], Takes(s.kv, r.w), f)
    case Fail(o, late, _) => Failed(s.calls[o], late)
  }

  /** Each kind of call takes its own steps; only an authorization observes whether its token admits. */
  lemma StepOf(c: Call, kv: Kv, order: seq<Agent>, f: Fresh)
    ensures var m := Proceed(Observe(c, kv, order), kv, order, f);
      match c.kind
      case Rotate => m == RotateStep(c, kv, f)
      case Revoke => m == RevokeStep(c, kv, f)
      case Adopt => m == if Early(c.pc) then AdoptStep(c, kv, order, f) else AdoptEnd(c, kv, f)
      case Authorize => m == Authorized(Observe(c, kv, order), kv, order)
  {
  }

  lemma StepLegal(s: State, o: nat, f: Fresh)
    requires Core(s) && o in s.calls && Stands(s, o, s.calls[o]) && Unused(s, f)
    requires !Waiting(s.calls[o].pc) && !s.calls[o].pc.Done?
    ensures Legal(s, o, Proceed(Observe(s.calls[o], s.kv, s.order), s.kv, s.order, f), f)
  {
    CoreKnows(s, o);
    StepOf(s.calls[o], s.kv, s.order, f);
    match s.calls[o].kind {
      case Rotate => RotateReads(s, o, f);
      case Revoke => RevokeReads(s, o, f);
      case Adopt => if Early(s.calls[o].pc) { EarlyReads(s, o, f); } else { LateReads(s, o, f); }
      case Authorize => AuthReads(s, o, f);
    }
  }

  lemma ReplyLegal(s: State, r: Req, f: Fresh)
    requires Core(s) && r in s.flight && r.op in s.calls && Core(Deliver(s, r)) && Unused(s, f)
    requires Waiting(s.calls[r.op].pc) && r.n + 1 == s.calls[r.op].sent
    requires Stands(s, r.op, s.calls[r.op]) && Stands(Deliver(s, r), r.op, s.calls[r.op])
    ensures Legal(Deliver(s, r), r.op, Answered(s.calls[r.op], Takes(s.kv, r.w), f), f)
  {
    CoreKnows(s, r.op);
    CoreKnows(Deliver(s, r), r.op);
    match s.calls[r.op].kind {
      case Rotate => RotateAnswers(s, r, f);
      case Revoke => RevokeAnswers(s, r, f);
      case Adopt => AdoptAnswers(s, r, f);
      case Authorize => assert false;
    }
  }

  lemma FailLegal(s: State, o: nat, late: bool, f: Fresh)
    requires Core(s) && o in s.calls && Stands(s, o, s.calls[o]) && Unused(s, f) && !s.calls[o].pc.Done?
    ensures Legal(s, o, Failed(s.calls[o], late), f)
  {
    CoreKnows(s, o);
    match s.calls[o].kind {
      case Rotate => RotateFails(s, o, late, f);
      case Revoke => RevokeFails(s, o, late, f);
      case Adopt => AdoptFails(s, o, late, f);
      case Authorize => AuthFails(s, o, late, f);
    }
  }

  lemma Standing(s: State, o: nat)
    requires Inv(s) && o in s.calls
    ensures Core(s) && Stands(s, o, s.calls[o])
  {
  }

  /** Every move the protocol makes is legal. */
  lemma EventLegal(s: State, e: Event)
    requires Inv(s) && Enabled(s, e) && Moves(e)
    ensures Inv(Before(s, e)) && Legal(Before(s, e), Mover(e), MoveOf(s, e), e.f)
    ensures Apply(s, e) == Place(Before(s, e), Mover(e), MoveOf(s, e), e.f)
  {
    match e {
      case Step(o, f) => Standing(s, o); StepLegal(s, o, f);
      case Reply(r, f) =>
        LandInv(s, r);
        Standing(s, r.op); Standing(Deliver(s, r), r.op);
        ReplyLegal(s, r, f);
      case Fail(o, late, f) => Standing(s, o); FailLegal(s, o, late, f);
    }
  }

  /* ---- The environment ------------------------------------------------------------------ */

  /** A state that differs only in losing requests and adding or ending signals of calls. */
  ghost predicate Alike(s: State, s': State) {
    && s' == s.(flight := s'.flight, calls := s'.calls) && s'.flight <= s.flight
    && (forall o :: o in s.calls ==> o in s'.calls && s'.calls[o] == s.calls[o].(gone := s'.calls[o].gone))
    && (forall o :: o in s'.calls && o !in s.calls ==> Newborn(s'.calls[o], s.order))
  }

  lemma AlikeFacts(s: State, s': State)
    requires Base(s) && Log(s) && Alike(s, s')
    ensures forall o :: o in s.calls ==> (Won(s, o, s.calls[o]) <==> Won(s', o, s'.calls[o]))
    ensures forall o :: o in s.calls && Live(s', o, s'.calls[o]) ==> Live(s, o, s.calls[o])
    ensures forall o :: o in s'.calls && o !in s.calls ==> !Live(s', o, s'.calls[o])
    ensures forall t :: Minted(s, t) <==> Minted(s', t)
    ensures forall t :: WonBy(s, t) <==> WonBy(s', t)
    ensures forall t, l :: Adopted(s, t, l) <==> Adopted(s', t, l)
    ensures forall l :: Tracked(s, l) <==> Tracked(s', l)
  {
  }

  lemma AlikeLog(s: State, s': State)
    requires Base(s) && Log(s) && Alike(s, s')
    ensures Log(s')
  {
    AlikeFacts(s, s');
    forall k | k in s'.log ensures Logged(s', k) { assert Logged(s, k); }
  }

  lemma AlikeFlight(s: State, s': State)
    requires Base(s) && Log(s) && Flight(s) && Alike(s, s')
    ensures Flight(s')
  {
    AlikeFacts(s, s');
    forall r | r in s'.flight ensures Justified(s', r) { assert Justified(s, r); }
  }

  lemma AlikeCore(s: State, s': State)
    requires Core(s) && Alike(s, s')
    ensures Core(s')
  {
    AlikeShapes(s, s');
    AlikeLog(s, s');
    AlikeFlight(s, s');
    AlikeBacking(s, s');
  }

  lemma AlikeShapes(s: State, s': State)
    requires Core(s) && Alike(s, s')
    ensures Base(s') && Shapes(s') && Records(s') && Lookups(s') && Slots(s')
  {
    AlikeFacts(s, s');
    forall o | o in s'.calls ensures Fixed(s', o, s'.calls[o]) { if o in s.calls { Shape(s, o); } }
  }

  lemma AlikeBacking(s: State, s': State)
    requires Base(s) && Log(s) && Backing(s) && Alike(s, s')
    ensures Backing(s')
  {
    AlikeFacts(s, s');
    forall o | o in s'.calls && Live(s', o, s'.calls[o]) ensures Backed(s', s'.calls[o]) {
      assert Backed(s, s.calls[o]);
    }
  }

  /** Where a call stands does not depend on its abort signal. */
  lemma SignalStands(s: State, o: nat, c: Call, d: Call)
    requires Stands(s, o, c) && d == c.(gone := d.gone)
    ensures Stands(s, o, d)
  {
    assert Proposal(d) == Proposal(c) && Win(d, o) == Win(c, o);
  }

  lemma AlikeForward(s: State, s': State)
    requires Base(s) && Log(s) && Alike(s, s')
    ensures Forward(s, s')
  {
    AlikeFacts(s, s');
    forall d, id | Seen(s, d, id) ensures Seen(s', d, id) { assert Minted(s', id) ==> Minted(s, id); }
  }

  lemma AlikeUnmoved(s: State, s': State, o: nat)
    requires Base(s) && Log(s) && Alike(s, s') && o in s.calls
    ensures Unmoved(s, s', o, s.calls[o])
  {
    AlikeFacts(s, s');
    var c := s.calls[o];
    assert Won(s', o, c) == Won(s', o, s'.calls[o]) && Live(s', o, c) == Live(s', o, s'.calls[o]);
  }

  lemma NewStands(s: State, o: nat, c: Call)
    requires Newborn(c, s.order)
    ensures Stands(s, o, c)
  {
  }

  lemma AlikePositions(s: State, s': State)
    requires Base(s) && Shapes(s) && Log(s) && Positions(s) && Alike(s, s')
    ensures Positions(s')
  {
    AlikeForward(s, s');
    forall o | o in s'.calls ensures Stands(s', o, s'.calls[o]) {
      if o in s.calls {
        AlikeUnmoved(s, s', o);
        Shape(s, o);
        StandsOnward(s, s', o, s.calls[o]);
        SignalStands(s', o, s.calls[o], s'.calls[o]);
      } else {
        NewStands(s', o, s'.calls[o]);
      }
    }
  }

  lemma AlikeInv(s: State, s': State)
    requires Inv(s) && Alike(s, s')
    ensures Inv(s')
  {
    AlikeCore(s, s');
    AlikePositions(s, s');
  }

  lemma Signals(s: State, e: Event)
    requires Enabled(s, e) && !Moves(e) && !e.Land?
    ensures Alike(s, Apply(s, e))
  {
  }

  lemma NextInv(s: State, e: Event)
    requires Inv(s) && Enabled(s, e)
    ensures Inv(Apply(s, e))
  {
    if Moves(e) {
      EventLegal(s, e);
      PlaceInv(Before(s, e), Mover(e), MoveOf(s, e), e.f);
    } else if e.Land? {
      LandInv(s, e.req);
    } else {
      Signals(s, e);
      AlikeInv(s, Apply(s, e));
    }
  }

  lemma {:induction false} RunInv(run: Run, i: nat)
    requires ValidRun(run) && i < |run.states|
    ensures Inv(run.states[i])
  {
    if i == 0 {
      InitInv(run.states[0]);
    } else {
      RunInv(run, i - 1);
      NextInv(run.states[i - 1], run.events[i - 1]);
    }
  }

  /* ---- What only ever grows -------------------------------------------------------------- */

  /** Facts no step takes back. */
  ghost predicate Lasting(s: State, s': State) {
    var holds :=
      && s'.base == s.base && s'.order == s.order && s.log <= s'.log
      && (forall o :: o in s.calls ==> o in s'.calls)
      && (forall t :: t in s.owner ==> t in s'.owner && s'.owner[t] == s.owner[t])
      && (forall t :: Minted(s, t) ==> Minted(s', t) && s'.calls[s.owner[t]].mine == s.calls[s.owner[t]].mine
                                       && s'.calls[s.owner[t]].kind == s.calls[s.owner[t]].kind)
      && (forall t :: WonBy(s, t) ==> WonBy(s', t))
      && (forall t, l :: Adopted(s, t, l) ==> Adopted(s', t, l))
      && (forall t, l :: Adopted(s, t, l) && l.hash in s.kv.lookups && s.kv.lookups[l.hash] == t ==>
            l.hash in s'.kv.lookups && s'.kv.lookups[l.hash] == t)
      && (forall a, t :: WonBy(s, t) && !Named(s.kv, a, t) ==> !Named(s'.kv, a, t))
      && (forall a :: a in s.kv.slots ==> a in s'.kv.slots);
    holds
  }

  lemma CompletedStays(s: State, r: Req, t: Id, l: Record)
    requires Base(s) && Shapes(s) && Flight(s) && Lookups(s) && r in s.flight
    requires Adopted(s, t, l) && l.hash in s.kv.lookups && s.kv.lookups[l.hash] == t
    ensures var s' := Deliver(s, r); l.hash in s'.kv.lookups && s'.kv.lookups[l.hash] == t
  {
    Shape(s, s.owner[t]);
    AdoptedLookupStays(s, r, l.hash);
  }

  lemma LandNames(s: State, r: Req)
    requires Shapes(s) && Flight(s) && Log(s) && r in s.flight
    ensures forall a, t :: WonBy(s, t) && !Named(s.kv, a, t) ==> !Named(Deliver(s, r).kv, a, t)
    ensures forall a :: a in s.kv.slots ==> a in Deliver(s, r).kv.slots
  {
    forall a, t | WonBy(s, t) && !Named(s.kv, a, t) ensures !Named(Deliver(s, r).kv, a, t) { StaysUnnamed(s, r, a, t); }
  }

  lemma LandLasting(s: State, r: Req)
    requires Base(s) && Shapes(s) && Flight(s) && Lookups(s) && Log(s) && r in s.flight
    ensures Lasting(s, Deliver(s, r))
  {
    var s' := Deliver(s, r);
    Grows(s, r);
    forall t, l | Adopted(s, t, l) && l.hash in s.kv.lookups && s.kv.lookups[l.hash] == t
      ensures l.hash in s'.kv.lookups && s'.kv.lookups[l.hash] == t
    {
      CompletedStays(s, r, t, l);
    }
    LandNames(s, r);
  }

  /** A committed record that no slot names has no swap left that could name it. */
  lemma StaysUnnamed(s: State, r: Req, a: Agent, t: Id)
    requires Shapes(s) && Flight(s) && Log(s) && r in s.flight && WonBy(s, t) && !Named(s.kv, a, t)
    ensures !Named(Deliver(s, r).kv, a, t)
  {
    assert Justified(s, r);
    Shape(s, r.op);
  }

  lemma PlaceLasting(s: State, o: nat, m: Move, f: Fresh)
    requires Shapes(s) && o in s.calls && Unused(s, f) && Legal(s, o, m, f)
    ensures Lasting(s, Place(s, o, m, f))
  {
    Keeps(s, o, m, f);
  }

  lemma LastingTrans(s: State, t: State, u: State)
    requires Lasting(s, t) && Lasting(t, u)
    ensures Lasting(s, u)
  {
  }

  lemma AlikeLasting(s: State, s': State)
    requires Base(s) && Log(s) && Alike(s, s')
    ensures Lasting(s, s')
  {
    AlikeFacts(s, s');
  }

  lemma MoveLasting(s: State, e: Event)
    requires Inv(s) && Enabled(s, e) && Moves(e)
    ensures Lasting(s, Apply(s, e))
  {
    EventLegal(s, e);
    PlaceLasting(Before(s, e), Mover(e), MoveOf(s, e), e.f);
    if e.Reply? {
      LandLasting(s, e.req);
      LastingTrans(s, Before(s, e), Apply(s, e));
    }
  }

  lemma NextLasting(s: State, e: Event)
    requires Inv(s) && Enabled(s, e)
    ensures Lasting(s, Apply(s, e))
  {
    if Moves(e) {
      MoveLasting(s, e);
    } else if e.Land? {
      LandLasting(s, e.req);
    } else {
      Signals(s, e);
      AlikeLasting(s, Apply(s, e));
    }
  }

  lemma StepLasting(run: Run, i: nat)
    requires ValidRun(run) && i < |run.events|
    ensures |run.states| == |run.events| + 1 && Lasting(run.states[i], run.states[i + 1])
  {
    RunInv(run, i);
    NextLasting(run.states[i], run.events[i]);
  }

  lemma {:induction false} RunLasting(run: Run, i: nat, j: nat)
    requires ValidRun(run) && i <= j < |run.states|
    ensures Lasting(run.states[i], run.states[j])
    decreases j - i
  {
    if i == j {
      LastingSelf(run.states[i]);
    } else {
      RunLasting(run, i, j - 1);
      StepLasting(run, j - 1);
      LastingTrans(run.states[i], run.states[j - 1], run.states[j]);
    }
  }

  lemma LastingSelf(s: State)
    ensures Lasting(s, s)
  {
  }
}
