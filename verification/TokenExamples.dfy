/**
 Concrete runs that show where a plausible claim about the token slots fails:
 a refusal that is already wrong when its record is read, because an adoption
 finished between the two reads; a revoked slot value that comes back; and a
 revocation that reports `slot_changed` although it committed.
 */
module TokenExamples {
  import opened Options
  import opened TokenStore
  import opened TokenProtocol

  /* ---- Building runs ---------------------------------------------------------------------- */

  function Last(run: Run): State
    requires run.states != []
  {
    run.states[|run.states| - 1]
  }

  /** The one run goes on where the other stops. */
  predicate Grown(run: Run, more: Run) { run.states <= more.states && run.events <= more.events }

  lemma GrownTwice(a: Run, b: Run, c: Run)
    requires Grown(a, b) && Grown(b, c)
    ensures Grown(a, c)
  {
  }

  lemma Extend(run: Run, e: Event) returns (more: Run)
    requires ValidRun(run) && Enabled(Last(run), e)
    ensures ValidRun(more) && more.events == run.events + [e] && more.states == run.states + [Apply(Last(run), e)]
  {
    more := Run(run.states + [Apply(Last(run), e)], run.events + [e]);
  }

  /** The n-th step draws the number n as its id and as its digest. */
  function Draw(n: nat): Fresh { Fresh(n, n, 0, 5, true) }

  const One: Record := Record(1, 2, 3, 4, None, false, false)
  const Old: Kv := Kv(map[1 := One], map[2 := 1], map[], map[])

  /** Where the run stands, with every drawn number below `n`. */
  ghost predicate Here(s: State, n: nat, kv: Kv, flight: set<Req>, calls: map<nat, Call>) {
    && s.base == Old && s.order == [0] && s.kv == kv && s.flight == flight && s.calls == calls && n >= 10
    && (forall t :: t in s.owner ==> t < n) && (forall d :: d in s.minter ==> d < n)
  }

  ghost predicate Reached(run: Run, n: nat, kv: Kv, flight: set<Req>, calls: map<nat, Call>) {
    var reached := ValidRun(run) && Here(Last(run), n, kv, flight, calls);
    reached
  }

  lemma Opened() returns (run: Run)
    ensures Reached(run, 10, Old, {}, map[])
  {
    run := Run([State(Old, [0], Old, {}, map[], map[], map[], {})], []);
  }

  lemma Begun(run: Run, n: nat, kv: Kv, flight: set<Req>, calls: map<nat, Call>, o: nat, c: Call) returns (more: Run)
    requires Reached(run, n, kv, flight, calls) && o !in calls && Newborn(c, [0])
    ensures Reached(more, n, kv, flight, calls[o := c]) && Grown(run, more)
  {
    more := Extend(run, Begin(o, c));
  }

  lemma Drawn(s: State, n: nat, kv: Kv, flight: set<Req>, calls: map<nat, Call>)
    requires Here(s, n, kv, flight, calls)
    ensures Unused(s, Draw(n))
  {
  }

  function CallsAfter(calls: map<nat, Call>, o: nat, m: Move): map<nat, Call> {
    match m case Go(d) => calls[o := d] case Send(d, _) => calls[o := d.(sent := d.sent + 1)]
  }

  function FlightAfter(flight: set<Req>, o: nat, m: Move): set<Req> {
    match m case Go(_) => flight case Send(d, w) => flight + {Req(o, d.sent, w)}
  }

  lemma Placed(s: State, n: nat, kv: Kv, flight: set<Req>, calls: map<nat, Call>, o: nat, m: Move)
    requires Here(s, n, kv, flight, calls)
    ensures Here(Place(s, o, m, Draw(n)), n + 1, kv, FlightAfter(flight, o, m), CallsAfter(calls, o, m))
  {
  }

  /** A call takes one step: it reads and moves on, or issues a write. */
  lemma Stepped(run: Run, n: nat, kv: Kv, flight: set<Req>, calls: map<nat, Call>, o: nat, m: Move) returns (more: Run)
    requires Reached(run, n, kv, flight, calls) && o in calls && !Waiting(calls[o].pc) && !calls[o].pc.Done?
    requires Proceed(Observe(calls[o], kv, [0]), kv, [0], Draw(n)) == m
    ensures Reached(more, n + 1, kv, FlightAfter(flight, o, m), CallsAfter(calls, o, m))
    ensures |more.states| == |run.states| + 1 && Grown(run, more)
    ensures more.states[|more.states| - 2] == Last(run) && more.events == run.events + [Step(o, Draw(n))]
  {
    Drawn(Last(run), n, kv, flight, calls);
    more := Extend(run, Step(o, Draw(n)));
    Placed(Last(run), n, kv, flight, calls, o, m);
  }

  /** A call reads and moves on. */
  lemma Read(run: Run, n: nat, kv: Kv, flight: set<Req>, calls: map<nat, Call>, o: nat, d: Call) returns (more: Run)
    requires Reached(run, n, kv, flight, calls) && o in calls && !Waiting(calls[o].pc) && !calls[o].pc.Done?
    requires Proceed(Observe(calls[o], kv, [0]), kv, [0], Draw(n)) == Go(d)
    ensures Reached(more, n + 1, kv, flight, calls[o := d]) && |more.states| == |run.states| + 1
    ensures Grown(run, more) && more.states[|more.states| - 2] == Last(run) && more.events == run.events + [Step(o, Draw(n))]
  {
    more := Stepped(run, n, kv, flight, calls, o, Go(d));
  }

  /** A call that issues a write while none is in flight. */
  lemma FirstFlight(o: nat, d: Call, w: Write)
    ensures FlightAfter({}, o, Send(d, w)) == {Req(o, d.sent, w)}
  {
  }

  lemma Delivered(s: State, n: nat, kv: Kv, calls: map<nat, Call>, r: Req)
    requires Here(s, n, kv, {r}, calls)
    ensures Here(Deliver(s, r), n, Landed(kv, r.w), {}, calls)
  {
  }

  /** The answer arrives and the call issues its next write, or moves on. */
  lemma Heard(run: Run, n: nat, kv: Kv, calls: map<nat, Call>, r: Req, m: Move) returns (more: Run)
    requires Reached(run, n, kv, {r}, calls) && r.op in calls && Waiting(calls[r.op].pc) && r.n + 1 == calls[r.op].sent
    requires Answered(calls[r.op], Takes(kv, r.w), Draw(n)) == m
    ensures Reached(more, n + 1, Landed(kv, r.w), FlightAfter({}, r.op, m), CallsAfter(calls, r.op, m))
    ensures Grown(run, more)
  {
    Drawn(Last(run), n, kv, {r}, calls);
    more := Extend(run, Reply(r, Draw(n)));
    Delivered(Last(run), n, kv, calls, r);
    Placed(Deliver(Last(run), r), n, Landed(kv, r.w), {}, calls, r.op, m);
  }

  /* ---- A refusal overtaken by an adoption -------------------------------------------------- */

  const Shown: Token := Token(2, 3)

  function Fresh0(kind: Kind, pc: Pc): Call {
    Call(kind, 1, Shown, 0, Unconditional, false, 0, None, pc, None, false, One, 0, 0, One, false, false)
  }

  function Adopter(pc: Pc): Call { Fresh0(Adopt, pc) }

  const Mine: Record := Record(16, 2, 3, 5, Some(0), false, false)
  const Slot0: Slot := Issued(16, 4)
  const Swap: Write := SwapSlot(0, None, Slot0)
  const Move0: Write := MoveLookup(2, 1, 16)

  function Minter(pc: Pc, sent: nat, cast: Option<nat>): Call {
    Adopter(pc).(minted := true, mine := Mine, sent := sent, cast := cast)
  }

  const Claimed: Kv := Old.(claims := map[1 := 0])
  const Recorded: Kv := Claimed.(records := map[1 := One, 16 := Mine])
  const Committed0: Kv := Recorded.(slots := map[0 := Slot0])
  const Adopted0: Kv := Committed0.(lookups := map[2 := 16])

  lemma FirstReads()
    ensures Proceed(Adopter(ARead), Old, [0], Draw(10)) == Go(Adopter(AClaim))
    ensures Proceed(Adopter(AClaim), Old, [0], Draw(11)) == Go(Adopter(ASlot))
    ensures Proceed(Adopter(ASlot), Old, [0], Draw(12)) == Go(Adopter(ALookup))
  {
  }

  lemma LaterReads()
    ensures Proceed(Adopter(ALookup), Old, [0], Draw(13)) == Go(Adopter(ACarry(0)))
    ensures Proceed(Adopter(ACarry(0)), Old, [0], Draw(14)) == Go(Adopter(ACarry(1)))
    ensures Proceed(Adopter(ACarry(1)), Old, [0], Draw(15)) == Send(Adopter(AClaimW), Claim(1, 0))
  {
  }

  /** One read of the only call there is. */
  lemma Next(run: Run, n: nat, c: Call, d: Call) returns (more: Run)
    requires Reached(run, n, Old, {}, map[0 := c]) && !Waiting(c.pc) && !c.pc.Done? && c.kind.Adopt?
    requires Proceed(c, Old, [0], Draw(n)) == Go(d)
    ensures Reached(more, n + 1, Old, {}, map[0 := d])
  {
    more := Read(run, n, Old, {}, map[0 := c], 0, d);
    assert map[0 := c][0 := d] == map[0 := d];
  }

  lemma UpToRead() returns (run: Run)
    ensures Reached(run, 10, Old, {}, map[0 := Adopter(ARead)])
  {
    run := Opened();
    run := Begun(run, 10, Old, {}, map[], 0, Adopter(ARead));
    assert map[][0 := Adopter(ARead)] == map[0 := Adopter(ARead)];
  }

  /** Agent 0 finds the legacy record free to adopt. */
  lemma UpToLookup() returns (run: Run)
    ensures Reached(run, 13, Old, {}, map[0 := Adopter(ALookup)])
  {
    run := UpToRead();
    FirstReads();
    run := Next(run, 10, Adopter(ARead), Adopter(AClaim));
    run := Next(run, 11, Adopter(AClaim), Adopter(ASlot));
    run := Next(run, 12, Adopter(ASlot), Adopter(ALookup));
  }

  lemma UpToCarried() returns (run: Run)
    ensures Reached(run, 15, Old, {}, map[0 := Adopter(ACarry(1))])
  {
    run := UpToLookup();
    LaterReads();
    run := Next(run, 13, Adopter(ALookup), Adopter(ACarry(0)));
    run := Next(run, 14, Adopter(ACarry(0)), Adopter(ACarry(1)));
  }

  /** No slot carries it, so it asks for the claim. */
  lemma UpToClaim() returns (run: Run)
    ensures Reached(run, 16, Old, {Req(0, 0, Claim(1, 0))}, map[0 := Adopter(AClaimW).(sent := 1)])
  {
    run := UpToCarried();
    LaterReads();
    FirstFlight(0, Adopter(AClaimW), Claim(1, 0));
    run := Stepped(run, 15, Old, {}, map[0 := Adopter(ACarry(1))], 0, Send(Adopter(AClaimW), Claim(1, 0)));
    assert map[0 := Adopter(ACarry(1))][0 := Adopter(AClaimW).(sent := 1)] == map[0 := Adopter(AClaimW).(sent := 1)];
  }

  /** It records its copy. */
  lemma UpToRecord() returns (run: Run)
    ensures Reached(run, 17, Claimed, {Req(0, 1, PutRecord(Mine))}, map[0 := Minter(ARecW, 2, None)])
  {
    run := UpToClaim();
    var c, d := Adopter(AClaimW).(sent := 1), Minter(ARecW, 1, None);
    ClaimSteps();
    run := Heard(run, 16, Old, map[0 := c], Req(0, 0, Claim(1, 0)), Send(d, PutRecord(Mine)));
    OnlyOne(c, d, PutRecord(Mine));
  }

  lemma ClaimSteps()
    ensures Landed(Old, Claim(1, 0)) == Claimed
    ensures Answered(Adopter(AClaimW).(sent := 1), true, Draw(16)) == Send(Minter(ARecW, 1, None), PutRecord(Mine))
  {
  }

  lemma RecordSteps()
    ensures Landed(Claimed, PutRecord(Mine)) == Recorded
    ensures Answered(Minter(ARecW, 2, None), true, Draw(17)) == Send(Minter(ACommitW, 2, Some(2)), Swap)
  {
  }

  lemma OnlyOne(c: Call, d: Call, w: Write)
    ensures CallsAfter(map[0 := c], 0, Send(d, w)) == map[0 := d.(sent := d.sent + 1)]
    ensures FlightAfter({}, 0, Send(d, w)) == {Req(0, d.sent, w)}
  {
  }

  /** It proposes the copy to its slot. */
  lemma UpToSwap() returns (run: Run)
    ensures Reached(run, 18, Recorded, {Req(0, 2, Swap)}, map[0 := Minter(ACommitW, 3, Some(2))])
  {
    run := UpToRecord();
    var c, d := Minter(ARecW, 2, None), Minter(ACommitW, 2, Some(2));
    RecordSteps();
    run := Heard(run, 17, Claimed, map[0 := c], Req(0, 1, PutRecord(Mine)), Send(d, Swap));
    OnlyOne(c, d, Swap);
  }

  function Asker(pc: Pc): Call { Fresh0(Authorize, pc).(denied := pc != ULook) }

  lemma AskerReads()
    ensures Proceed(Observe(Asker(ULook), Recorded, [0]), Recorded, [0], Draw(18)) == Go(Asker(URec(1)))
  {
  }

  lemma UpToAsked() returns (run: Run)
    ensures Reached(run, 18, Recorded, {Req(0, 2, Swap)}, Both(Minter(ACommitW, 3, Some(2)), Asker(ULook)))
  {
    run := UpToSwap();
    var c := Minter(ACommitW, 3, Some(2));
    run := Begun(run, 18, Recorded, {Req(0, 2, Swap)}, map[0 := c], 1, Asker(ULook));
    assert map[0 := c][1 := Asker(ULook)] == Both(c, Asker(ULook));
  }

  /** Meanwhile the old secret is presented, and its lookup read before the adoption moves it. */
  lemma UpToLookupRead() returns (run: Run)
    ensures Reached(run, 19, Recorded, {Req(0, 2, Swap)}, Both(Minter(ACommitW, 3, Some(2)), Asker(URec(1))))
  {
    run := UpToAsked();
    var c := Minter(ACommitW, 3, Some(2));
    AskerReads();
    run := Read(run, 18, Recorded, {Req(0, 2, Swap)}, Both(c, Asker(ULook)), 1, Asker(URec(1)));
    BothSet(c, Asker(ULook), Asker(URec(1)));
  }

  function Both(c: Call, d: Call): map<nat, Call> { map[0 := c, 1 := d] }

  lemma BothSet(c: Call, d: Call, e: Call)
    ensures Both(c, d)[0 := e] == Both(e, d) && Both(c, d)[1 := e] == Both(c, e)
  {
  }

  lemma CommitSteps()
    ensures Landed(Recorded, Swap) == Committed0 && Takes(Recorded, Swap)
    ensures Answered(Minter(ACommitW, 3, Some(2)), true, Draw(19)) == Go(Minter(AComplete(16, 4), 3, Some(2)))
  {
  }

  lemma MoveStep()
    ensures Proceed(Minter(AComplete(16, 4), 3, Some(2)), Committed0, [0], Draw(20))
            == Send(Minter(AMoveW(16, 4), 3, Some(2)), Move0)
  {
  }

  lemma MovedSteps()
    ensures Landed(Committed0, Move0) == Adopted0 && Takes(Committed0, Move0)
    ensures Answered(Minter(AMoveW(16, 4), 4, Some(2)), true, Draw(21))
            == Go(Minter(Done(Ok(Some(Slot0))), 4, Some(2)))
  {
  }

  /** The adoption commits. */
  lemma UpToCommitted() returns (run: Run)
    ensures Reached(run, 20, Committed0, {}, Both(Minter(AComplete(16, 4), 3, Some(2)), Asker(URec(1))))
  {
    run := UpToLookupRead();
    CommitSteps();
    var c, d := Minter(ACommitW, 3, Some(2)), Minter(AComplete(16, 4), 3, Some(2));
    run := Heard(run, 19, Recorded, Both(c, Asker(URec(1))), Req(0, 2, Swap), Go(d));
    BothSet(c, Asker(URec(1)), d);
  }

  /** It asks for the lookup to be moved. */
  lemma UpToMove() returns (run: Run)
    ensures Reached(run, 21, Committed0, {Req(0, 3, Move0)}, Both(Minter(AMoveW(16, 4), 4, Some(2)), Asker(URec(1))))
  {
    run := UpToCommitted();
    MoveStep();
    var c, d := Minter(AComplete(16, 4), 3, Some(2)), Minter(AMoveW(16, 4), 3, Some(2));
    FirstFlight(0, d, Move0);
    run := Stepped(run, 20, Committed0, {}, Both(c, Asker(URec(1))), 0, Send(d, Move0));
    BothSet(c, Asker(URec(1)), d.(sent := 4));
  }

  /** The lookup moves, and the adoption is reported. */
  lemma UpToMoved() returns (run: Run)
    ensures Reached(run, 22, Adopted0, {}, Both(Minter(Done(Ok(Some(Slot0))), 4, Some(2)), Asker(URec(1))))
  {
    run := UpToMove();
    MovedSteps();
    var c, d := Minter(AMoveW(16, 4), 4, Some(2)), Minter(Done(Ok(Some(Slot0))), 4, Some(2));
    run := Heard(run, 21, Committed0, Both(c, Asker(URec(1))), Req(0, 3, Move0), Go(d));
    BothSet(c, Asker(URec(1)), d);
  }

  lemma AdmitsByNow()
    ensures Admits(Adopted0, [0], Shown, 0)
  {
  }

  lemma LastRead()
    ensures Proceed(Observe(Asker(URec(1)), Adopted0, [0]), Adopted0, [0], Draw(22)) == Go(Asker(Done(Refused)))
  {
    assert !Presentable(One, 1, Shown, [0]);
  }

  /** The record read then refuses a secret that by now admits. */
  lemma RefusedWhileAdmitting() returns (run: Run)
    ensures ValidRun(run) && |run.events| > 0
    ensures var i := |run.events| - 1;
      && run.events[i].Step? && run.events[i].op == 1 && 1 in run.states[i].calls && 1 in run.states[i + 1].calls
      && run.states[i].calls[1].kind.Authorize? && run.states[i + 1].calls[1].pc == Done(Refused)
      && AdmitsAny(run.states[i].kv, run.states[i].order, run.states[i].calls[1].tok)
  {
    run := UpToMoved();
    LastRead();
    AdmitsByNow();
    var calls := Both(Minter(Done(Ok(Some(Slot0))), 4, Some(2)), Asker(URec(1)));
    run := Read(run, 22, Adopted0, {}, calls, 1, Asker(Done(Refused)));
  }

  /* ---- A revoked value that comes back ------------------------------------------------------ */

  /** A storage error: the call no longer waits, and its write is still on its way. */
  lemma Broke(run: Run, n: nat, kv: Kv, flight: set<Req>, calls: map<nat, Call>, o: nat, d: Call) returns (more: Run)
    requires Reached(run, n, kv, flight, calls) && o in calls && !calls[o].pc.Done? && Failed(calls[o], false) == Go(d)
    ensures Reached(more, n + 1, kv, flight, calls[o := d]) && Grown(run, more)
  {
    Drawn(Last(run), n, kv, flight, calls);
    more := Extend(run, Fail(o, false, Draw(n)));
    Placed(Last(run), n, kv, flight, calls, o, Go(d));
  }

  /** The write lands with nobody waiting for it. */
  lemma Arrived(run: Run, n: nat, kv: Kv, calls: map<nat, Call>, r: Req) returns (more: Run)
    requires Reached(run, n, kv, {r}, calls)
    ensures Reached(more, n, Landed(kv, r.w), {}, calls) && Grown(run, more)
    ensures |more.states| == |run.states| + 1 && more.events == run.events + [Land(r)]
  {
    more := Extend(run, Land(r));
    Delivered(Last(run), n, kv, calls, r);
  }

  /** The record the rotation that first draws `n` mints. */
  function Minted0(n: nat): Record { Record(n, n, 0, 5, Some(0), false, false) }

  function Rotator(pc: Pc, n: nat, raw: Option<Slot>, sent: nat, cast: Option<nat>): Call {
    Fresh0(Rotate, pc).(minted := true, mine := Minted0(n), raw := raw, sent := sent, cast := cast)
  }

  function Filed(kv: Kv, n: nat): Kv { kv.(records := kv.records[n := Minted0(n)]) }

  function Found(kv: Kv, n: nat): Kv { Filed(kv, n).(lookups := kv.lookups[n := n]) }

  function Rotated(kv: Kv, n: nat): Kv { Found(kv, n).(slots := kv.slots[0 := Issued(n, 5)]) }

  lemma RotationSteps(kv: Kv, n: nat)
    requires n !in kv.lookups
    ensures var raw := SlotOf(kv, 0);
      && Proceed(Fresh0(Rotate, RRead), kv, [0], Draw(n)) == Go(Rotator(RProbe, n, raw, 0, None))
      && Proceed(Rotator(RProbe, n, raw, 0, None), kv, [0], Draw(n + 1))
         == Send(Rotator(RRecW, n, raw, 0, None), PutRecord(Minted0(n)))
      && Answered(Rotator(RRecW, n, raw, 1, None), true, Draw(n + 2))
         == Send(Rotator(RLkW, n, raw, 1, None), PutLookup(n, n))
      && Answered(Rotator(RLkW, n, raw, 2, None), true, Draw(n + 3))
         == Send(Rotator(RCommitW, n, raw, 2, Some(2)), SwapSlot(0, raw, Issued(n, 5)))
      && Answered(Rotator(RCommitW, n, raw, 3, Some(2)), true, Draw(n + 4))
         == Go(Rotator(Done(Ok(Some(Issued(n, 5)))), n, raw, 3, Some(2)))
  {
  }

  lemma Again(calls: map<nat, Call>, o: nat, c: Call, d: Call)
    ensures calls[o := c][o := d] == calls[o := d]
  {
  }

  /** A rotation reads its slot and mints its record. */
  lemma RotationMints(run: Run, n: nat, kv: Kv, calls: map<nat, Call>, o: nat) returns (more: Run)
    requires Reached(run, n, kv, {}, calls) && o !in calls && n !in kv.lookups
    ensures Reached(more, n + 1, kv, {}, calls[o := Rotator(RProbe, n, SlotOf(kv, 0), 0, None)]) && Grown(run, more)
  {
    RotationSteps(kv, n);
    var c0, c1 := Fresh0(Rotate, RRead), Rotator(RProbe, n, SlotOf(kv, 0), 0, None);
    var begun := Begun(run, n, kv, {}, calls, o, c0);
    more := Read(begun, n, kv, {}, calls[o := c0], o, c1);
    Again(calls, o, c0, c1);
    GrownTwice(run, begun, more);
  }

  /** It finds its digest free and writes the record. */
  lemma RotationRecords(run: Run, n: nat, kv: Kv, calls: map<nat, Call>, o: nat) returns (more: Run)
    requires Reached(run, n, kv, {}, calls) && o !in calls && n !in kv.lookups
    ensures var raw := SlotOf(kv, 0);
      Reached(more, n + 2, kv, {Req(o, 0, PutRecord(Minted0(n)))}, calls[o := Rotator(RRecW, n, raw, 1, None)])
    ensures Grown(run, more)
  {
    var raw := SlotOf(kv, 0);
    var minted := RotationMints(run, n, kv, calls, o);
    RotationSteps(kv, n);
    var c1, c2 := Rotator(RProbe, n, raw, 0, None), Rotator(RRecW, n, raw, 0, None);
    FirstFlight(o, c2, PutRecord(Minted0(n)));
    more := Stepped(minted, n + 1, kv, {}, calls[o := c1], o, Send(c2, PutRecord(Minted0(n))));
    Again(calls, o, c1, c2.(sent := 1));
    GrownTwice(run, minted, more);
  }

  lemma Sent(calls: map<nat, Call>, o: nat, c: Call, d: Call, v: Write)
    ensures CallsAfter(calls[o := c], o, Send(d, v)) == calls[o := d.(sent := d.sent + 1)]
    ensures FlightAfter({}, o, Send(d, v)) == {Req(o, d.sent, v)}
  {
    Again(calls, o, c, d.(sent := d.sent + 1));
  }

  /** An answer that leads to the call's next write. */
  lemma Onward(run: Run, n: nat, kv: Kv, calls: map<nat, Call>, o: nat, c: Call, k: nat, w: Write, d: Call, v: Write)
    returns (more: Run)
    requires Reached(run, n, kv, {Req(o, k, w)}, calls[o := c]) && Waiting(c.pc) && k + 1 == c.sent
    requires Answered(c, Takes(kv, w), Draw(n)) == Send(d, v)
    ensures Reached(more, n + 1, Landed(kv, w), {Req(o, d.sent, v)}, calls[o := d.(sent := d.sent + 1)]) && Grown(run, more)
  {
    Sent(calls, o, c, d, v);
    more := Heard(run, n, kv, calls[o := c], Req(o, k, w), Send(d, v));
  }

  /** It writes the lookup. */
  lemma RotationLooksUp(run: Run, n: nat, kv: Kv, calls: map<nat, Call>, o: nat) returns (more: Run)
    requires Reached(run, n, kv, {}, calls) && o !in calls && n !in kv.lookups
    ensures Reached(more, n + 3, Filed(kv, n), {Req(o, 1, PutLookup(n, n))},
                    calls[o := Rotator(RLkW, n, SlotOf(kv, 0), 2, None)])
    ensures Grown(run, more)
  {
    var raw := SlotOf(kv, 0);
    var recorded := RotationRecords(run, n, kv, calls, o);
    RotationSteps(kv, n);
    var c1, c2 := Rotator(RRecW, n, raw, 1, None), Rotator(RLkW, n, raw, 1, None);
    more := Onward(recorded, n + 2, kv, calls, o, c1, 0, PutRecord(Minted0(n)), c2, PutLookup(n, n));
    GrownTwice(run, recorded, more);
  }

  /** With record and lookup in place it proposes. */
  lemma RotationProposes(run: Run, n: nat, kv: Kv, calls: map<nat, Call>, o: nat) returns (more: Run)
    requires Reached(run, n, kv, {}, calls) && o !in calls && n !in kv.lookups
    ensures var raw := SlotOf(kv, 0);
      Reached(more, n + 4, Found(kv, n), {Req(o, 2, SwapSlot(0, raw, Issued(n, 5)))},
              calls[o := Rotator(RCommitW, n, raw, 3, Some(2))])
    ensures Grown(run, more)
  {
    var raw := SlotOf(kv, 0);
    var found := RotationLooksUp(run, n, kv, calls, o);
    RotationSteps(kv, n);
    var c2, c3 := Rotator(RLkW, n, raw, 2, None), Rotator(RCommitW, n, raw, 2, Some(2));
    more := Onward(found, n + 3, Filed(kv, n), calls, o, c2, 1, PutLookup(n, n), c3, SwapSlot(0, raw, Issued(n, 5)));
    GrownTwice(run, found, more);
  }

  lemma Rotates(kv: Kv, n: nat)
    ensures var w := SwapSlot(0, SlotOf(kv, 0), Issued(n, 5));
      Takes(Found(kv, n), w) && Landed(Found(kv, n), w) == Rotated(kv, n)
  {
  }

  /** A rotation that nothing disturbs. */
  lemma Rotation(run: Run, n: nat, kv: Kv, calls: map<nat, Call>, o: nat) returns (more: Run)
    requires Reached(run, n, kv, {}, calls) && o !in calls && n !in kv.lookups
    ensures Reached(more, n + 5, Rotated(kv, n), {},
                    calls[o := Rotator(Done(Ok(Some(Issued(n, 5)))), n, SlotOf(kv, 0), 3, Some(2))])
    ensures Grown(run, more)
  {
    var raw := SlotOf(kv, 0);
    var proposed := RotationProposes(run, n, kv, calls, o);
    RotationSteps(kv, n);
    var c3, c4 := Rotator(RCommitW, n, raw, 3, Some(2)), Rotator(Done(Ok(Some(Issued(n, 5)))), n, raw, 3, Some(2));
    Rotates(kv, n);
    more := Heard(proposed, n + 4, Found(kv, n), calls[o := c3], Req(o, 2, SwapSlot(0, raw, Issued(n, 5))), Go(c4));
    Again(calls, o, c3, c4);
    GrownTwice(run, proposed, more);
  }

  const Gone: Slot := Revoked(5, 15)

  function Asked(demand: Demand): Call { Fresh0(Revoke, VRead).(demand := demand) }

  function Revoker(demand: Demand, pc: Pc, sent: nat): Call {
    Fresh0(Revoke, pc).(demand := demand, raw := Some(Issued(10, 5)), rid := 15, at := 5, sent := sent)
  }

  function Cleared(kv: Kv): Kv { kv.(slots := kv.slots[0 := Gone]) }

  /** Where a revocation goes on when its swap is not answered. */
  function Retry(demand: Demand): Pc { if demand.Unconditional? then VLoop else VSettle }

  lemma RevocationRead(kv: Kv, demand: Demand)
    requires SlotOf(kv, 0) == Some(Issued(10, 5)) && Matches(demand, Some(Issued(10, 5)))
    ensures Proceed(Asked(demand), kv, [0], Draw(15)) == Send(Revoker(demand, VSwapW, 0), SwapSlot(0, Some(Issued(10, 5)), Gone))
  {
  }

  lemma RevocationBreaks(demand: Demand)
    ensures Failed(Revoker(demand, VSwapW, 1), false) == Go(Revoker(demand, Retry(demand), 1))
  {
  }

  lemma Revokes(kv: Kv, slot: Slot)
    requires SlotOf(kv, 0) == Some(slot)
    ensures Takes(kv, SwapSlot(0, Some(slot), Gone)) && Landed(kv, SwapSlot(0, Some(slot), Gone)) == Cleared(kv)
  {
  }

  lemma RevocationAgain(kv: Kv, slot: Slot)
    requires SlotOf(kv, 0) == Some(slot) && slot.Issued?
    ensures Proceed(Revoker(Unconditional, VLoop, 1), kv, [0], Draw(22))
            == Send(Revoker(Unconditional, VLoopW, 1), SwapSlot(0, Some(slot), Gone))
    ensures Answered(Revoker(Unconditional, VLoopW, 2), true, Draw(23)) == Go(Revoker(Unconditional, Done(Ok(Some(Gone))), 2))
  {
  }

  /** A revocation that has issued its swap. */
  lemma Revoking(run: Run, kv: Kv, calls: map<nat, Call>, demand: Demand) returns (more: Run)
    requires Reached(run, 15, kv, {}, calls) && 1 !in calls
    requires SlotOf(kv, 0) == Some(Issued(10, 5)) && Matches(demand, Some(Issued(10, 5)))
    ensures Reached(more, 16, kv, {Req(1, 0, SwapSlot(0, Some(Issued(10, 5)), Gone))}, calls[1 := Revoker(demand, VSwapW, 1)])
    ensures Grown(run, more)
  {
    RevocationRead(kv, demand);
    var w := SwapSlot(0, Some(Issued(10, 5)), Gone);
    var begun := Begun(run, 15, kv, {}, calls, 1, Asked(demand));
    FirstFlight(1, Revoker(demand, VSwapW, 0), w);
    more := Stepped(begun, 15, kv, {}, calls[1 := Asked(demand)], 1, Send(Revoker(demand, VSwapW, 0), w));
    Again(calls, 1, Asked(demand), Revoker(demand, VSwapW, 1));
    GrownTwice(run, begun, more);
  }

  /** The last step of the run is the landing of that first swap. */
  predicate SwapLanded(run: Run) {
    && |run.states| == |run.events| + 1 && |run.events| > 0
    && run.events[|run.events| - 1] == Land(Req(1, 0, SwapSlot(0, Some(Issued(10, 5)), Gone)))
    && SlotOf(run.states[|run.events| - 1].kv, 0) == Some(Issued(10, 5)) && SlotOf(Last(run).kv, 0) == Some(Gone)
  }

  /** A revocation that no longer waits for its swap. */
  lemma BrokenRevocation(run: Run, kv: Kv, calls: map<nat, Call>, demand: Demand) returns (more: Run)
    requires Reached(run, 15, kv, {}, calls) && 1 !in calls
    requires SlotOf(kv, 0) == Some(Issued(10, 5)) && Matches(demand, Some(Issued(10, 5)))
    ensures Reached(more, 17, kv, {Req(1, 0, SwapSlot(0, Some(Issued(10, 5)), Gone))},
                    calls[1 := Revoker(demand, Retry(demand), 1)])
    ensures Grown(run, more)
  {
    var w := SwapSlot(0, Some(Issued(10, 5)), Gone);
    var c, d := Revoker(demand, VSwapW, 1), Revoker(demand, Retry(demand), 1);
    var sent := Revoking(run, kv, calls, demand);
    RevocationBreaks(demand);
    more := Broke(sent, 16, kv, {Req(1, 0, w)}, calls[1 := c], 1, d);
    Again(calls, 1, c, d);
    GrownTwice(run, sent, more);
  }

  /** Its answer is lost, although its swap lands. */
  lemma LostRevocation(run: Run, kv: Kv, calls: map<nat, Call>, demand: Demand) returns (more: Run)
    requires Reached(run, 15, kv, {}, calls) && 1 !in calls
    requires SlotOf(kv, 0) == Some(Issued(10, 5)) && Matches(demand, Some(Issued(10, 5)))
    ensures Reached(more, 17, Cleared(kv), {}, calls[1 := Revoker(demand, Retry(demand), 1)]) && Grown(run, more)
    ensures SwapLanded(more)
  {
    var r := Req(1, 0, SwapSlot(0, Some(Issued(10, 5)), Gone));
    var broken := BrokenRevocation(run, kv, calls, demand);
    Revokes(kv, Issued(10, 5));
    more := Arrived(broken, 17, kv, calls[1 := Revoker(demand, Retry(demand), 1)], r);
    GrownTwice(run, broken, more);
    LandsLast(broken, more, kv);
  }

  lemma LandsLast(run: Run, more: Run, kv: Kv)
    requires |run.states| == |run.events| + 1 && Last(run).kv == kv && more.states != [] && Last(more).kv == Cleared(kv)
    requires SlotOf(kv, 0) == Some(Issued(10, 5)) && Grown(run, more)
    requires more.events == run.events + [Land(Req(1, 0, SwapSlot(0, Some(Issued(10, 5)), Gone)))]
    requires |more.states| == |run.states| + 1
    ensures SwapLanded(more)
  {
  }

  /** It tries again, with the same id and at the same reading of the clock. */
  lemma SecondRevocation(run: Run, kv: Kv, calls: map<nat, Call>, slot: Slot) returns (more: Run)
    requires Reached(run, 22, kv, {}, calls) && 1 in calls && calls[1] == Revoker(Unconditional, VLoop, 1)
    requires SlotOf(kv, 0) == Some(slot) && slot.Issued?
    ensures Reached(more, 24, Cleared(kv), {}, calls[1 := Revoker(Unconditional, Done(Ok(Some(Gone))), 2)]) && Grown(run, more)
  {
    RevocationAgain(kv, slot);
    Revokes(kv, slot);
    var w, d := SwapSlot(0, Some(slot), Gone), Revoker(Unconditional, Done(Ok(Some(Gone))), 2);
    FirstFlight(1, Revoker(Unconditional, VLoopW, 1), w);
    var sent := Stepped(run, 22, kv, {}, calls, 1, Send(Revoker(Unconditional, VLoopW, 1), w));
    more := Heard(sent, 23, kv, calls[1 := Revoker(Unconditional, VLoopW, 2)], Req(1, 1, w), Go(d));
    Again(calls, 1, Revoker(Unconditional, VLoopW, 2), d);
    GrownTwice(run, sent, more);
  }

  /** The rotation that the two runs below start with, and the one after the lost revocation. */
  function Finished(n: nat, raw: Option<Slot>): Call { Rotator(Done(Ok(Some(Issued(n, 5)))), n, raw, 3, Some(2)) }

  lemma FirstRotation() returns (run: Run)
    ensures Reached(run, 15, Rotated(Old, 10), {}, map[0 := Finished(10, None)])
  {
    run := Opened();
    run := Rotation(run, 10, Old, map[], 0);
    assert map[][0 := Finished(10, None)] == map[0 := Finished(10, None)];
  }

  lemma RevokedThenRotated(demand: Demand) returns (first: Run, second: Run)
    requires Matches(demand, Some(Issued(10, 5)))
    ensures var calls := map[0 := Finished(10, None), 1 := Revoker(demand, Retry(demand), 1)];
      && Reached(first, 17, Cleared(Rotated(Old, 10)), {}, calls)
      && Reached(second, 22, Rotated(Cleared(Rotated(Old, 10)), 17), {}, calls[2 := Finished(17, Some(Gone))])
    ensures Grown(first, second) && SwapLanded(first)
  {
    var run := FirstRotation();
    first := LostRevocation(run, Rotated(Old, 10), map[0 := Finished(10, None)], demand);
    var c := Revoker(demand, Retry(demand), 1);
    assert map[0 := Finished(10, None)][1 := c] == map[0 := Finished(10, None), 1 := c];
    second := Rotation(first, 17, Cleared(Rotated(Old, 10)), map[0 := Finished(10, None), 1 := c], 2);
  }

  /** A slot is left at one value, moves on, and is back at that very value: its revision comes back with it. */
  lemma RevokedValueReturns() returns (run: Run, i: nat, j: nat, k: nat)
    ensures ValidRun(run) && i < j < k < |run.states|
    ensures SlotOf(run.states[i].kv, 0) == Some(Gone) && SlotOf(run.states[j].kv, 0) == Some(Issued(17, 5))
    ensures SlotOf(run.states[k].kv, 0) == Some(Gone)
  {
    var first, second := RevokedThenRotated(Unconditional);
    var calls := map[0 := Finished(10, None), 1 := Revoker(Unconditional, VLoop, 1)][2 := Finished(17, Some(Gone))];
    run := SecondRevocation(second, Rotated(Cleared(Rotated(Old, 10)), 17), calls, Issued(17, 5));
    i, j, k := |first.states| - 1, |second.states| - 1, |run.states| - 1;
    Differ(first, second, run);
  }

  lemma Differ(first: Run, second: Run, third: Run)
    requires first.states != [] && first.states <= second.states <= third.states
    requires SlotOf(Last(first).kv, 0) != SlotOf(Last(second).kv, 0)
    requires SlotOf(Last(second).kv, 0) != SlotOf(Last(third).kv, 0)
    ensures |first.states| < |second.states| < |third.states|
  {
  }

  /* ---- slot_changed after the call's own commit ---------------------------------------------- */

  lemma SettlesElsewhere(kv: Kv)
    requires SlotOf(kv, 0) == Some(Issued(17, 5))
    ensures var demand := At(Some(Issued(10, 5)));
      Proceed(Revoker(demand, VSettle, 1), kv, [0], Draw(22)) == Go(Revoker(demand, Done(SlotChanged), 1))
  {
  }

  /** A conditional revocation of the first rotation that settles an unanswered swap. */
  predicate Unheard(c: Call) {
    c.kind.Revoke? && c.demand == At(Some(Issued(10, 5))) && c.raw == Some(Issued(10, 5)) && c.pc.VSettle?
  }

  lemma Settled(run: Run, kv: Kv, calls: map<nat, Call>) returns (more: Run)
    requires Reached(run, 22, kv, {}, calls) && SlotOf(kv, 0) == Some(Issued(17, 5))
    requires 1 in calls && calls[1] == Revoker(At(Some(Issued(10, 5))), VSettle, 1)
    ensures ValidRun(more) && Grown(run, more) && |more.states| == |run.states| + 1 && |more.events| == |run.events| + 1
    ensures 1 in Last(run).calls && Unheard(Last(run).calls[1])
    ensures 1 in Last(more).calls && Last(more).calls[1].pc == Done(SlotChanged)
  {
    SettlesElsewhere(kv);
    more := Read(run, 22, kv, {}, calls, 1, Revoker(At(Some(Issued(10, 5))), Done(SlotChanged), 1));
  }

  lemma StaysInside(first: Run, second: Run, run: Run)
    requires SwapLanded(first) && Grown(first, second) && Grown(second, run) && |second.states| == |second.events| + 1
    requires |run.states| == |second.states| + 1
    ensures var j, i := |first.events| - 1, |second.events|;
      && j < i < |run.states| - 1 && j < |run.events|
      && run.events[j] == first.events[j] && run.states[j] == first.states[j] && run.states[j + 1] == Last(first)
      && run.states[i] == Last(second) && run.states[i + 1] == Last(run)
  {
  }

  /**
   A revocation conditional on the slot it read commits from exactly that slot,
   hears nothing, and, after another rotation, reports `slot_changed`.
   */
  lemma ChangedAfterOwnCommit() returns (run: Run, j: nat, i: nat)
    ensures ValidRun(run) && j < i < |run.events| && |run.states| == |run.events| + 1
    ensures run.events[j] == Land(Req(1, 0, SwapSlot(0, Some(Issued(10, 5)), Gone)))
    ensures SlotOf(run.states[j].kv, 0) == Some(Issued(10, 5)) && SlotOf(run.states[j + 1].kv, 0) == Some(Gone)
    ensures 1 in run.states[i].calls && 1 in run.states[i + 1].calls
    ensures Unheard(run.states[i].calls[1]) && run.states[i + 1].calls[1].pc == Done(SlotChanged)
  {
    var first, second, third := SettledRun();
    StaysInside(first, second, third);
    run, j, i := third, |first.events| - 1, |second.events|;
  }

  lemma SettledRun() returns (first: Run, second: Run, third: Run)
    ensures SwapLanded(first) && Grown(first, second) && Grown(second, third)
    ensures |second.states| == |second.events| + 1 && |third.states| == |second.states| + 1
    ensures ValidRun(third) && |third.states| == |third.events| + 1
    ensures 1 in Last(second).calls && Unheard(Last(second).calls[1])
    ensures 1 in Last(third).calls && Last(third).calls[1].pc == Done(SlotChanged)
  {
    var demand := At(Some(Issued(10, 5)));
    first, second := RevokedThenRotated(demand);
    var calls := map[0 := Finished(10, None), 1 := Revoker(demand, VSettle, 1)][2 := Finished(17, Some(Gone))];
    third := Settled(second, Rotated(Cleared(Rotated(Old, 10)), 17), calls);
  }
}
