/**
 * A concrete run in which an expired catalog stands in although its generation has just been replaced: the
 * replacement lands between the generation check and the fence read.
 */
module CatalogCacheExamples {
  import opened Options
  import opened CatalogCacheModel

  function Last(run: Run): State
    requires run.states != []
  {
    run.states[|run.states| - 1]
  }

  lemma Extend(run: Run, e: Event) returns (more: Run)
    requires ValidRun(run) && Enabled(Last(run), e)
    ensures ValidRun(more) && more.events == run.events + [e] && more.states == run.states + [Apply(Last(run), e)]
  {
    more := Run(run.states + [Apply(Last(run), e)], run.events + [e]);
    assert Stepped(Last(run), e, Apply(Last(run), e));
  }

  /** Every step draws the next number, at one time. */
  function Draw(n: nat): Fresh { Fresh(n, 5, 9) }

  /** Where the run stands: every number drawn is below `n`, and the generation of the calls is 0. */
  ghost predicate Here(s: State, n: nat, kv: Kv, flight: set<Req>, calls: map<nat, Call>) {
    && s.kv == kv && s.flight == flight && s.calls == calls && n > 0 && (forall u :: u in s.used ==> u < n)
    && (0 in s.bound || 0 !in s.used)
  }

  ghost predicate Reached(run: Run, n: nat, kv: Kv, flight: set<Req>, calls: map<nat, Call>) {
    var reached := ValidRun(run) && Here(Last(run), n, kv, flight, calls);
    reached
  }

  lemma Opened() returns (run: Run)
    ensures Reached(run, 1, Initial.kv, {}, map[])
  {
    run := Run([Initial], []);
  }

  function Caller(kind: Kind, pc: Pc, revision: nat, sent: nat, cast: Option<nat>): Call {
    Call(kind, Root(0, 0), Root(0, 1), None, [], revision, true, pc, sent, cast)
  }

  lemma Begun(run: Run, n: nat, kv: Kv, calls: map<nat, Call>, o: nat, kind: Kind) returns (more: Run)
    requires Reached(run, n, kv, {}, calls) && o !in calls
    ensures Reached(more, n + 1, kv, {}, calls[o := Caller(kind, FirstPc(kind), n, 0, None)])
  {
    more := Extend(run, Begin(o, Caller(kind, FirstPc(kind), n, 0, None)));
  }

  function CallsAfter(calls: map<nat, Call>, o: nat, m: Move): map<nat, Call> {
    match m case Go(d) => calls[o := d] case Send(d, _) => calls[o := d.(sent := d.sent + 1)]
  }

  function FlightAfter(o: nat, m: Move): set<Req> {
    match m case Go(_) => {} case Send(d, w) => {Req(o, d.sent, w)}
  }

  lemma Placed(s: State, n: nat, kv: Kv, calls: map<nat, Call>, o: nat, m: Move)
    requires Here(s, n, kv, {}, calls)
    ensures Here(Place(s, o, m, n), n + 1, kv, FlightAfter(o, m), CallsAfter(calls, o, m))
  {
  }

  /** One step of a call with no write on its way. */
  lemma Moved(run: Run, n: nat, kv: Kv, calls: map<nat, Call>, o: nat, m: Move) returns (more: Run)
    requires Reached(run, n, kv, {}, calls) && o in calls && !Waiting(calls[o].pc) && !calls[o].pc.Done?
    requires Proceed(calls[o], kv, Draw(n)) == m
    ensures Reached(more, n + 1, kv, FlightAfter(o, m), CallsAfter(calls, o, m))
    ensures |more.states| == |run.states| + 1 && more.states[|run.states| - 1] == Last(run)
    ensures more.events == run.events + [Step(o, Draw(n))]
  {
    more := Extend(run, Step(o, Draw(n)));
    Placed(Last(run), n, kv, calls, o, m);
  }

  lemma Delivered(s: State, n: nat, kv: Kv, calls: map<nat, Call>, r: Req)
    requires Here(s, n, kv, {r}, calls)
    ensures var t := Deliver(s, r);
      t.kv == Landed(kv, r.w) && t.flight == {} && t.calls == calls && t.used == s.used && s.bound <= t.bound
  {
  }

  /** A write lands and its caller hears of it. */
  lemma Heard(run: Run, n: nat, kv: Kv, calls: map<nat, Call>, r: Req, d: Call) returns (more: Run)
    requires Reached(run, n, kv, {r}, calls) && r.op in calls && Waiting(calls[r.op].pc) && r.n + 1 == calls[r.op].sent
    requires 0 < calls[r.op].revision < n && Answered(calls[r.op], Takes(kv, r.w)) == Go(d)
    ensures Reached(more, n, Landed(kv, r.w), {}, calls[r.op := d])
  {
    more := Extend(run, Reply(r));
    Delivered(Last(run), n, kv, calls, r);
  }

  lemma Arrived(run: Run, n: nat, kv: Kv, calls: map<nat, Call>, r: Req) returns (more: Run)
    requires Reached(run, n, kv, {r}, calls)
    ensures Reached(more, n, Landed(kv, r.w), {}, calls)
  {
    more := Extend(run, Land(r));
    Delivered(Last(run), n, kv, calls, r);
  }

  /* ---- A set publishes an empty value ------------------------------------------------------- */

  const Shown: Manifest := Manifest(1, 0, "", 5, 9)
  const Claimed: Kv := Kv(Some(0), map[], map[], map[])
  const Stored: Kv := Kv(Some(0), map[Root(0, 0) := Shown], map[], map[])
  const Publication0: Write := Publish(Root(0, 0), None, Shown)

  function Setter(pc: Pc, sent: nat, cast: Option<nat>): Call { Caller(Set, pc, 1, sent, cast) }

  lemma One(c: Call, m: Move)
    ensures CallsAfter(map[0 := c], 0, m) == map[0 := if m.Go? then m.call else m.call.(sent := m.call.sent + 1)]
  {
  }

  lemma UpToClaim() returns (run: Run)
    ensures Reached(run, 4, Initial.kv, {Req(0, 0, Claim(0))}, map[0 := Setter(SClaimW, 1, None)])
  {
    run := Opened();
    run := Begun(run, 1, Initial.kv, map[], 0, Set);
    assert map[][0 := Setter(SChunk(0), 0, None)] == map[0 := Setter(SChunk(0), 0, None)];
    One(Setter(SChunk(0), 0, None), Go(Setter(SCheck, 0, None)));
    run := Moved(run, 2, Initial.kv, map[0 := Setter(SChunk(0), 0, None)], 0, Go(Setter(SCheck, 0, None)));
    One(Setter(SCheck, 0, None), Send(Setter(SClaimW, 0, None), Claim(0)));
    run := Moved(run, 3, Initial.kv, map[0 := Setter(SCheck, 0, None)], 0, Send(Setter(SClaimW, 0, None), Claim(0)));
  }

  lemma UpToPublish() returns (run: Run)
    ensures Reached(run, 5, Claimed, {Req(0, 1, Publication0)}, map[0 := Setter(SPublishW(None, Shown), 2, Some(1))])
  {
    run := UpToClaim();
    run := Heard(run, 4, Initial.kv, map[0 := Setter(SClaimW, 1, None)], Req(0, 0, Claim(0)), Setter(SRead, 1, None));
    assert Landed(Initial.kv, Claim(0)) == Claimed;
    assert map[0 := Setter(SClaimW, 1, None)][0 := Setter(SRead, 1, None)] == map[0 := Setter(SRead, 1, None)];
    var m := Send(Setter(SPublishW(None, Shown), 1, Some(1)), Publication0);
    One(Setter(SRead, 1, None), m);
    run := Moved(run, 4, Claimed, map[0 := Setter(SRead, 1, None)], 0, m);
  }

  lemma UpToStored() returns (run: Run)
    ensures Reached(run, 5, Stored, {}, map[0 := Setter(SLift, 2, Some(1))])
  {
    run := UpToPublish();
    var c, d := Setter(SPublishW(None, Shown), 2, Some(1)), Setter(SLift, 2, Some(1));
    run := Heard(run, 5, Claimed, map[0 := c], Req(0, 1, Publication0), d);
    assert Landed(Claimed, Publication0) == Stored;
    assert map[0 := c][0 := d] == map[0 := d];
  }

  /* ---- The catalog is read to stand in ------------------------------------------------------ */

  function Reader(pc: Pc): Call { Caller(Stale, pc, 5, 0, None) }

  function Both(pc: Pc): map<nat, Call> { map[0 := Setter(SLift, 2, Some(1)), 1 := Reader(pc)] }

  lemma Next(run: Run, n: nat, kv: Kv, pc: Pc, next: Pc) returns (more: Run)
    requires Reached(run, n, kv, {}, Both(pc)) && !Waiting(pc) && !pc.Done?
    requires Proceed(Reader(pc), kv, Draw(n)) == Go(Reader(next))
    ensures Reached(more, n + 1, kv, {}, Both(next))
  {
    more := Moved(run, n, kv, Both(pc), 1, Go(Reader(next)));
    assert CallsAfter(Both(pc), 1, Go(Reader(next))) == Both(next);
  }

  lemma ReadSteps()
    ensures Proceed(Reader(GRead), Stored, Draw(6)) == Go(Reader(GChunk(Shown, [])))
    ensures Proceed(Reader(GChunk(Shown, [])), Stored, Draw(7)) == Go(Reader(GCheck(Shown, [])))
    ensures Proceed(Reader(GCheck(Shown, [])), Stored, Draw(8)) == Go(Reader(TCheck(Shown, [])))
    ensures Proceed(Reader(TCheck(Shown, [])), Stored, Draw(9)) == Go(Reader(TFence(Shown, [])))
  {
  }

  lemma UpToAsked() returns (run: Run)
    ensures Reached(run, 6, Stored, {}, Both(GRead))
  {
    run := UpToStored();
    run := Begun(run, 5, Stored, map[0 := Setter(SLift, 2, Some(1))], 1, Stale);
    assert map[0 := Setter(SLift, 2, Some(1))][1 := Reader(GRead)] == Both(GRead);
  }

  lemma UpToRead() returns (run: Run)
    ensures Reached(run, 8, Stored, {}, Both(GCheck(Shown, [])))
  {
    run := UpToAsked();
    ReadSteps();
    run := Next(run, 6, Stored, GRead, GChunk(Shown, []));
    run := Next(run, 7, Stored, GChunk(Shown, []), GCheck(Shown, []));
  }

  lemma UpToFence() returns (run: Run)
    ensures Reached(run, 10, Stored, {}, Both(TFence(Shown, [])))
  {
    run := UpToRead();
    ReadSteps();
    run := Next(run, 8, Stored, GCheck(Shown, []), TCheck(Shown, []));
    run := Next(run, 9, Stored, TCheck(Shown, []), TFence(Shown, []));
  }

  /* ---- The generation is replaced meanwhile ------------------------------------------------- */

  function Replacer(pc: Pc, sent: nat): Call { Caller(Invalidate, pc, 10, sent, None) }

  const Replaced: Kv := Stored.(gen := Some(11))

  lemma UpToReplacing() returns (run: Run)
    ensures Reached(run, 12, Stored, {Req(2, 0, Replace(11))}, Both(TFence(Shown, []))[2 := Replacer(IReplaceW, 1)])
  {
    run := UpToFence();
    var calls := Both(TFence(Shown, []));
    run := Begun(run, 10, Stored, calls, 2, Invalidate);
    var m := Send(Replacer(IReplaceW, 0), Replace(11));
    run := Moved(run, 11, Stored, calls[2 := Replacer(IReplace, 0)], 2, m);
    assert CallsAfter(calls[2 := Replacer(IReplace, 0)], 2, m) == calls[2 := Replacer(IReplaceW, 1)];
  }

  lemma UpToReplaced() returns (run: Run)
    ensures Reached(run, 12, Replaced, {}, Both(TFence(Shown, []))[2 := Replacer(IReplaceW, 1)])
  {
    run := UpToReplacing();
    var calls := Both(TFence(Shown, []));
    run := Arrived(run, 12, Stored, calls[2 := Replacer(IReplaceW, 1)], Req(2, 0, Replace(11)));
    assert Landed(Stored, Replace(11)) == Replaced;
  }

  /** The fence read then lets the catalog of a replaced generation stand in. */
  lemma StandsInAfterReplacement() returns (run: Run, i: nat)
    ensures ValidRun(run) && i < |run.events| && |run.states| == |run.events| + 1
    ensures 1 in run.states[i].calls && run.states[i].calls[1].pc.TFence?
    ensures 1 in run.states[i + 1].calls && run.states[i + 1].calls[1].pc == Done(Stood(""))
    ensures run.states[i].kv.gen != Some(run.states[i].calls[1].root.gen)
  {
    var until := UpToReplaced();
    var calls := Both(TFence(Shown, []))[2 := Replacer(IReplaceW, 1)];
    run := Moved(until, 12, Replaced, calls, 1, Go(Reader(Done(Stood("")))));
    i := |until.events|;
  }
}
