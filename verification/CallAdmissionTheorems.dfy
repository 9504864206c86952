/** What holds over every run of call admission. */
module CallAdmissionTheorems {
  import opened Options
  import opened CallAdmissionModel
  import opened CallAdmissionInvariant
  import opened CallAdmissionEvents

  /* ---- Runs ------------------------------------------------------------------------------ */

  datatype Event =
    | Call(key: KeyResult, aborted: bool, abortedByKey: bool, now: nat)
    | Done(permit: nat, ticks: seq<nat>)
    | Extra(permit: nat, aborted: bool, now: nat)
    | TimesOut(waiter: nat, now: nat, ticks: seq<nat>)
    | Aborts(waiter: nat, now: nat, ticks: seq<nat>)
    | Interrupts(waiter: nat, now: nat, ticks: seq<nat>)
    | Hears(waiter: nat, ticks: seq<nat>)
    | Closes
    | AsksIdle(now: nat)

  /** A waiting call whose fate is still to be heard. */
  predicate Waits(s: State, w: nat) {
    w !in s.ended && (Queued(s, w) || (w in s.outcomes && (s.outcomes[w].Granted? ==> s.outcomes[w].permit < |s.permits|)))
  }

  predicate Enabled(s: State, e: Event) {
    match e
    case Call(_, _, _, now) => s.clock <= now
    case Done(p, _) => p < |s.permits|
    case Extra(p, _, now) => p < |s.permits| && s.clock <= now
    case TimesOut(w, now, _) => Waits(s, w) && s.clock <= now
    case Aborts(w, now, _) => Waits(s, w) && s.clock <= now
    case Interrupts(w, now, _) => Waits(s, w) && s.clock <= now
    case Hears(w, _) => Waits(s, w) && !Queued(s, w)
    case Closes => true
    case AsksIdle(now) => s.clock <= now
  }

  function Next(c: Config, s: State, e: Event): State
    requires Enabled(s, e)
  {
    match e
    case Call(key, aborted, abortedByKey, now) => Acquire(c, s, key, aborted, abortedByKey, now).0
    case Done(p, ticks) => Release(c, s, p, ticks)
    case Extra(p, aborted, now) => ChargePermit(c, s, p, aborted, now).0
    case TimesOut(w, now, ticks) => GiveUp(c, s, w, false, now, ticks)
    case Aborts(w, now, ticks) => GiveUp(c, s, w, true, now, ticks)
    case Interrupts(w, now, ticks) => Interrupt(c, s, w, now, ticks)
    case Hears(w, ticks) => Hear(c, s, w, ticks)
    case Closes => Close(s)
    case AsksIdle(now) => Evict(c, s.(clock := now), now)
  }

  datatype Run = Run(states: seq<State>, events: seq<Event>)

  ghost predicate ValidRun(c: Config, run: Run) {
    var valid :=
      && Accepted(c) && |run.states| == |run.events| + 1 && run.states[0] == Initial
      && (forall i {:trigger run.events[i]} :: 0 <= i < |run.events| ==>
            Stepped(c, run.states[i], run.events[i], run.states[i + 1]));
    valid
  }

  predicate Stepped(c: Config, s: State, e: Event, t: State) {
    var stepped := Enabled(s, e) && t == Next(c, s, e);
    stepped
  }

  lemma {:induction false} NextGood(c: Config, s: State, e: Event)
    requires Accepted(c) && Good(c, s) && Enabled(s, e)
    ensures Good(c, Next(c, s, e))
  {
    match e {
      case Call(key, aborted, abortedByKey, now) => AcquireGood(c, s, key, aborted, abortedByKey, now);
      case Done(p, ticks) => ReleaseGood(c, s, p, ticks);
      case Extra(p, aborted, now) => ChargeGood(c, s, p, aborted, now);
      case TimesOut(w, now, ticks) => GiveUpGood(c, s, w, false, now, ticks);
      case Aborts(w, now, ticks) => GiveUpGood(c, s, w, true, now, ticks);
      case Interrupts(w, now, ticks) => InterruptGood(c, s, w, now, ticks);
      case Hears(w, ticks) => HearGood(c, s, w, ticks);
      case Closes => CloseGood(c, s);
      case AsksIdle(now) => EvictGood(c, s, now);
    }
  }

  /** Every reachable state keeps every limit, the queue discipline and the books. */
  lemma {:induction false} RunGood(c: Config, run: Run, i: nat)
    requires ValidRun(c, run) && i < |run.states|
    ensures Good(c, run.states[i])
  {
    if i == 0 {
      InitialGood(c);
    } else {
      RunGood(c, run, i - 1);
      NextGood(c, run.states[i - 1], run.events[i - 1]);
    }
  }

  /**
   * In every reachable state a partition's active count is the number of its unreleased permits, every limit
   * holds, and calls wait only while all slots are taken; everything asked for is accounted for.
   */
  lemma {:induction false} LimitsHold(c: Config, run: Run, i: nat, key: string)
    requires ValidRun(c, run) && i < |run.states|
    ensures var s := run.states[i];
      && Of(s, key).active == Held(s.permits, key)
      && (c.maxConcurrency.Some? ==> Of(s, key).active <= c.maxConcurrency.value)
      && |Of(s, key).waiters| <= c.maxQueueSize && |s.partitions| <= c.maxPartitions
      && (Of(s, key).waiters != [] ==> c.maxConcurrency == Some(Of(s, key).active) && !s.closed)
    ensures var s := run.states[i];
      s.requests == |s.charges| + s.totals.rejected + s.totals.rateLimited + s.totals.cancelled + s.shut
                    + (|s.joined| - |s.outcomes|)
  {
    RunGood(c, run, i);
    assert SlotsKept(c, run.states[i], key) && Line(c, run.states[i], key) && Conserved(c, run.states[i], key);
  }

  /* ---- The rolling window ---------------------------------------------------------------- */

  /** How many of the times fall into the half-open window. */
  function CountIn(h: seq<nat>, from: int, to: int): nat {
    if h == [] then 0
    else
      var n := |h| - 1;
      CountIn(h[..n], from, to) + if from <= h[n] < to then 1 else 0
  }

  /** The sorted history splits at `x`. */
  predicate SplitsAt(h: seq<nat>, x: int, k: nat) {
    && k <= |h| && (forall i :: 0 <= i < k ==> h[i] < x) && (forall i :: k <= i < |h| ==> x <= h[i])
  }

  lemma {:induction false} Split(h: seq<nat>, x: int) returns (k: nat)
    requires Sorted(h)
    ensures SplitsAt(h, x, k)
  {
    if h == [] || h[|h| - 1] < x {
      k := |h|;
    } else {
      k := Split(h[..|h| - 1], x);
    }
  }

  /** The times of a window are the ones between its two split points. */
  lemma {:induction false} CountIsSpan(h: seq<nat>, from: int, to: int, lo: nat, hi: nat)
    requires from <= to && SplitsAt(h, from, lo) && SplitsAt(h, to, hi)
    ensures lo <= hi && CountIn(h, from, to) == hi - lo
  {
    if h != [] {
      var n := |h| - 1;
      CountIsSpan(h[..n], from, to, if lo > n then n else lo, if hi > n then n else hi);
    }
  }

  lemma {:induction false} WindowBound(b: Budget, h: seq<nat>, from: int)
    requires Sorted(h) && Spaced(b, h) && b.maxCalls >= 1
    ensures CountIn(h, from, from + b.windowMs) <= b.maxCalls
  {
    var lo := Split(h, from);
    var hi := Split(h, from + b.windowMs);
    CountIsSpan(h, from, from + b.windowMs, lo, hi);
    if lo + b.maxCalls < |h| { assert h[lo] + b.windowMs <= h[lo + b.maxCalls]; }
  }

  /** No window of the configured length ever holds more admissions and extra charges than the budget. */
  lemma {:induction false} RollingWindow(c: Config, run: Run, i: nat, key: string, from: int)
    requires ValidRun(c, run) && i < |run.states| && c.budget.Some?
    ensures CountIn(Times(run.states[i].charges, key), from, from + c.budget.value.windowMs) <= c.budget.value.maxCalls
  {
    RunGood(c, run, i);
    assert BudgetKept(c, run.states[i], key);
    WindowBound(c.budget.value, Times(run.states[i].charges, key), from);
  }

  /** A refusal's delay is the least after which the budget admits again, if nothing else is charged. */
  lemma {:induction false} RetryIsLeast(b: Budget, live: seq<nat>, h: seq<nat>, clock: nat, now: nat, delay: nat)
    requires b.maxCalls >= 1 && Remembers(b, live, h, clock) && clock <= now
    requires RetryAfter(Some(b), Pruned(Some(b), live, now), now).Some?
    ensures var ms := RetryAfter(Some(b), Pruned(Some(b), live, now), now).value;
      RetryAfter(Some(b), Pruned(Some(b), live, now + delay), now + delay).None? <==> delay >= ms
  {
    PrunedKeeps(b, live, h, clock, now);
    var full := Pruned(Some(b), live, now);
    PrunedTwice(Some(b), live, now, now + delay);
    PrunedKeeps(b, full, h, now, now + delay);
    var ms := RetryAfter(Some(b), full, now).value;
    if delay >= ms { PrunedKeeps(b, full[1..], h, now + delay, now + delay) by { StillRemembers(b, full, h, now, now + delay); } }
  }

  lemma {:induction false} PrunedTwice(budget: Option<Budget>, live: seq<nat>, now: nat, later: nat)
    requires now <= later
    ensures Pruned(budget, Pruned(budget, live, now), later) == Pruned(budget, live, later)
  {
    if budget.Some? && live != [] && live[0] + budget.value.windowMs <= now { PrunedTwice(budget, live[1..], now, later); }
  }

  lemma {:induction false} StillRemembers(b: Budget, live: seq<nat>, h: seq<nat>, clock: nat, now: nat)
    requires Remembers(b, live, h, clock) && clock <= now && live != [] && live[0] + b.windowMs <= now
    ensures Remembers(b, live[1..], h, now)
  {
    assert live[1..] == h[|h| - |live| + 1..];
  }

  /* ---- What no event takes back ----------------------------------------------------------- */

  /** Decisions, endings and returned permits stand; closing is final; the history only grows. */
  ghost predicate Onward(s: State, t: State) {
    var onward :=
      && s.clock <= t.clock && (s.closed ==> t.closed) && s.joined <= t.joined && s.charges <= t.charges
      && (forall w :: w in s.outcomes ==> w in t.outcomes && t.outcomes[w] == s.outcomes[w])
      && (forall w :: w in s.ended ==> w in t.ended && t.ended[w] == s.ended[w])
      && |s.permits| <= |t.permits|
      && (forall p :: 0 <= p < |s.permits| ==>
            t.permits[p].key == s.permits[p].key && (s.permits[p].released ==> t.permits[p].released));
    onward
  }

  lemma {:induction false} OnwardTrans(s: State, t: State, u: State)
    requires Onward(s, t) && Onward(t, u)
    ensures Onward(s, u)
  {
  }

  lemma {:induction false} PumpOnward(c: Config, s: State, key: string, ticks: seq<nat>)
    requires Accepted(c) && Serving(c, s, key)
    ensures Onward(s, Pump(c, s, key, ticks)) && Pump(c, s, key, ticks).ended == s.ended
    decreases |Of(s, key).waiters|
  {
    if Pumps(c, s, key) {
      var t := PumpOne(c, s, key, Tick(ticks));
      var granted := PumpOneServed(c, s, key, Tick(ticks));
      assert Line(c, s, key);
      ServedOnward(c, s, key, t, granted);
      PumpOneServing(c, s, key, Tick(ticks));
      PumpOnward(c, t, key, Later(ticks));
      OnwardTrans(s, t, Pump(c, t, key, Later(ticks)));
    }
  }

  lemma {:induction false} ServedOnward(c: Config, s: State, key: string, t: State, granted: bool)
    requires Line(c, s, key) && Served(c, s, key, t, granted)
    ensures Onward(s, t)
  {
  }

  lemma {:induction false} FreedOnward(s: State, p: nat)
    requires p < |s.permits|
    ensures Onward(s, Freed(s, p)) && Freed(s, p).ended == s.ended && Freed(s, p).permits[p].released
  {
  }

  lemma {:induction false} ReleaseOnward(c: Config, s: State, p: nat, ticks: seq<nat>)
    requires Accepted(c) && Good(c, s) && p < |s.permits|
    ensures var t := Release(c, s, p, ticks); Onward(s, t) && t.ended == s.ended && t.permits[p].released
  {
    if !s.permits[p].released {
      var t := Freed(s, p);
      FreedServing(c, s, p);
      FreedOnward(s, p);
      PumpOnward(c, t, s.permits[p].key, ticks);
      OnwardTrans(s, t, Release(c, s, p, ticks));
    }
  }

  lemma {:induction false} EndOnward(s: State, t: State, w: nat, end: Ending)
    requires Onward(s, t) && t.ended == s.ended && w !in s.ended
    ensures Onward(s, t.(ended := t.ended[w := end]))
  {
  }

  lemma {:induction false} HearOnward(c: Config, s: State, w: nat, ticks: seq<nat>)
    requires Accepted(c) && Good(c, s) && Waits(s, w) && w in s.outcomes
    requires s.outcomes[w].Granted? ==> s.outcomes[w].permit < |s.permits|
    ensures Onward(s, Hear(c, s, w, ticks))
  {
    if s.outcomes[w].Granted? && s.closed {
      ReleaseOnward(c, s, s.outcomes[w].permit, ticks);
      EndOnward(s, Release(c, s, s.outcomes[w].permit, ticks), w, Failed(Closed));
    }
  }

  /** Nothing is decided or ended, and what there was is still there. */
  lemma {:induction false} Grown(s: State, t: State)
    requires s.clock <= t.clock && t.closed == s.closed && s.joined <= t.joined && s.charges <= t.charges
    requires t.outcomes == s.outcomes && t.ended == s.ended && s.permits <= t.permits
    ensures Onward(s, t)
  {
  }

  lemma {:induction false} LeftDecides(s: State, w: nat, error: Error, end: Ending, cancel: bool, now: nat)
    requires w < |s.joined| && w !in s.outcomes && w !in s.ended && s.clock <= now
    ensures Onward(s, Left(s, w, error, end, cancel, now))
  {
  }

  lemma {:induction false} LeftOnward(c: Config, s: State, w: nat, error: Error, end: Ending, cancel: bool, now: nat)
    requires Good(c, s) && Queued(s, w) && w !in s.ended && s.clock <= now
    ensures Onward(s, Tidy(c, Left(s, w, error, end, cancel, now), s.joined[w], now))
  {
    assert Line(c, s, s.joined[w]);
    var t := Left(s, w, error, end, cancel, now);
    LeftDecides(s, w, error, end, cancel, now);
    Grown(t, Tidy(c, t, s.joined[w], now));
    OnwardTrans(s, t, Tidy(c, t, s.joined[w], now));
  }

  lemma {:induction false} GiveUpOnward(c: Config, s: State, w: nat, cancel: bool, now: nat, ticks: seq<nat>)
    requires Accepted(c) && Good(c, s) && Waits(s, w) && s.clock <= now
    ensures Onward(s, GiveUp(c, s, w, cancel, now, ticks))
  {
    if Queued(s, w) {
      var error := if cancel then Cancelled else Concurrency(c.retryAfterMs);
      LeftOnward(c, s, w, error, Failed(error), cancel, now);
    } else {
      HearOnward(c, s, w, ticks);
    }
  }

  lemma {:induction false} InterruptOnward(c: Config, s: State, w: nat, now: nat, ticks: seq<nat>)
    requires Accepted(c) && Good(c, s) && Waits(s, w) && s.clock <= now
    ensures Onward(s, Interrupt(c, s, w, now, ticks))
  {
    if Queued(s, w) {
      LeftOnward(c, s, w, Cancelled, Interrupted, true, now);
    } else if s.outcomes[w].Granted? {
      ReleaseOnward(c, s, s.outcomes[w].permit, ticks);
      EndOnward(s, Release(c, s, s.outcomes[w].permit, ticks), w, Interrupted);
    } else {
      Grown(s, s);
      EndOnward(s, s, w, Interrupted);
    }
  }

  lemma {:induction false} AcquireOnward(c: Config, s: State, key: KeyResult, aborted: bool, abortedByKey: bool, now: nat)
    requires s.clock <= now
    ensures Onward(s, Acquire(c, s, key, aborted, abortedByKey, now).0)
  {
    if TurnedAway(s, key, aborted, abortedByKey) {
      QuietStart(c, s, now, "");
      TurnAwayOnward(s, Begin(s, now), key, aborted);
    } else {
      QuietStart(c, s, now, key.key);
      LocateOnward(s, c, MakeRoom(c, Begin(s, now), key.key), key.key);
    }
  }

  lemma {:induction false} QuietStart(c: Config, s: State, now: nat, key: string)
    requires s.clock <= now
    ensures Quiet(s, Begin(s, now)) && Quiet(s, MakeRoom(c, Begin(s, now), key))
  {
  }

  lemma {:induction false} TurnAwayOnward(s: State, t: State, key: KeyResult, aborted: bool)
    requires Quiet(s, t)
    ensures Onward(s, TurnAway(t, key, aborted).0)
  {
    Grown(s, TurnAway(t, key, aborted).0);
  }

  /** Only the clock, the counters and the partitions differ. */
  predicate Quiet(s: State, t: State) {
    var quiet :=
      && s.clock <= t.clock && t.closed == s.closed && t.joined == s.joined && t.charges == s.charges
      && t.outcomes == s.outcomes && t.ended == s.ended && t.permits == s.permits;
    quiet
  }

  lemma {:induction false} LocateOnward(s: State, c: Config, t: State, key: string)
    requires Quiet(s, t)
    ensures Onward(s, Locate(c, t, key).0)
  {
    if key !in t.partitions && |t.partitions| >= c.maxPartitions {
      Grown(s, Reject(t));
    } else {
      EnterOnward(s, c, PruneAt(c, t, key), key);
    }
  }

  lemma {:induction false} EnterOnward(s: State, c: Config, t: State, key: string)
    requires Quiet(s, t)
    ensures Onward(s, Enter(c, t, key).0)
  {
    Grown(s, Enter(c, t, key).0);
  }

  lemma {:induction false} ChargeOnward(c: Config, s: State, p: nat, aborted: bool, now: nat)
    requires s.clock <= now && p < |s.permits|
    ensures Onward(s, ChargePermit(c, s, p, aborted, now).0)
  {
    Grown(s, ChargePermit(c, s, p, aborted, now).0);
  }

  lemma {:induction false} CloseOnward(s: State)
    ensures Onward(s, Close(s))
  {
  }

  lemma {:induction false} EvictOnward(c: Config, s: State, now: nat)
    requires s.clock <= now
    ensures Onward(s, Evict(c, s.(clock := now), now))
  {
    Grown(s, Evict(c, s.(clock := now), now));
  }

  lemma {:induction false} NextOnward(c: Config, s: State, e: Event)
    requires Accepted(c) && Good(c, s) && Enabled(s, e)
    ensures Onward(s, Next(c, s, e))
  {
    match e {
      case Call(key, aborted, abortedByKey, now) => AcquireOnward(c, s, key, aborted, abortedByKey, now);
      case Done(p, ticks) => ReleaseOnward(c, s, p, ticks);
      case Extra(p, aborted, now) => ChargeOnward(c, s, p, aborted, now);
      case TimesOut(w, now, ticks) => GiveUpOnward(c, s, w, false, now, ticks);
      case Aborts(w, now, ticks) => GiveUpOnward(c, s, w, true, now, ticks);
      case Interrupts(w, now, ticks) => InterruptOnward(c, s, w, now, ticks);
      case Hears(w, ticks) => HearOnward(c, s, w, ticks);
      case Closes => CloseOnward(s);
      case AsksIdle(now) => EvictOnward(c, s, now);
    }
  }

  /** Each waiter is decided once and ends once; a permit given back stays given back. */
  lemma {:induction false} DecidedOnce(c: Config, run: Run, i: nat, j: nat)
    requires ValidRun(c, run) && i <= j < |run.states|
    ensures Onward(run.states[i], run.states[j])
    decreases j - i
  {
    if i == j {
      Grown(run.states[i], run.states[i]);
    } else {
      DecidedOnce(c, run, i, j - 1);
      OnwardStep(c, run, j - 1);
      OnwardTrans(run.states[i], run.states[j - 1], run.states[j]);
    }
  }

  lemma {:induction false} OnwardStep(c: Config, run: Run, i: nat)
    requires ValidRun(c, run) && i < |run.events|
    ensures Onward(run.states[i], run.states[i + 1])
  {
    RunGood(c, run, i);
    NextOnward(c, run.states[i], run.events[i]);
  }

  /* ---- Order and shutdown ---------------------------------------------------------------- */

  /** A call admitted on arrival overtakes nobody: its partition had no waiters. */
  lemma {:induction false} NoArrivalOvertakes(c: Config, run: Run, i: nat)
    requires ValidRun(c, run) && i < |run.events| && run.events[i].Call?
    requires var e := run.events[i];
      Acquire(c, run.states[i], e.key, e.aborted, e.abortedByKey, e.now).1.Admitted?
    ensures run.events[i].key.Text? && Of(run.states[i], run.events[i].key.key).waiters == []
  {
    var s, e := run.states[i], run.events[i];
    RunGood(c, run, i);
    var asked := Begin(s, e.now);
    var room := MakeRoom(c, asked, e.key.key);
    assert Conserved(c, s, e.key.key) && Line(c, s, e.key.key);
    AdmittedAlone(c, room, e.key.key);
  }

  lemma {:induction false} AdmittedAlone(c: Config, s: State, key: string)
    requires Locate(c, s, key).1.Admitted?
    ensures c.maxConcurrency.None? || Of(s, key).active < c.maxConcurrency.value
  {
  }

  /** A call granted a slot queued before everyone of its partition who still waits. */
  lemma {:induction false} GrantedInOrder(c: Config, run: Run, i: nat, w: nat, v: nat)
    requires ValidRun(c, run) && i < |run.states|
    requires var s := run.states[i];
      && w in s.outcomes && s.outcomes[w].Granted? && w < |s.joined| && Queued(s, v) && s.joined[v] == s.joined[w]
    ensures w < v
  {
    var s := run.states[i];
    RunGood(c, run, i);
    var k :| 0 <= k < |Of(s, s.joined[v]).waiters| && Of(s, s.joined[v]).waiters[k].id == v;
  }

  /** No queued call succeeds once the controller is closed. */
  lemma {:induction false} NoSuccessAfterClose(c: Config, run: Run, i: nat, w: nat)
    requires ValidRun(c, run) && i < |run.events| && run.states[i].closed
    requires w in run.states[i + 1].ended && run.states[i + 1].ended[w].Succeeded?
    ensures w in run.states[i].ended && run.states[i].ended[w] == run.states[i + 1].ended[w]
  {
    var s, e := run.states[i], run.events[i];
    RunGood(c, run, i);
    if e.TimesOut? || e.Aborts? || e.Interrupts? || e.Hears? {
      ClosedEnding(c, s, e);
    } else if e.Done? {
      ReleaseOnward(c, s, e.permit, e.ticks);
    }
  }

  lemma {:induction false} ClosedEnding(c: Config, s: State, e: Event)
    requires Accepted(c) && Good(c, s) && s.closed && Enabled(s, e)
    requires e.TimesOut? || e.Aborts? || e.Interrupts? || e.Hears?
    ensures var t := Next(c, s, e);
      && e.waiter in t.ended && !t.ended[e.waiter].Succeeded?
      && forall w :: w in t.ended && w != e.waiter ==> w in s.ended && t.ended[w] == s.ended[w]
  {
    var w := e.waiter;
    NoQueueOnceClosed(c, s, w);
    if s.outcomes[w].Granted? { ReleaseOnward(c, s, s.outcomes[w].permit, e.ticks); }
  }

  lemma {:induction false} NoQueueOnceClosed(c: Config, s: State, w: nat)
    requires Good(c, s) && s.closed
    ensures !Queued(s, w)
  {
    if w < |s.joined| { assert Line(c, s, s.joined[w]); }
  }

  /** Every call that queued waits still or was decided, once the books are closed everyone was. */
  lemma {:induction false} EveryoneDecided(c: Config, run: Run, i: nat, w: nat)
    requires ValidRun(c, run) && i < |run.states| && w < |run.states[i].joined|
    ensures (w in run.states[i].outcomes) <==> !Queued(run.states[i], w)
    ensures run.states[i].closed ==> w in run.states[i].outcomes
  {
    var s := run.states[i];
    RunGood(c, run, i);
    assert Line(c, s, s.joined[w]);
  }

  /** Whoever was granted a slot and did not succeed has given it back. */
  lemma {:induction false} UnusedIsReturned(c: Config, run: Run, i: nat, w: nat)
    requires ValidRun(c, run) && i < |run.states| && w in run.states[i].ended && !run.states[i].ended[w].Succeeded?
    ensures var s := run.states[i];
      w in s.outcomes && (s.outcomes[w].Granted? ==>
        s.outcomes[w].permit < |s.permits| && s.permits[s.outcomes[w].permit].released)
  {
    RunGood(c, run, i);
  }

  /* ---- Idleness -------------------------------------------------------------------------- */

  /** No slot held, nobody waiting, and nothing charged within the window before `now`. */
  ghost predicate AtRest(c: Config, s: State, key: string, now: nat) {
    && Held(s.permits, key) == 0 && Of(s, key).waiters == []
    && (c.budget.Some? ==>
          forall i :: 0 <= i < |Times(s.charges, key)| ==> Times(s.charges, key)[i] + c.budget.value.windowMs <= now)
  }

  lemma {:induction false} PrunedEmpty(b: Budget, live: seq<nat>, now: nat)
    ensures Pruned(Some(b), live, now) == [] ==> forall i :: 0 <= i < |live| ==> live[i] + b.windowMs <= now
    ensures (forall i :: 0 <= i < |live| ==> live[i] + b.windowMs <= now) ==> Pruned(Some(b), live, now) == []
  {
    if live != [] { PrunedEmpty(b, live[1..], now); }
  }

  lemma {:induction false} RestIsIdle(c: Config, s: State, key: string, now: nat)
    requires Good(c, s) && s.clock <= now
    ensures AtRest(c, s, key, now) <==> Idle(PrunedPartition(c, Of(s, key), now))
  {
    assert BudgetKept(c, s, key) && SlotsKept(c, s, key);
    if c.budget.Some? {
      var b, live, h := c.budget.value, Of(s, key).admittedAt, Times(s.charges, key);
      PrunedEmpty(b, live, now);
      var d := |h| - |live|;
      assert forall i :: 0 <= i < |live| ==> live[i] == h[d + i];
      assert forall i :: d <= i < |h| ==> h[i] == live[i - d];
    }
  }

  lemma {:induction false} IdleIff(c: Config, s: State, now: nat)
    requires Good(c, s) && s.clock <= now
    ensures Evict(c, s.(clock := now), now).partitions == map[] <==> forall key :: AtRest(c, s, key, now)
  {
    var left := Evict(c, s.(clock := now), now).partitions;
    forall key ensures AtRest(c, s, key, now) <==> key !in left {
      RestIsIdle(c, s, key, now);
    }
    if left != map[] { var key :| key in left; }
  }

  /** The controller reports itself idle exactly when every partition it ever charged is at rest. */
  lemma {:induction false} IdleIffAtRest(c: Config, run: Run, i: nat, now: nat)
    requires ValidRun(c, run) && i < |run.states| && run.states[i].clock <= now
    ensures var s := run.states[i];
      Evict(c, s.(clock := now), now).partitions == map[] <==> forall key :: AtRest(c, s, key, now)
  {
    RunGood(c, run, i);
    IdleIff(c, run.states[i], now);
  }
}
