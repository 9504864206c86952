/**
 * What call admission answers, told by the history of charges, the permits still held and the calls that
 * wait: who is admitted, who queues, who is refused and with which delay, and when a slot comes back.
 */
module CallAdmissionVerdicts {
  import opened Options
  import opened CallAdmissionModel
  import opened CallAdmissionInvariant
  import opened CallAdmissionEvents
  import opened CallAdmissionTheorems

  /* ---- The budget ---------------------------------------------------------------------------- */

  /** The window that ends with `now` holds fewer charges of the partition than the budget. */
  predicate Room(c: Config, s: State, key: string, now: nat) {
    c.budget.Some? ==>
      CountIn(Times(s.charges, key), now + 1 - c.budget.value.windowMs, now + 1) < c.budget.value.maxCalls
  }

  /** If nothing else is charged, there is room after `ms` and not before. */
  ghost predicate LeastDelay(c: Config, s: State, key: string, now: nat, ms: nat) {
    Room(c, s, key, now + ms) && forall at: nat :: now <= at < now + ms ==> !Room(c, s, key, at)
  }

  /** What is remembered after pruning is exactly what was charged within the window. */
  lemma {:induction false} PrunedCounts(b: Budget, live: seq<nat>, h: seq<nat>, clock: nat, now: nat)
    requires Remembers(b, live, h, clock) && clock <= now && b.windowMs >= 1
    ensures |Pruned(Some(b), live, now)| == CountIn(h, now + 1 - b.windowMs, now + 1)
  {
    PrunedKeeps(b, live, h, clock, now);
    var p := Pruned(Some(b), live, now);
    var d := |h| - |p|;
    if p != [] { assert p[0] == h[d]; }
    assert SplitsAt(h, now + 1 - b.windowMs, d);
    assert SplitsAt(h, now + 1, |h|);
    CountIsSpan(h, now + 1 - b.windowMs, now + 1, d, |h|);
  }

  /** The remembered admissions refuse exactly when the window is full. */
  lemma {:induction false} RoomIffNoRetry(c: Config, s: State, key: string, now: nat)
    requires Accepted(c) && BudgetKept(c, s, key) && s.clock <= now
    ensures RetryAfter(c.budget, Pruned(c.budget, Of(s, key).admittedAt, now), now).None? <==> Room(c, s, key, now)
  {
    if c.budget.Some? {
      PrunedCounts(c.budget.value, Of(s, key).admittedAt, Times(s.charges, key), s.clock, now);
    }
  }

  /** The delay of a refusal is the least after which the window has room. */
  lemma {:induction false} RetryIsLeastDelay(c: Config, s: State, key: string, now: nat)
    requires Accepted(c) && BudgetKept(c, s, key) && s.clock <= now && !Room(c, s, key, now)
    ensures var retry := RetryAfter(c.budget, Pruned(c.budget, Of(s, key).admittedAt, now), now);
      retry.Some? && LeastDelay(c, s, key, now, retry.value)
  {
    RoomIffNoRetry(c, s, key, now);
    var ms := RetryAfter(c.budget, Pruned(c.budget, Of(s, key).admittedAt, now), now).value;
    RoomAfter(c, s, key, now, ms);
    forall at: nat | now <= at < now + ms ensures !Room(c, s, key, at) { RoomAfter(c, s, key, now, at - now); }
  }

  lemma {:induction false} RoomAfter(c: Config, s: State, key: string, now: nat, d: nat)
    requires Accepted(c) && BudgetKept(c, s, key) && s.clock <= now
    requires RetryAfter(c.budget, Pruned(c.budget, Of(s, key).admittedAt, now), now).Some?
    ensures Room(c, s, key, now + d) <==>
      d >= RetryAfter(c.budget, Pruned(c.budget, Of(s, key).admittedAt, now), now).value
  {
    RetryIsLeast(c.budget.value, Of(s, key).admittedAt, Times(s.charges, key), s.clock, now, d);
    RoomIffNoRetry(c, s, key, now + d);
  }

  /* ---- Arrival -------------------------------------------------------------------------------- */

  /** The listed partitions that would stay listed: something is held, waits, or was charged within the window. */
  ghost function Busy(c: Config, s: State, now: nat): set<string> {
    set k | k in s.partitions && !AtRest(c, s, k, now)
  }

  /** The partition is listed, or the list has a place once the partitions at rest are forgotten. */
  ghost predicate Listable(c: Config, s: State, key: string, now: nat) {
    key in s.partitions || |Busy(c, s, now)| < c.maxPartitions
  }

  /** The slots of the partition are all held. */
  predicate Full(c: Config, s: State, key: string) {
    c.maxConcurrency.Some? && Held(s.permits, key) >= c.maxConcurrency.value
  }

  /** What a call with a usable key is told. */
  ghost predicate Arrived(c: Config, s: State, key: string, now: nat, answer: Answer) {
    var arrived :=
      if !Listable(c, s, key, now) then answer == Fails(NoPartition(c.retryAfterMs))
      else if !Room(c, s, key, now) then
        answer.Fails? && answer.error.OverBudget? && LeastDelay(c, s, key, now, answer.error.retryAfterMs)
      else if !Full(c, s, key) then answer == Admitted(|s.permits|)
      else if |Of(s, key).waiters| < c.maxQueueSize then answer == Waiting(|s.joined|)
      else answer == Fails(Concurrency(c.retryAfterMs));
    arrived
  }

  /** What a call is told, in the order in which the reasons are looked at. */
  ghost predicate Verdict(c: Config, s: State, key: KeyResult, aborted: bool, abortedByKey: bool, now: nat, answer: Answer) {
    if s.closed then answer == Fails(Closed)
    else if aborted then answer == Fails(Cancelled)
    else if !key.Text? || Utf8Bytes(key.key) > 128 then answer == Fails(BadPartition)
    else if abortedByKey then answer == Fails(Cancelled)
    else Arrived(c, s, key.key, now, answer)
  }

  /** What an answer leaves behind: a permit and a charge, a place at the end of the queue, or neither. */
  ghost predicate LeftBehind(s: State, t: State, key: KeyResult, now: nat, answer: Answer) {
    var left :=
      && t.outcomes == s.outcomes && t.ended == s.ended && t.closed == s.closed
      && t.permits == s.permits + (if answer.Admitted? && key.Text? then [Permit(key.key, 0, false)] else [])
      && t.charges == s.charges + (if answer.Admitted? && key.Text? then [Charge(key.key, now)] else [])
      && t.joined == s.joined + (if answer.Waiting? && key.Text? then [key.key] else [])
      && (forall k :: Of(t, k).waiters ==
            Of(s, k).waiters + if answer.Waiting? && key.Text? && k == key.key then [Waiter(|s.joined|, now)] else []);
    left
  }

  /** Making room leaves every partition as it was, but for the admissions that are out of the window. */
  lemma {:induction false} RoomMade(c: Config, s: State, key: string, now: nat)
    requires Good(c, s) && s.clock <= now
    ensures var t := MakeRoom(c, Begin(s, now), key);
      && t == s.(partitions := t.partitions, requests := t.requests, clock := now)
      && (key in t.partitions <==> key in s.partitions) && (key in s.partitions ==> Of(t, key) == Of(s, key))
      && (key !in s.partitions ==> t.partitions.Keys == Busy(c, s, now))
      && (forall k :: Of(t, k).waiters == Of(s, k).waiters)
  {
    var t := MakeRoom(c, Begin(s, now), key);
    if key !in s.partitions {
      forall k ensures k in t.partitions <==> k in Busy(c, s, now) { RestIsIdle(c, s, k, now); }
      forall k ensures Of(t, k).waiters == Of(s, k).waiters { }
    }
  }

  lemma {:induction false} EntersAs(c: Config, s: State, t: State, key: string, now: nat)
    requires Accepted(c) && BudgetKept(c, s, key) && SlotsKept(c, s, key) && s.clock <= now && t.clock == now
    requires Of(t, key).admittedAt == Pruned(c.budget, Of(s, key).admittedAt, now)
    requires Of(t, key).active == Of(s, key).active && Of(t, key).waiters == Of(s, key).waiters
    requires t.permits == s.permits && t.joined == s.joined && Listable(c, s, key, now)
    ensures Arrived(c, s, key, now, Enter(c, t, key).1)
  {
    RoomIffNoRetry(c, s, key, now);
    if !Room(c, s, key, now) { RetryIsLeastDelay(c, s, key, now); }
  }

  lemma {:induction false} EnterLeaves(c: Config, s: State, key: string)
    ensures LeftBehind(s, Enter(c, s, key).0, Text(key), s.clock, Enter(c, s, key).1)
  {
  }

  lemma {:induction false} LocateAnswers(c: Config, s: State, key: string, now: nat)
    requires Accepted(c) && Good(c, s) && s.clock <= now
    ensures Arrived(c, s, key, now, Locate(c, MakeRoom(c, Begin(s, now), key), key).1)
  {
    var t := MakeRoom(c, Begin(s, now), key);
    RoomMade(c, s, key, now);
    assert BudgetKept(c, s, key) && SlotsKept(c, s, key);
    if key in s.partitions || |t.partitions| < c.maxPartitions {
      assert key !in s.partitions ==> |Busy(c, s, now)| == |t.partitions|;
      UnlistedIsEmpty(c, s, key, now);
      EntersAs(c, s, PruneAt(c, t, key), key, now);
    } else {
      assert |Busy(c, s, now)| == |t.partitions|;
    }
  }

  lemma {:induction false} UnlistedIsEmpty(c: Config, s: State, key: string, now: nat)
    ensures key !in s.partitions ==> Of(s, key) == Fresh && Pruned(c.budget, Fresh.admittedAt, now) == []
  {
  }

  lemma {:induction false} LocateLeaves(c: Config, s: State, key: string, now: nat)
    requires Good(c, s) && s.clock <= now
    ensures var r := Locate(c, MakeRoom(c, Begin(s, now), key), key); LeftBehind(s, r.0, Text(key), now, r.1)
  {
    var t := MakeRoom(c, Begin(s, now), key);
    RoomMade(c, s, key, now);
    if key in t.partitions || |t.partitions| < c.maxPartitions {
      EnterLeaves(c, PruneAt(c, t, key), key);
      PruneAlike(c, t, key);
      LeftAlike(s, t, PruneAt(c, t, key), Text(key), now, Enter(c, PruneAt(c, t, key), key));
    }
  }

  lemma {:induction false} PruneAlike(c: Config, s: State, key: string)
    ensures var t := PruneAt(c, s, key);
      t == s.(partitions := t.partitions) && t.clock == s.clock && forall k :: Of(t, k).waiters == Of(s, k).waiters
  {
  }

  /** Only what a state shows of its permits, charges, calls and queues counts. */
  lemma {:induction false} LeftAlike(s: State, t: State, u: State, key: KeyResult, now: nat, r: (State, Answer))
    requires t.outcomes == s.outcomes && t.ended == s.ended && t.closed == s.closed && t.permits == s.permits
    requires t.charges == s.charges && t.joined == s.joined && forall k :: Of(t, k).waiters == Of(s, k).waiters
    requires u == t.(partitions := u.partitions) && (forall k :: Of(u, k).waiters == Of(t, k).waiters)
    requires LeftBehind(u, r.0, key, now, r.1)
    ensures LeftBehind(s, r.0, key, now, r.1)
  {
  }

  lemma {:induction false} AcquireAnswers(c: Config, s: State, key: KeyResult, aborted: bool, abortedByKey: bool, now: nat)
    requires Accepted(c) && Good(c, s) && s.clock <= now
    ensures Verdict(c, s, key, aborted, abortedByKey, now, Acquire(c, s, key, aborted, abortedByKey, now).1)
  {
    if !TurnedAway(s, key, aborted, abortedByKey) { LocateAnswers(c, s, key.key, now); }
  }

  lemma {:induction false} TurnAwayLeaves(s: State, key: KeyResult, aborted: bool, now: nat)
    ensures var r := TurnAway(Begin(s, now), key, aborted); LeftBehind(s, r.0, key, now, r.1)
  {
  }

  lemma {:induction false} AcquireLeaves(c: Config, s: State, key: KeyResult, aborted: bool, abortedByKey: bool, now: nat)
    requires Good(c, s) && s.clock <= now
    ensures var r := Acquire(c, s, key, aborted, abortedByKey, now); LeftBehind(s, r.0, key, now, r.1)
  {
    if TurnedAway(s, key, aborted, abortedByKey) {
      TurnAwayLeaves(s, key, aborted, now);
    } else {
      assert Text(key.key) == key;
      LocateLeaves(c, s, key.key, now);
    }
  }

  /**
   * Every arriving call, in every run: what it is told and what that leaves behind, by the charges in its
   * window, the permits held and the calls waiting in its partition.
   */
  lemma {:induction false} ArrivalVerdict(c: Config, run: Run, i: nat)
    requires ValidRun(c, run) && i < |run.events| && run.events[i].Call?
    ensures |run.states| == |run.events| + 1
    ensures var s, e := run.states[i], run.events[i];
      var answer := Acquire(c, s, e.key, e.aborted, e.abortedByKey, e.now).1;
      && Verdict(c, s, e.key, e.aborted, e.abortedByKey, e.now, answer)
      && LeftBehind(s, run.states[i + 1], e.key, e.now, answer)
  {
    var s, e := run.states[i], run.events[i];
    RunGood(c, run, i);
    assert Stepped(c, s, e, run.states[i + 1]);
    AcquireAnswers(c, s, e.key, e.aborted, e.abortedByKey, e.now);
    AcquireLeaves(c, s, e.key, e.aborted, e.abortedByKey, e.now);
  }

  /* ---- Serving the queue ---------------------------------------------------------------------- */

  /** What the first waiter is told when a slot is free. */
  ghost predicate Decided(c: Config, s: State, key: string, w: Waiter, now: nat, d: Decision) {
    if now >= w.queuedAt + c.queueTimeoutMs then d == Refused(Concurrency(c.retryAfterMs))
    else if !Room(c, s, key, now) then
      d.Refused? && d.error.OverBudget? && LeastDelay(c, s, key, now, d.error.retryAfterMs)
    else d == Granted(|s.permits|)
  }

  /**
   * Serving decides the first waiter and nobody else, by its own reading of the clock: too late, over budget,
   * or granted the next permit, which is charged.
   */
  lemma {:induction false} ServedVerdict(c: Config, s: State, key: string, tick: nat)
    requires Accepted(c) && BudgetKept(c, s, key) && Pumps(c, s, key)
    ensures var t, w, now := PumpOne(c, s, key, tick), Of(s, key).waiters[0], s.clock + tick;
      && w.id in t.outcomes && Decided(c, s, key, w, now, t.outcomes[w.id])
      && t.outcomes == s.outcomes[w.id := t.outcomes[w.id]] && Of(t, key).waiters == Of(s, key).waiters[1..]
      && var granted := t.outcomes[w.id].Granted?;
         && t.permits == s.permits + (if granted then [Permit(key, if now < w.queuedAt then 0 else now - w.queuedAt, false)] else [])
         && t.charges == s.charges + (if granted then [Charge(key, now)] else [])
  {
    var w, taken := Of(s, key).waiters[0], Taken(s, key, tick);
    RoomIffNoRetry(c, s, key, taken.clock);
    if !Room(c, s, key, taken.clock) { RetryIsLeastDelay(c, s, key, taken.clock); }
  }

  /* ---- Extra charges -------------------------------------------------------------------------- */

  /** What an extra charge on a permit is told. */
  ghost predicate ExtraTold(c: Config, s: State, p: nat, aborted: bool, now: nat, error: Option<Error>)
    requires p < |s.permits|
  {
    if s.closed || s.permits[p].released then error == Some(Closed)
    else if aborted then error == Some(Cancelled)
    else if Room(c, s, s.permits[p].key, now) then error == None
    else
      && error.Some? && error.value.OverBudget?
      && LeastDelay(c, s, s.permits[p].key, now, error.value.retryAfterMs)
  }

  lemma {:induction false} ChargeVerdict(c: Config, s: State, p: nat, aborted: bool, now: nat)
    requires Accepted(c) && Good(c, s) && s.clock <= now && p < |s.permits|
    ensures var (t, error) := ChargePermit(c, s, p, aborted, now);
      && ExtraTold(c, s, p, aborted, now, error)
      && t.charges == s.charges + (if error == None then [Charge(s.permits[p].key, now)] else [])
      && t.permits == s.permits && t.joined == s.joined && t.outcomes == s.outcomes && t.ended == s.ended
  {
    var key := s.permits[p].key;
    assert BudgetKept(c, s, key);
    RoomIffNoRetry(c, s, key, now);
    if !Room(c, s, key, now) { RetryIsLeastDelay(c, s, key, now); }
  }

  /** Every extra charge, in every run: admitted exactly when the permit is held and the window has room. */
  lemma {:induction false} ExtraVerdict(c: Config, run: Run, i: nat)
    requires ValidRun(c, run) && i < |run.events| && run.events[i].Extra?
    ensures |run.states| == |run.events| + 1 && run.events[i].permit < |run.states[i].permits|
    ensures var s, t, e := run.states[i], run.states[i + 1], run.events[i];
      var error := ChargePermit(c, s, e.permit, e.aborted, e.now).1;
      && ExtraTold(c, s, e.permit, e.aborted, e.now, error)
      && t.charges == s.charges + (if error == None then [Charge(s.permits[e.permit].key, e.now)] else [])
  {
    var s, e := run.states[i], run.events[i];
    RunGood(c, run, i);
    assert Stepped(c, s, e, run.states[i + 1]);
    ChargeVerdict(c, s, e.permit, e.aborted, e.now);
  }

  /* ---- Permits -------------------------------------------------------------------------------- */

  /** The event speaks for a call that has queued. */
  predicate OfWaiter(e: Event) { e.TimesOut? || e.Aborts? || e.Interrupts? || e.Hears? }

  /** The holder is done with the permit, or the call it was granted to is no longer there to receive it. */
  predicate Returns(s: State, e: Event, p: nat) {
    || (e.Done? && e.permit == p)
    || (OfWaiter(e) && !Queued(s, e.waiter) && e.waiter in s.outcomes && s.outcomes[e.waiter] == Granted(p)
        && (e.Interrupts? || s.closed))
  }

  /** Permits already granted are as they were, and new ones are held. */
  predicate Kept(s: State, t: State) {
    s.permits <= t.permits && forall p :: |s.permits| <= p < |t.permits| ==> !t.permits[p].released
  }

  lemma {:induction false} PumpKept(c: Config, s: State, key: string, ticks: seq<nat>)
    ensures Kept(s, Pump(c, s, key, ticks)) && Pump(c, s, key, ticks).ended == s.ended
    ensures Pump(c, s, key, ticks).closed == s.closed
    decreases |Of(s, key).waiters|
  {
    if Pumps(c, s, key) {
      var t := PumpOne(c, s, key, Tick(ticks));
      var granted := PumpOneServed(c, s, key, Tick(ticks));
      PumpKept(c, t, key, Later(ticks));
    }
  }

  /** Of the permits there were, exactly this one is back. */
  predicate OnlyBack(s: State, t: State, p: nat) {
    && p < |s.permits| <= |t.permits| && t.permits[p] == s.permits[p].(released := true)
    && (forall q :: 0 <= q < |s.permits| && q != p ==> t.permits[q] == s.permits[q])
    && (forall q :: |s.permits| <= q < |t.permits| ==> !t.permits[q].released)
  }

  lemma {:induction false} ReleaseBack(c: Config, s: State, p: nat, ticks: seq<nat>)
    requires p < |s.permits|
    ensures OnlyBack(s, Release(c, s, p, ticks), p) && Release(c, s, p, ticks).ended == s.ended
    ensures Release(c, s, p, ticks).closed == s.closed
  {
    if !s.permits[p].released {
      var t := Freed(s, p);
      PumpKept(c, t, s.permits[p].key, ticks);
      assert t.permits == s.permits[p := s.permits[p].(released := true)];
      var u := Release(c, s, p, ticks);
      assert forall q :: 0 <= q < |t.permits| ==> u.permits[q] == t.permits[q];
    }
  }

  lemma {:induction false} AcquireKept(c: Config, s: State, e: Event)
    requires Accepted(c) && Good(c, s) && Enabled(s, e) && e.Call?
    ensures Kept(s, Next(c, s, e))
  {
    AcquireLeaves(c, s, e.key, e.aborted, e.abortedByKey, e.now);
  }

  lemma {:induction false} WaiterReturns(c: Config, s: State, e: Event, p: nat)
    requires Accepted(c) && Good(c, s) && Enabled(s, e) && OfWaiter(e) && p < |s.permits|
    ensures var t := Next(c, s, e);
      p < |t.permits| && (t.permits[p].released <==> s.permits[p].released || Returns(s, e, p))
  {
    if Queued(s, e.waiter) { WithdrawnEnds(c, s, e); } else { HearReturns(c, s, e, p); }
  }

  lemma {:induction false} HearReturns(c: Config, s: State, e: Event, p: nat)
    requires Accepted(c) && Good(c, s) && Enabled(s, e) && OfWaiter(e) && p < |s.permits| && !Queued(s, e.waiter)
    ensures var t := Next(c, s, e);
      p < |t.permits| && (t.permits[p].released <==> s.permits[p].released || Returns(s, e, p))
  {
    HeardNext(c, s, e);
    if s.outcomes[e.waiter].Granted? && (e.Interrupts? || s.closed) {
      ReleaseBack(c, s, s.outcomes[e.waiter].permit, e.ticks);
    }
  }

  /** A call out of the queue gives its permit back if it cannot receive it, and is over. */
  lemma {:induction false} HeardNext(c: Config, s: State, e: Event)
    requires Enabled(s, e) && OfWaiter(e) && !Queued(s, e.waiter)
    ensures e.waiter in s.outcomes && (s.outcomes[e.waiter].Granted? ==> s.outcomes[e.waiter].permit < |s.permits|)
    ensures var back := if s.outcomes[e.waiter].Granted? && (e.Interrupts? || s.closed)
                        then Release(c, s, s.outcomes[e.waiter].permit, e.ticks) else s;
      Next(c, s, e) == back.(ended := back.ended[e.waiter := EndingOf(c, s, e)])
  {
  }

  /**
   * A permit comes back at exactly the step in which its holder is done, or the call it was granted to turns
   * out to be gone; nothing else frees a slot, and nothing frees it early.
   */
  lemma {:induction false} ReturnedExactly(c: Config, run: Run, i: nat, p: nat)
    requires ValidRun(c, run) && i < |run.events| && p < |run.states[i].permits|
    ensures |run.states| == |run.events| + 1 && p < |run.states[i + 1].permits|
    ensures run.states[i + 1].permits[p].released <==> run.states[i].permits[p].released || Returns(run.states[i], run.events[i], p)
  {
    var s, e := run.states[i], run.events[i];
    RunGood(c, run, i);
    assert Stepped(c, s, e, run.states[i + 1]);
    match e {
      case Call(_, _, _, _) => AcquireKept(c, s, e);
      case Done(q, ticks) => ReleaseBack(c, s, q, ticks);
      case Extra(_, _, _) =>
      case Closes =>
      case AsksIdle(_) =>
      case _ => WaiterReturns(c, s, e, p);
    }
  }

  /* ---- Waiting calls -------------------------------------------------------------------------- */

  /** How the event ends the waiting call it speaks for. */
  function EndingOf(c: Config, s: State, e: Event): Ending
    requires OfWaiter(e) && (Queued(s, e.waiter) || e.waiter in s.outcomes)
  {
    if e.Interrupts? then Interrupted
    else if Queued(s, e.waiter) then Failed(if e.TimesOut? then Concurrency(c.retryAfterMs) else Cancelled)
    else
      match s.outcomes[e.waiter]
      case Refused(error) => Failed(error)
      case Granted(p) => if s.closed then Failed(Closed) else Succeeded(p)
  }

  /** A call that leaves the queue of itself is out of it, decided by that and by nothing else. */
  predicate Withdrawn(c: Config, s: State, e: Event, t: State)
    requires OfWaiter(e) && e.waiter < |s.joined|
  {
    var key := s.joined[e.waiter];
    var withdrawn :=
      && t.outcomes == s.outcomes[e.waiter := Refused(if e.TimesOut? then Concurrency(c.retryAfterMs) else Cancelled)]
      && t.permits == s.permits && t.charges == s.charges
      && Of(t, key).waiters == Without(Of(s, key).waiters, e.waiter);
    withdrawn
  }

  lemma {:induction false} HearEnds(c: Config, s: State, e: Event)
    requires Accepted(c) && Good(c, s) && Enabled(s, e) && OfWaiter(e) && !Queued(s, e.waiter)
    ensures Next(c, s, e).ended == s.ended[e.waiter := EndingOf(c, s, e)]
  {
    HeardNext(c, s, e);
    if s.outcomes[e.waiter].Granted? { ReleaseBack(c, s, s.outcomes[e.waiter].permit, e.ticks); }
  }

  lemma {:induction false} WithdrawnEnds(c: Config, s: State, e: Event)
    requires Enabled(s, e) && OfWaiter(e) && Queued(s, e.waiter)
    ensures Next(c, s, e).ended == s.ended[e.waiter := EndingOf(c, s, e)] && Withdrawn(c, s, e, Next(c, s, e))
  {
    var w, error := e.waiter, if e.TimesOut? then Concurrency(c.retryAfterMs) else Cancelled;
    var left := Left(s, w, error, EndingOf(c, s, e), !e.TimesOut?, e.now);
    NextTidies(c, s, e);
    LeftAs(s, w, error, EndingOf(c, s, e), !e.TimesOut?, e.now);
    TidyKeeps(c, left, s.joined[w], e.now);
  }

  lemma {:induction false} NextTidies(c: Config, s: State, e: Event)
    requires Enabled(s, e) && OfWaiter(e) && Queued(s, e.waiter)
    ensures !e.Hears?
    ensures var error := if e.TimesOut? then Concurrency(c.retryAfterMs) else Cancelled;
      Next(c, s, e) == Tidy(c, Left(s, e.waiter, error, EndingOf(c, s, e), !e.TimesOut?, e.now), s.joined[e.waiter], e.now)
  {
  }

  lemma {:induction false} LeftAs(s: State, w: nat, error: Error, end: Ending, cancel: bool, now: nat)
    requires w < |s.joined|
    ensures var t := Left(s, w, error, end, cancel, now);
      && t.ended == s.ended[w := end] && t.outcomes == s.outcomes[w := Refused(error)]
      && t.permits == s.permits && t.charges == s.charges
      && Of(t, s.joined[w]).waiters == Without(Of(s, s.joined[w]).waiters, w)
  {
  }

  lemma {:induction false} TidyKeeps(c: Config, s: State, key: string, now: nat)
    ensures var t := Tidy(c, s, key, now);
      && t == s.(partitions := t.partitions) && Of(t, key).waiters == Of(s, key).waiters
  {
  }

  /** A waiting call ends as its timeout, its abort, its scope or the decision it hears says, and only then. */
  lemma {:induction false} EndingVerdict(c: Config, run: Run, i: nat)
    requires ValidRun(c, run) && i < |run.events| && OfWaiter(run.events[i])
    ensures |run.states| == |run.events| + 1
    ensures var s, e, t := run.states[i], run.events[i], run.states[i + 1];
      && (Queued(s, e.waiter) || e.waiter in s.outcomes)
      && t.ended == s.ended[e.waiter := EndingOf(c, s, e)]
      && (Queued(s, e.waiter) ==> Withdrawn(c, s, e, t))
  {
    var s, e := run.states[i], run.events[i];
    RunGood(c, run, i);
    assert Stepped(c, s, e, run.states[i + 1]);
    if Queued(s, e.waiter) { WithdrawnEnds(c, s, e); } else { HearEnds(c, s, e); }
  }

  /** Closing refuses exactly the calls that still wait, and takes nothing from anyone else. */
  lemma {:induction false} ClosingVerdict(c: Config, run: Run, i: nat)
    requires ValidRun(c, run) && i < |run.events| && run.events[i].Closes? && !run.states[i].closed
    ensures |run.states| == |run.events| + 1
    ensures var s, t := run.states[i], run.states[i + 1];
      && t.closed && t.permits == s.permits && t.charges == s.charges && t.ended == s.ended
      && (forall w: nat :: w in t.outcomes <==> w in s.outcomes || Queued(s, w))
      && (forall w: nat :: w in t.outcomes ==> t.outcomes[w] == if w in s.outcomes then s.outcomes[w] else Refused(Closed))
  {
    var s := run.states[i];
    RunGood(c, run, i);
    assert Stepped(c, s, run.events[i], run.states[i + 1]);
    forall w: nat | Queued(s, w) ensures w !in s.outcomes { assert Line(c, s, s.joined[w]); }
  }

  /* ---- Decisions in the queue ------------------------------------------------------------------- */

  /** The waiter was first in its queue while a slot was free, and was decided then, by what held then. */
  ghost predicate DecidedThen(c: Config, u: State, key: string, tick: nat, w: nat, d: Decision) {
    var decided :=
      && Serving(c, u, key) && Pumps(c, u, key) && Of(u, key).waiters[0].id == w
      && Held(u.permits, key) < c.maxConcurrency.value
      && Decided(c, u, key, Of(u, key).waiters[0], u.clock + tick, d);
    decided
  }

  lemma {:induction false} FirstDecided(c: Config, s: State, key: string, tick: nat)
    requires Accepted(c) && Serving(c, s, key) && Pumps(c, s, key)
    ensures var t, w := PumpOne(c, s, key, tick), Of(s, key).waiters[0].id;
      && w in t.outcomes && DecidedThen(c, s, key, tick, w, t.outcomes[w])
      && t.outcomes == s.outcomes[w := t.outcomes[w]]
  {
    assert BudgetKept(c, s, key) && SlotsKept(c, s, key);
    ServedVerdict(c, s, key, tick);
  }

  /** Whoever serving the queue decides was first in it when decided. */
  lemma {:induction false} PumpVerdict(c: Config, s: State, key: string, ticks: seq<nat>, w: nat) returns (u: State, tick: nat)
    requires Accepted(c) && Serving(c, s, key)
    requires w in Pump(c, s, key, ticks).outcomes && w !in s.outcomes
    ensures DecidedThen(c, u, key, tick, w, Pump(c, s, key, ticks).outcomes[w]) && Onward(s, u)
    decreases |Of(s, key).waiters|
  {
    assert Pumps(c, s, key);
    var t := PumpOne(c, s, key, Tick(ticks));
    FirstDecided(c, s, key, Tick(ticks));
    PumpOneServing(c, s, key, Tick(ticks));
    var granted := PumpOneServed(c, s, key, Tick(ticks));
    assert Line(c, s, key);
    ServedOnward(c, s, key, t, granted);
    if w == Of(s, key).waiters[0].id {
      u, tick := s, Tick(ticks);
      PumpOnward(c, t, key, Later(ticks));
      Grown(s, s);
    } else {
      u, tick := PumpVerdict(c, t, key, Later(ticks), w);
      OnwardTrans(s, t, u);
    }
  }

  /**
   * A waiting call that is decided without having left or been closed out was decided because a slot of its
   * own partition came back: first in the queue, in time or too late, with room in the window or not.
   */
  lemma {:induction false} DecisionVerdict(c: Config, run: Run, i: nat, w: nat) returns (u: State, tick: nat)
    requires ValidRun(c, run) && i < |run.events| && |run.states| == |run.events| + 1
    requires w in run.states[i + 1].outcomes && w !in run.states[i].outcomes
    requires !run.events[i].Closes? && !(OfWaiter(run.events[i]) && run.events[i].waiter == w)
    ensures w < |u.joined| && Onward(run.states[i], u)
    ensures DecidedThen(c, u, u.joined[w], tick, w, run.states[i + 1].outcomes[w])
    ensures exists p :: 0 <= p < |run.states[i].permits| && Returns(run.states[i], run.events[i], p)
                        && run.states[i].permits[p].key == u.joined[w]
  {
    var s, e := run.states[i], run.events[i];
    RunGood(c, run, i);
    assert Stepped(c, s, e, run.states[i + 1]);
    var p := DecidedByReturn(c, s, e, w);
    FreedServing(c, s, p);
    FreedOnward(s, p);
    u, tick := PumpVerdict(c, Freed(s, p), s.permits[p].key, TicksOf(e), w);
    OnwardTrans(s, Freed(s, p), u);
    JoinedThere(c, u, s.permits[p].key);
  }

  lemma {:induction false} JoinedThere(c: Config, s: State, key: string)
    requires Serving(c, s, key) && Of(s, key).waiters != []
    ensures Of(s, key).waiters[0].id < |s.joined| && s.joined[Of(s, key).waiters[0].id] == key
  {
    assert Line(c, s, key);
  }

  function TicksOf(e: Event): seq<nat> { if e.Done? || OfWaiter(e) then e.ticks else [] }

  lemma {:induction false} HeardByReturn(c: Config, s: State, e: Event, w: nat) returns (p: nat)
    requires Accepted(c) && Good(c, s) && Enabled(s, e) && OfWaiter(e) && !Queued(s, e.waiter)
    requires w in Next(c, s, e).outcomes && w !in s.outcomes
    ensures p < |s.permits| && !s.permits[p].released && Returns(s, e, p)
    ensures Next(c, s, e).outcomes == Pump(c, Freed(s, p), s.permits[p].key, e.ticks).outcomes
    ensures w !in Freed(s, p).outcomes
  {
    HeardNext(c, s, e);
    p := s.outcomes[e.waiter].permit;
  }

  /** Only a returned permit lets the queue be served. */
  lemma {:induction false} DecidedByReturn(c: Config, s: State, e: Event, w: nat) returns (p: nat)
    requires Accepted(c) && Good(c, s) && Enabled(s, e) && w in Next(c, s, e).outcomes && w !in s.outcomes
    requires !e.Closes? && !(OfWaiter(e) && e.waiter == w)
    ensures p < |s.permits| && !s.permits[p].released && Returns(s, e, p)
    ensures Next(c, s, e).outcomes == Pump(c, Freed(s, p), s.permits[p].key, TicksOf(e)).outcomes
    ensures w !in Freed(s, p).outcomes
  {
    OnlyReturnsDecide(c, s, e, w);
    if e.Done? { p := e.permit; } else { p := HeardByReturn(c, s, e, w); }
  }

  lemma {:induction false} OnlyReturnsDecide(c: Config, s: State, e: Event, w: nat)
    requires Accepted(c) && Good(c, s) && Enabled(s, e) && w in Next(c, s, e).outcomes && w !in s.outcomes
    requires !e.Closes? && !(OfWaiter(e) && e.waiter == w)
    ensures e.Done? || (OfWaiter(e) && !Queued(s, e.waiter))
  {
    match e {
      case Call(key, aborted, abortedByKey, now) => AcquireLeaves(c, s, key, aborted, abortedByKey, now);
      case Done(_, _) =>
      case Extra(q, aborted, now) => ChargeVerdict(c, s, q, aborted, now);
      case Closes =>
      case AsksIdle(_) =>
      case _ => if Queued(s, e.waiter) { WithdrawnEnds(c, s, e); }
    }
  }
}
