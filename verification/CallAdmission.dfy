/**
 * The call-admission controller as an object: its partitions, counters and settlements are
 * changed in place, and each method does to them what the model says.
 */
module CallAdmission {
  import opened Options
  import opened CallAdmissionModel
  import opened CallAdmissionInvariant
  import opened CallAdmissionEvents
  import opened CallAdmissionTheorems
  import opened CallAdmissionVerdicts

  /** Every waiting call once joined a queue. */
  lemma {:induction false} KnownWaiter(c: Config, s: State, w: nat)
    requires Good(c, s) && Waits(s, w)
    ensures w < |s.joined|
  {
  }

  lemma {:induction false} HasMore(ws: seq<Waiter>, i: nat)
    requires i < |ws|
    ensures forall x: nat :: Has(ws[..i + 1], x) <==> Has(ws[..i], x) || x == ws[i].id
  {
    forall x: nat ensures Has(ws[..i + 1], x) <==> Has(ws[..i], x) || x == ws[i].id {
      assert ws[..i + 1] == ws[..i] + [ws[i]];
      if Has(ws[..i], x) {
        var j :| 0 <= j < i && ws[..i][j].id == x;
        assert ws[..i + 1][j].id == x;
      }
      assert ws[..i + 1][i].id == ws[i].id;
    }
  }

  /** The waiter is in a queue that closing has already emptied. */
  ghost predicate Refusing(all: map<string, Partition>, todo: set<string>, x: nat) {
    exists k :: k in all && k !in todo && Has(all[k].waiters, x)
  }

  lemma {:induction false} RefusingMore(all: map<string, Partition>, todo: set<string>, key: string)
    requires key in todo && key in all
    ensures forall x: nat :: Refusing(all, todo - {key}, x) <==> Refusing(all, todo, x) || Has(all[key].waiters, x)
  {
    forall x: nat ensures Refusing(all, todo - {key}, x) <==> Refusing(all, todo, x) || Has(all[key].waiters, x) {
      if Refusing(all, todo, x) {
        var k :| k in all && k !in todo && Has(all[k].waiters, x);
        assert k !in todo - {key};
      }
    }
  }

  /** Emptying every queue refuses exactly the calls that were undecided. */
  lemma {:induction false} RefusedAll(c: Config, s: State)
    requires Good(c, s)
    ensures forall x: nat :: Refusing(s.partitions, {}, x) <==> x in Undecided(s)
  {
    forall x: nat ensures Refusing(s.partitions, {}, x) <==> x in Undecided(s) {
      if Refusing(s.partitions, {}, x) {
        var k :| k in s.partitions && Has(s.partitions[k].waiters, x);
        assert Line(c, s, k);
      }
      if x in Undecided(s) { assert s.joined[x] in s.partitions; }
    }
  }

  lemma {:induction false} UndecidedRest(c: Config, s: State)
    requires Good(c, s)
    ensures Undecided(s) !! s.outcomes.Keys && forall x: nat :: x in Undecided(s) <==> Refusing(s.partitions, {}, x)
  {
    RefusedAll(c, s);
  }

  lemma {:induction false} RefusedRest(was: map<nat, Decision>, rest: set<nat>, now: map<nat, Decision>)
    requires rest !! was.Keys && forall x: nat :: x in now <==> x in was || x in rest
    requires forall x :: x in now ==> now[x] == if x in rest then Refused(Closed) else was[x]
    ensures now == RefuseRest(was, rest)
  {
  }

  lemma {:induction false} WithoutAt(ws: seq<Waiter>, w: nat, i: nat)
    requires i < |ws| && ws[i].id == w && forall j :: 0 <= j < i ==> ws[j].id != w
    ensures Without(ws, w) == ws[..i] + ws[i + 1..]
  {
    if i > 0 {
      WithoutAt(ws[1..], w, i - 1);
      assert ws[..i] == [ws[0]] + ws[1..][..i - 1] && ws[1..][i..] == ws[i + 1..];
    }
  }

  method IndexOf(ws: seq<Waiter>, w: nat) returns (i: nat)
    ensures i <= |ws| && (forall j :: 0 <= j < i ==> ws[j].id != w) && (i < |ws| ==> ws[i].id == w)
    ensures i < |ws| <==> Has(ws, w)
  {
    i := 0;
    while i < |ws| && ws[i].id != w
      invariant i <= |ws| && (forall j :: 0 <= j < i ==> ws[j].id != w)
    {
      i := i + 1;
    }
  }

  lemma {:induction false} PumpStep(c: Config, s: State, key: string, ticks: seq<nat>)
    requires Pumps(c, s, key)
    ensures Pump(c, s, key, ticks) == Pump(c, PumpOne(c, s, key, Tick(ticks)), key, Later(ticks))
    ensures var t := PumpOne(c, s, key, Tick(ticks)); t.closed == s.closed && |Of(t, key).waiters| < |Of(s, key).waiters|
  {
    var granted := PumpOneServed(c, s, key, Tick(ticks));
  }

  lemma {:induction false} AllRefused(s: State, rest: set<nat>, t: State)
    requires t.closed && t.shut == s.shut + |rest| && t.totals == s.totals && t.permits == s.permits && t.joined == s.joined
    requires t.ended == s.ended && t.clock == s.clock && t.charges == s.charges && t.requests == s.requests
    requires t.partitions == Emptied(s.partitions) && t.outcomes == RefuseRest(s.outcomes, rest)
    ensures t == ClosedBy(s, rest)
  {
  }

  class Controller {
    const c: Config
    var partitions: map<string, Partition>
    var closed: bool
    var totals: Totals
    var permits: seq<Permit>
    var joined: seq<string>
    var outcomes: map<nat, Decision>
    var ended: map<nat, Ending>
    var clock: nat
    ghost var charges: seq<Charge>
    ghost var shut: nat
    ghost var requests: nat

    ghost function View(): State
      reads this
    {
      State(partitions, closed, totals, permits, joined, outcomes, ended, clock, charges, shut, requests)
    }

    ghost predicate Valid()
      reads this
    {
      Accepted(c) && Good(c, View())
    }

    constructor (c: Config)
      requires Accepted(c)
      ensures Valid() && this.c == c && View() == Initial
    {
      this.c := c;
      partitions, closed, totals := map[], false, Totals(0, 0, 0, 0);
      permits, joined, outcomes, ended, clock := [], [], map[], map[], 0;
      charges, shut, requests := [], 0, 0;
      new;
      InitialGood(c);
    }

    function At(key: string): Partition
      reads this
    {
      if key in partitions then partitions[key] else Fresh
    }

    /** Drop the admissions whose window has passed. */
    method PruneBudget(key: string)
      modifies this`partitions
      ensures View() == PruneAt(c, old(View()), key)
    {
      var at := At(key).admittedAt;
      var expired := 0;
      if c.budget.Some? {
        while expired < |at| && at[expired] + c.budget.value.windowMs <= clock
          invariant expired <= |at| && Pruned(c.budget, at[expired..], clock) == Pruned(c.budget, at, clock)
        {
          expired := expired + 1;
        }
      }
      partitions := partitions[key := At(key).(admittedAt := at[expired..])];
    }

    method Grant(key: string, waitMs: nat) returns (p: nat)
      modifies this`partitions, this`permits, this`charges, this`totals
      ensures View() == Admit(c, old(View()), key, waitMs) && p == old(|permits|)
    {
      var part := At(key);
      var at := if c.budget.Some? then part.admittedAt + [clock] else part.admittedAt;
      partitions := partitions[key := part.(active := part.active + 1, admittedAt := at)];
      p := |permits|;
      permits := permits + [Permit(key, waitMs, false)];
      charges := charges + [Charge(key, clock)];
      totals := totals.(admitted := totals.admitted + 1);
    }

    /** Serve the queue while there is a free slot; every waiter taken gets a decision. */
    method PumpQueue(key: string, ticks: seq<nat>)
      modifies this
      ensures View() == Pump(c, old(View()), key, ticks)
    {
      if closed || c.maxConcurrency.None? { return; }
      var left := ticks;
      ghost var whole := Pump(c, View(), key, ticks);
      while At(key).active < c.maxConcurrency.value && At(key).waiters != []
        invariant !closed && Pump(c, View(), key, left) == whole
        decreases |At(key).waiters|
      {
        PumpStep(c, View(), key, left);
        PumpNext(key, Tick(left));
        left := Later(left);
        assert At(key) == Of(View(), key);
      }
    }

    method PumpNext(key: string, tick: nat)
      requires Pumps(c, View(), key)
      modifies this
      ensures View() == PumpOne(c, old(View()), key, tick)
    {
      var w := TakeFirst(key, tick);
      ServeWaiter(key, w);
    }

    method TakeFirst(key: string, tick: nat) returns (w: Waiter)
      requires At(key).waiters != []
      modifies this`partitions, this`clock
      ensures View() == Taken(old(View()), key, tick) && w == old(At(key).waiters[0])
    {
      var part := At(key);
      w := part.waiters[0];
      clock := clock + tick;
      partitions := partitions[key := part.(waiters := part.waiters[1..])];
    }

    method ServeWaiter(key: string, w: Waiter)
      modifies this
      ensures View() == Serve(c, old(View()), key, w)
    {
      if clock >= w.queuedAt + c.queueTimeoutMs {
        totals := totals.(rejected := totals.rejected + 1);
        outcomes := outcomes[w.id := Refused(Concurrency(c.retryAfterMs))];
        return;
      }
      PruneBudget(key);
      AnswerWaiter(key, w);
    }

    method AnswerWaiter(key: string, w: Waiter)
      modifies this
      ensures View() == GrantOrRefuse(c, old(View()), key, w)
    {
      var retry := RetryAfter(c.budget, At(key).admittedAt, clock);
      if retry.Some? {
        totals := totals.(rateLimited := totals.rateLimited + 1);
        outcomes := outcomes[w.id := Refused(OverBudget(retry.value))];
      } else {
        var p := Grant(key, if clock < w.queuedAt then 0 else clock - w.queuedAt);
        outcomes := outcomes[w.id := Granted(p)];
      }
    }

    /** Idempotent: the second release of a permit changes nothing. */
    method ReleasePermit(p: nat, ticks: seq<nat>)
      requires Valid() && p < |permits|
      modifies this
      ensures Valid() && View() == Release(c, old(View()), p, ticks)
      ensures old(permits[p].released) ==> View() == old(View())
    {
      ReleaseGood(c, View(), p, ticks);
      GiveBack(p, ticks);
    }

    method GiveBack(p: nat, ticks: seq<nat>)
      requires p < |permits|
      modifies this
      ensures View() == Release(c, old(View()), p, ticks)
    {
      if permits[p].released { return; }
      var key := permits[p].key;
      FreePermit(p);
      PumpQueue(key, ticks);
    }

    method FreePermit(p: nat)
      requires p < |permits|
      modifies this`permits, this`partitions
      ensures View() == Freed(old(View()), p)
    {
      var key := permits[p].key;
      permits := permits[p := permits[p].(released := true)];
      partitions := partitions[key := At(key).(active := if At(key).active > 0 then At(key).active - 1 else 0)];
    }

    method ChargeBudget(p: nat, aborted: bool, now: nat) returns (error: Option<Error>)
      requires Valid() && p < |permits| && clock <= now
      modifies this
      ensures Valid() && (View(), error) == ChargePermit(c, old(View()), p, aborted, now)
      ensures ExtraTold(c, old(View()), p, aborted, now, error)
    {
      ChargeGood(c, View(), p, aborted, now);
      ChargeVerdict(c, View(), p, aborted, now);
      error := Spend(p, aborted, now);
    }

    method Ask(now: nat)
      modifies this`requests, this`clock
      ensures View() == Begin(old(View()), now)
    {
      requests, clock := requests + 1, now;
    }

    method Spend(p: nat, aborted: bool, now: nat) returns (error: Option<Error>)
      requires p < |permits|
      modifies this
      ensures (View(), error) == ChargePermit(c, old(View()), p, aborted, now)
    {
      Ask(now);
      if closed || permits[p].released {
        shut := shut + 1;
        return Some(Closed);
      }
      if aborted {
        totals := totals.(cancelled := totals.cancelled + 1);
        return Some(Cancelled);
      }
      PruneBudget(permits[p].key);
      error := CountCharge(permits[p].key);
    }

    method CountCharge(key: string) returns (error: Option<Error>)
      modifies this`partitions, this`charges, this`totals
      ensures View() == Count(c, old(View()), key) && error == Overrun(c, old(View()), key)
    {
      var part := At(key);
      var retry := RetryAfter(c.budget, part.admittedAt, clock);
      if retry.Some? {
        totals := totals.(rateLimited := totals.rateLimited + 1);
        return Some(OverBudget(retry.value));
      }
      var at := if c.budget.Some? then part.admittedAt + [clock] else part.admittedAt;
      partitions := partitions[key := part.(admittedAt := at)];
      charges := charges + [Charge(key, clock)];
      totals := totals.(admitted := totals.admitted + 1);
      return None;
    }

    /** Prune every partition and forget the idle ones. */
    method EvictIdlePartitions()
      modifies this`partitions
      ensures View() == Evict(c, old(View()), clock)
    {
      var all := partitions;
      var todo := all.Keys;
      while todo != {}
        invariant todo <= all.Keys
        invariant forall k :: k in partitions <==> k in all && (k in todo || !Idle(PrunedPartition(c, all[k], clock)))
        invariant forall k :: k in partitions ==>
          partitions[k] == if k in todo then all[k] else PrunedPartition(c, all[k], clock)
        decreases todo
      {
        var key :| key in todo;
        todo := todo - {key};
        MaybeDelete(key);
      }
      assert partitions == Evict(c, old(View()), clock).partitions;
    }

    method MaybeDelete(key: string)
      modifies this`partitions
      ensures View() == Tidy(c, old(View()), key, clock)
    {
      if key !in partitions { return; }
      PruneBudget(key);
      if partitions[key] == Fresh { partitions := partitions - {key}; }
    }

    /** Everything up to a permit, a refusal or a place in the queue. */
    method AcquireCall(key: KeyResult, aborted: bool, abortedByKey: bool, now: nat) returns (answer: Answer)
      requires Valid() && clock <= now
      modifies this
      ensures Valid() && (View(), answer) == Acquire(c, old(View()), key, aborted, abortedByKey, now)
      ensures Verdict(c, old(View()), key, aborted, abortedByKey, now, answer)
      ensures LeftBehind(old(View()), View(), key, now, answer)
    {
      AcquireGood(c, View(), key, aborted, abortedByKey, now);
      AcquireAnswers(c, View(), key, aborted, abortedByKey, now);
      AcquireLeaves(c, View(), key, aborted, abortedByKey, now);
      answer := Admission(key, aborted, abortedByKey, now);
    }

    method Admission(key: KeyResult, aborted: bool, abortedByKey: bool, now: nat) returns (answer: Answer)
      modifies this
      ensures (View(), answer) == Acquire(c, old(View()), key, aborted, abortedByKey, now)
    {
      Ask(now);
      if closed || aborted || !key.Text? || Utf8Bytes(key.key) > MaxPartitionKeyBytes || abortedByKey {
        answer := Dismiss(key, aborted);
      } else {
        answer := LocatePartition(key.key);
      }
    }

    method Dismiss(key: KeyResult, aborted: bool) returns (answer: Answer)
      modifies this`shut, this`totals
      ensures (View(), answer) == TurnAway(old(View()), key, aborted)
    {
      if closed {
        shut := shut + 1;
        return Fails(Closed);
      }
      if aborted {
        totals := totals.(cancelled := totals.cancelled + 1);
        return Fails(Cancelled);
      }
      if !key.Text? || Utf8Bytes(key.key) > MaxPartitionKeyBytes {
        totals := totals.(rejected := totals.rejected + 1);
        return Fails(BadPartition);
      }
      totals := totals.(cancelled := totals.cancelled + 1);
      return Fails(Cancelled);
    }

    method LocatePartition(key: string) returns (answer: Answer)
      modifies this
      ensures (View(), answer) == Locate(c, MakeRoom(c, old(View()), key), key)
    {
      if key !in partitions { EvictIdlePartitions(); }
      if key !in partitions && |partitions| >= c.maxPartitions {
        totals := totals.(rejected := totals.rejected + 1);
        return Fails(NoPartition(c.retryAfterMs));
      }
      PruneBudget(key);
      answer := EnterPartition(key);
    }

    method EnterPartition(key: string) returns (answer: Answer)
      modifies this
      ensures (View(), answer) == Enter(c, old(View()), key)
    {
      var part := At(key);
      var retry := RetryAfter(c.budget, part.admittedAt, clock);
      if retry.Some? {
        totals := totals.(rateLimited := totals.rateLimited + 1);
        return Fails(OverBudget(retry.value));
      }
      if c.maxConcurrency.None? || part.active < c.maxConcurrency.value {
        var p := Grant(key, 0);
        return Admitted(p);
      }
      if |part.waiters| >= c.maxQueueSize {
        totals := totals.(rejected := totals.rejected + 1);
        return Fails(Concurrency(c.retryAfterMs));
      }
      var w := |joined|;
      partitions := partitions[key := part.(waiters := part.waiters + [Waiter(w, clock)])];
      joined := joined + [key];
      return Waiting(w);
    }

    /** Only the party that takes the waiter out of the queue may decide it. */
    method RemoveWaiter(w: nat) returns (removed: bool)
      requires w < |joined|
      modifies this`partitions
      ensures removed == Queued(old(View()), w)
      ensures View() == if removed then Remove(old(View()), w) else old(View())
    {
      var key := joined[w];
      var ws := At(key).waiters;
      var i := IndexOf(ws, w);
      if i == |ws| { return false; }
      WithoutAt(ws, w, i);
      partitions := partitions[key := At(key).(waiters := ws[..i] + ws[i + 1..])];
      return true;
    }

    method Record(w: nat, error: Error, end: Ending, cancel: bool, now: nat)
      modifies this`outcomes, this`ended, this`totals, this`clock
      ensures View() == Recorded(old(View()), w, error, end, cancel, now)
    {
      outcomes := outcomes[w := Refused(error)];
      ended := ended[w := end];
      totals := if cancel then totals.(cancelled := totals.cancelled + 1) else totals.(rejected := totals.rejected + 1);
      clock := now;
    }

    /** The queue timeout or the caller's abort. */
    method GiveUpWaiting(w: nat, cancel: bool, now: nat, ticks: seq<nat>)
      requires Valid() && Waits(View(), w) && clock <= now
      modifies this
      ensures Valid() && View() == GiveUp(c, old(View()), w, cancel, now, ticks)
    {
      GiveUpGood(c, View(), w, cancel, now, ticks);
      KnownWaiter(c, View(), w);
      Withdraw(w, cancel, now, ticks);
    }

    method Withdraw(w: nat, cancel: bool, now: nat, ticks: seq<nat>)
      requires w < |joined| && Waits(View(), w)
      modifies this
      ensures View() == GiveUp(c, old(View()), w, cancel, now, ticks)
    {
      var removed := RemoveWaiter(w);
      if removed {
        var error := if cancel then Cancelled else Concurrency(c.retryAfterMs);
        Record(w, error, Failed(error), cancel, now);
        MaybeDelete(joined[w]);
      } else {
        Receive(w, ticks);
      }
    }

    /** The waiting call's scope closed. */
    method InterruptWaiting(w: nat, now: nat, ticks: seq<nat>)
      requires Valid() && Waits(View(), w) && clock <= now
      modifies this
      ensures Valid() && View() == Interrupt(c, old(View()), w, now, ticks)
    {
      InterruptGood(c, View(), w, now, ticks);
      KnownWaiter(c, View(), w);
      CleanUp(w, now, ticks);
    }

    method CleanUp(w: nat, now: nat, ticks: seq<nat>)
      requires w < |joined| && Waits(View(), w)
      modifies this
      ensures View() == Interrupt(c, old(View()), w, now, ticks)
    {
      var removed := RemoveWaiter(w);
      if removed {
        Record(w, Cancelled, Interrupted, true, now);
        MaybeDelete(joined[w]);
      } else {
        if outcomes[w].Granted? { GiveBack(outcomes[w].permit, ticks); }
        ended := ended[w := Interrupted];
      }
    }

    /** A grant is heard a turn later; a shutdown in that gap wins. */
    method HearOutcome(w: nat, ticks: seq<nat>)
      requires Valid() && Waits(View(), w) && !Queued(View(), w)
      modifies this
      ensures Valid() && View() == Hear(c, old(View()), w, ticks)
      ensures old(closed) ==> !ended[w].Succeeded?
    {
      HearGood(c, View(), w, ticks);
      Receive(w, ticks);
    }

    method Receive(w: nat, ticks: seq<nat>)
      requires Waits(View(), w) && !Queued(View(), w)
      modifies this
      ensures View() == Hear(c, old(View()), w, ticks)
    {
      match outcomes[w] {
        case Refused(e) => ended := ended[w := Failed(e)];
        case Granted(p) =>
          if closed {
            GiveBack(p, ticks);
            ended := ended[w := Failed(Closed)];
          } else {
            ended := ended[w := Succeeded(p)];
          }
      }
    }

    /** Every waiter of one queue is refused. */
    method RefuseAll(ws: seq<Waiter>)
      modifies this`outcomes
      ensures forall x :: x in outcomes <==> x in old(outcomes) || Has(ws, x)
      ensures forall x :: x in outcomes ==> outcomes[x] == if Has(ws, x) then Refused(Closed) else old(outcomes)[x]
    {
      for i := 0 to |ws|
        invariant forall x :: x in outcomes <==> x in old(outcomes) || Has(ws[..i], x)
        invariant forall x :: x in outcomes ==> outcomes[x] == if Has(ws[..i], x) then Refused(Closed) else old(outcomes)[x]
      {
        HasMore(ws, i);
        outcomes := outcomes[ws[i].id := Refused(Closed)];
      }
      assert ws[..|ws|] == ws;
    }

    method EmptyQueues(ghost rest: set<nat>)
      requires rest !! outcomes.Keys && forall x: nat :: x in rest <==> Refusing(partitions, {}, x)
      modifies this`partitions, this`outcomes
      ensures partitions == Emptied(old(partitions)) && outcomes == RefuseRest(old(outcomes), rest)
    {
      var all := partitions;
      var todo := all.Keys;
      while todo != {}
        invariant todo <= all.Keys && partitions.Keys == all.Keys
        invariant forall k :: k in all ==> partitions[k] == if k in todo then all[k] else all[k].(waiters := [])
        invariant forall x: nat :: x in outcomes <==> x in old(outcomes) || Refusing(all, todo, x)
        invariant forall x :: x in outcomes ==>
          outcomes[x] == if Refusing(all, todo, x) then Refused(Closed) else old(outcomes)[x]
        decreases todo
      {
        var key :| key in todo;
        ghost var before := todo;
        todo := todo - {key};
        partitions := partitions[key := all[key].(waiters := [])];
        RefuseAll(all[key].waiters);
        RefusingMore(all, before, key);
      }
      RefusedRest(old(outcomes), rest, outcomes);
    }

    /** Final: everyone still queued is refused, and no later call is admitted. */
    method CloseAll()
      requires Valid()
      modifies this
      ensures Valid() && View() == Close(old(View()))
    {
      CloseGood(c, View());
      UndecidedRest(c, View());
      if !closed { Shut(Undecided(View())); }
    }

    method Shut(ghost rest: set<nat>)
      requires rest !! outcomes.Keys && forall x: nat :: x in rest <==> Refusing(partitions, {}, x)
      modifies this
      ensures View() == ClosedBy(old(View()), rest)
    {
      ghost var s := View();
      EmptyQueues(rest);
      closed := true;
      shut := shut + |rest|;
      AllRefused(s, rest, View());
    }

    method IsIdle(now: nat) returns (idle: bool)
      requires Valid() && clock <= now
      modifies this
      ensures Valid() && View() == Evict(c, old(View()).(clock := now), now)
      ensures idle <==> forall key :: AtRest(c, old(View()), key, now)
    {
      ghost var s := View();
      EvictGood(c, s, now);
      clock := now;
      EvictIdlePartitions();
      IdleIff(c, s, now);
      return partitions == map[];
    }
  }
}
