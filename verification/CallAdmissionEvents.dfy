/** Every event of call admission keeps the invariant. */
module CallAdmissionEvents {
  import opened Options
  import opened CallAdmissionModel
  import opened CallAdmissionInvariant

  ghost predicate Core(c: Config, s: State) {
    var core := Budgets(c, s) && Slots(c, s) && Lines(c, s) && Accounted(s) && InOrder(s) && Grants(s) && Endings(s);
    core
  }

  lemma {:induction false} PumpServes(c: Config, s: State, key: string, ticks: seq<nat>)
    requires Accepted(c) && Serving(c, s, key)
    ensures Good(c, Pump(c, s, key, ticks))
    decreases |Of(s, key).waiters|
  {
    if Pumps(c, s, key) {
      PumpOneServing(c, s, key, Tick(ticks));
      PumpServes(c, PumpOne(c, s, key, Tick(ticks)), key, Later(ticks));
    } else {
      assert Line(c, s, key) && SlotsKept(c, s, key);
    }
  }

  /* ---- Time passing and admissions forgotten --------------------------------------------- */

  /** Nothing changes but the clock, the counters and how much of the past is remembered. */
  ghost predicate Eased(c: Config, s: State, t: State) {
    var eased :=
      && s.clock <= t.clock && t.closed == s.closed && t.joined == s.joined && t.ended == s.ended
      && t.permits == s.permits && t.charges == s.charges && t.outcomes == s.outcomes
      && (forall k :: EasedAt(c, s, t, k));
    eased
  }

  predicate EasedAt(c: Config, s: State, t: State, k: string) {
    && Of(t, k).active == Of(s, k).active && Of(t, k).waiters == Of(s, k).waiters
    && (|| Of(t, k).admittedAt == Of(s, k).admittedAt
        || Of(t, k).admittedAt == Pruned(c.budget, Of(s, k).admittedAt, t.clock))
  }

  lemma {:induction false} EasedBudget(c: Config, s: State, t: State, k: string)
    requires BudgetKept(c, s, k) && Eased(c, s, t)
    ensures BudgetKept(c, t, k)
  {
    assert EasedAt(c, s, t, k);
    if c.budget.Some? {
      LaterKeeps(c.budget.value, Of(s, k).admittedAt, Times(s.charges, k), s.clock, t.clock);
      PrunedKeeps(c.budget.value, Of(s, k).admittedAt, Times(s.charges, k), s.clock, t.clock);
    }
  }

  lemma {:induction false} EasedQueue(c: Config, s: State, t: State)
    requires Lines(c, s) && Accounted(s) && InOrder(s) && Grants(s) && Endings(s) && Eased(c, s, t)
    ensures Lines(c, t) && Accounted(t) && InOrder(t) && Grants(t) && Endings(t)
  {
    forall k ensures Line(c, t, k) { assert Line(c, s, k) && EasedAt(c, s, t, k); }
    forall w | 0 <= w < |t.joined| && w !in t.outcomes ensures Queued(t, w) {
      assert Queued(s, w) && EasedAt(c, s, t, s.joined[w]);
    }
    assert forall w :: 0 <= w < |t.joined| ==> EasedAt(c, s, t, s.joined[w]);
  }

  lemma {:induction false} EasedKeeps(c: Config, s: State, t: State)
    requires Core(c, s) && Eased(c, s, t)
    ensures Core(c, t) && (Conserving(c, s) ==> Conserving(c, t))
  {
    forall k ensures BudgetKept(c, t, k) { assert BudgetKept(c, s, k); EasedBudget(c, s, t, k); }
    forall k ensures SlotsKept(c, t, k) { assert SlotsKept(c, s, k) && EasedAt(c, s, t, k); }
    EasedQueue(c, s, t);
    if Conserving(c, s) {
      forall k ensures Conserved(c, t, k) { assert Conserved(c, s, k) && EasedAt(c, s, t, k); }
    }
  }

  /* ---- A slot or a charge ---------------------------------------------------------------- */

  lemma {:induction false} ChargedBudget(c: Config, s: State, t: State, key: string, k: string)
    requires Accepted(c) && BudgetKept(c, s, k) && HasRoom(c, s, key) && t.clock == s.clock
    requires t.charges == s.charges + [Charge(key, s.clock)]
    requires Of(t, k).admittedAt == if k == key then Counted(c, Of(s, key).admittedAt, s.clock) else Of(s, k).admittedAt
    ensures BudgetKept(c, t, k)
  {
    TimesMore(s.charges, Charge(key, s.clock), k);
    if c.budget.Some? && k == key {
      ChargeKeeps(c.budget.value, Of(s, k).admittedAt, Times(s.charges, k), s.clock);
    }
  }

  lemma {:induction false} AdmitKeeps(c: Config, s: State, key: string, waitMs: nat)
    requires Accepted(c) && Core(c, s) && HasRoom(c, s, key) && Conserving(c, s)
    requires c.maxConcurrency.None? || Of(s, key).active < c.maxConcurrency.value
    ensures Core(c, Admit(c, s, key, waitMs)) && Conserving(c, Admit(c, s, key, waitMs))
    ensures Of(s, key).waiters == []
  {
    var t := Admit(c, s, key, waitMs);
    assert Conserved(c, s, key);
    assert Line(c, s, key);
    forall k ensures BudgetKept(c, t, k) { assert BudgetKept(c, s, k); ChargedBudget(c, s, t, key, k); }
    forall k ensures SlotsKept(c, t, k) {
      assert SlotsKept(c, s, k);
      HeldMore(s.permits, Permit(key, waitMs, false), k);
    }
    AdmitQueue(c, s, key, waitMs);
    forall k ensures Conserved(c, t, k) { assert Conserved(c, s, k); }
  }

  lemma {:induction false} AdmitQueue(c: Config, s: State, key: string, waitMs: nat)
    requires Lines(c, s) && Accounted(s) && InOrder(s) && Grants(s) && Endings(s)
    ensures var t := Admit(c, s, key, waitMs); Lines(c, t) && Accounted(t) && InOrder(t) && Grants(t) && Endings(t)
  {
    var t := Admit(c, s, key, waitMs);
    forall k ensures Line(c, t, k) { assert Line(c, s, k); }
    forall w | 0 <= w < |t.joined| && w !in t.outcomes ensures Queued(t, w) { assert Queued(s, w); }
    assert forall k :: Of(t, k).waiters == Of(s, k).waiters;
    AdmitGrants(c, s, key, waitMs);
  }

  lemma {:induction false} AdmitGrants(c: Config, s: State, key: string, waitMs: nat)
    requires Grants(s) && Endings(s)
    ensures Grants(Admit(c, s, key, waitMs)) && Endings(Admit(c, s, key, waitMs))
  {
  }

  /* ---- Joining and leaving the queue ----------------------------------------------------- */

  function Join(s: State, key: string): State {
    var part := Of(s, key);
    Put(s, key, part.(waiters := part.waiters + [Waiter(|s.joined|, s.clock)])).(joined := s.joined + [key])
  }

  lemma {:induction false} JoinLine(c: Config, s: State, key: string, k: string)
    requires Line(c, s, k) && !s.closed && c.maxConcurrency.Some? && |Of(s, key).waiters| < c.maxQueueSize
    requires forall w :: w in s.outcomes ==> w < |s.joined|
    ensures Line(c, Join(s, key), k)
  {
  }

  lemma {:induction false} JoinAccounted(c: Config, s: State, key: string)
    requires Lines(c, s) && Accounted(s) && InOrder(s) && Grants(s) && Endings(s)
    ensures var t := Join(s, key); Accounted(t) && InOrder(t) && Grants(t) && Endings(t)
  {
    var t := Join(s, key);
    var n := |Of(s, key).waiters|;
    assert Of(t, key).waiters[n].id == |s.joined|;
    forall w | 0 <= w < |t.joined| && w !in t.outcomes ensures Queued(t, w) {
      if w < |s.joined| {
        assert Queued(s, w);
        var i :| 0 <= i < |Of(s, s.joined[w]).waiters| && Of(s, s.joined[w]).waiters[i].id == w;
        assert Of(t, t.joined[w]).waiters[i].id == w;
      } else {
        assert t.joined[w] == key && Has(Of(t, key).waiters, w);
      }
    }
    forall w, i | w in t.outcomes && t.outcomes[w].Granted? && w < |t.joined| && 0 <= i < |Of(t, t.joined[w]).waiters|
      ensures w < Of(t, t.joined[w]).waiters[i].id
    {
      assert t.joined[w] == s.joined[w];
      if i < |Of(s, s.joined[w]).waiters| { assert Of(t, t.joined[w]).waiters[i] == Of(s, s.joined[w]).waiters[i]; }
    }
  }

  lemma {:induction false} JoinKeeps(c: Config, s: State, key: string)
    requires Core(c, s) && Conserving(c, s) && !s.closed
    requires c.maxConcurrency.Some? && Of(s, key).active >= c.maxConcurrency.value && |Of(s, key).waiters| < c.maxQueueSize
    ensures Core(c, Join(s, key)) && Conserving(c, Join(s, key))
  {
    var t := Join(s, key);
    assert SlotsKept(c, s, key);
    forall k ensures BudgetKept(c, t, k) { assert BudgetKept(c, s, k); }
    forall k ensures SlotsKept(c, t, k) { assert SlotsKept(c, s, k); }
    forall k ensures Line(c, t, k) { assert Line(c, s, k); JoinLine(c, s, key, k); }
    JoinAccounted(c, s, key);
    forall k ensures Conserved(c, t, k) { assert Conserved(c, s, k); }
  }

  lemma {:induction false} WithoutHolds(ws: seq<Waiter>, w: nat)
    requires forall i, j :: 0 <= i < j < |ws| ==> ws[i].id < ws[j].id
    ensures forall x :: x in Without(ws, w) <==> x in ws && x.id != w
    ensures |Without(ws, w)| <= |ws|
  {
    if ws != [] {
      WithoutHolds(ws[1..], w);
      assert forall x :: x in ws <==> x == ws[0] || x in ws[1..];
    }
  }

  lemma {:induction false} WithoutHas(ws: seq<Waiter>, w: nat)
    requires forall i, j :: 0 <= i < j < |ws| ==> ws[i].id < ws[j].id
    ensures forall i, j :: 0 <= i < j < |Without(ws, w)| ==> Without(ws, w)[i].id < Without(ws, w)[j].id
    ensures forall x :: x in Without(ws, w) <==> x in ws && x.id != w
    ensures |Without(ws, w)| <= |ws|
  {
    WithoutHolds(ws, w);
    if ws != [] && ws[0].id != w {
      WithoutHas(ws[1..], w);
      assert Without(ws, w)[1..] == Without(ws[1..], w);
      forall j | 0 < j < |Without(ws, w)| ensures ws[0].id < Without(ws, w)[j].id {
        assert Without(ws, w)[j] in ws[1..];
      }
    }
  }

  /** A waiter leaves the queue undecided by anyone else, with its refusal recorded. */
  function Leave(s: State, w: nat, error: Error, end: Ending): State
    requires w < |s.joined|
  {
    Decide(Remove(s, w), w, Refused(error)).(ended := s.ended[w := end])
  }

  lemma {:induction false} HasIn(ws: seq<Waiter>, w: nat)
    ensures Has(ws, w) <==> exists x :: x in ws && x.id == w
  {
    if Has(ws, w) {
      var i :| 0 <= i < |ws| && ws[i].id == w;
      assert ws[i] in ws;
    }
    if x :| x in ws && x.id == w {
      var i :| 0 <= i < |ws| && ws[i] == x;
    }
  }

  lemma {:induction false} LeaveLine(c: Config, s: State, w: nat, error: Error, end: Ending, k: string)
    requires Line(c, s, k) && w < |s.joined|
    ensures Line(c, Leave(s, w, error, end), k)
  {
    var ws, t := Of(s, k).waiters, Leave(s, w, error, end);
    WithoutHas(ws, w);
    var us := Of(t, k).waiters;
    assert us == if k == s.joined[w] then Without(ws, w) else ws;
    forall i | 0 <= i < |us|
      ensures us[i].id < |s.joined| && s.joined[us[i].id] == k && us[i].queuedAt <= s.clock && us[i].id !in t.outcomes
    {
      assert us[i] in ws;
    }
  }

  lemma {:induction false} LeaveAccounted(c: Config, s: State, w: nat, error: Error, end: Ending)
    requires Lines(c, s) && Accounted(s) && w < |s.joined|
    ensures Accounted(Leave(s, w, error, end))
  {
    var t := Leave(s, w, error, end);
    forall v | 0 <= v < |t.joined| && v !in t.outcomes ensures Queued(t, v) {
      assert Queued(s, v) && Line(c, s, s.joined[v]);
      HasIn(Of(s, s.joined[v]).waiters, v);
      WithoutHas(Of(s, s.joined[v]).waiters, w);
      HasIn(Of(t, s.joined[v]).waiters, v);
    }
  }

  lemma {:induction false} LeaveRest(c: Config, s: State, w: nat, error: Error, end: Ending)
    requires Lines(c, s) && InOrder(s) && Grants(s) && Endings(s) && w < |s.joined| && w !in s.outcomes && !end.Succeeded?
    ensures var t := Leave(s, w, error, end); InOrder(t) && Grants(t) && Endings(t)
  {
    var t := Leave(s, w, error, end);
    forall v, i | v in t.outcomes && t.outcomes[v].Granted? && v < |t.joined| && 0 <= i < |Of(t, t.joined[v]).waiters|
      ensures v < Of(t, t.joined[v]).waiters[i].id
    {
      LeaveOrder(c, s, w, error, end, v, i);
    }
    LeaveGrants(s, w, error, end);
  }

  lemma {:induction false} LeaveGrants(s: State, w: nat, error: Error, end: Ending)
    requires Grants(s) && Endings(s) && w < |s.joined| && w !in s.outcomes && !end.Succeeded?
    ensures var t := Leave(s, w, error, end); Grants(t) && Endings(t)
  {
  }

  /** Leaving the queue lets nobody overtake. */
  lemma {:induction false} LeaveOrder(c: Config, s: State, w: nat, error: Error, end: Ending, v: nat, i: nat)
    requires Lines(c, s) && InOrder(s) && w < |s.joined| && w !in s.outcomes && v < |s.joined|
    requires var t := Leave(s, w, error, end);
      v in t.outcomes && t.outcomes[v].Granted? && i < |Of(t, s.joined[v]).waiters|
    ensures v < Of(Leave(s, w, error, end), s.joined[v]).waiters[i].id
  {
    var ws := Of(s, s.joined[v]).waiters;
    var waiter := Of(Leave(s, w, error, end), s.joined[v]).waiters[i];
    assert Line(c, s, s.joined[v]);
    WithoutHas(ws, w);
    assert waiter in ws;
    var j :| 0 <= j < |ws| && ws[j] == waiter;
  }

  lemma {:induction false} LeaveKeeps(c: Config, s: State, w: nat, error: Error, end: Ending)
    requires Core(c, s) && Conserving(c, s) && Queued(s, w) && !end.Succeeded?
    ensures Core(c, Leave(s, w, error, end)) && Conserving(c, Leave(s, w, error, end)) && w !in s.outcomes
  {
    var t := Leave(s, w, error, end);
    assert Line(c, s, s.joined[w]);
    forall k ensures BudgetKept(c, t, k) { assert BudgetKept(c, s, k); }
    forall k ensures SlotsKept(c, t, k) { assert SlotsKept(c, s, k); }
    forall k ensures Line(c, t, k) { assert Line(c, s, k); LeaveLine(c, s, w, error, end, k); }
    LeaveAccounted(c, s, w, error, end);
    LeaveRest(c, s, w, error, end);
    forall k ensures Conserved(c, t, k) {
      assert Conserved(c, s, k) && Line(c, s, k);
      WithoutHas(Of(s, k).waiters, w);
    }
  }

  /* ---- Events ---------------------------------------------------------------------------- */

  lemma {:induction false} GoodIs(c: Config, s: State)
    ensures Good(c, s) <==> Core(c, s) && Conserving(c, s) && Tally(s) && |s.partitions| <= c.maxPartitions
  {
  }

  lemma {:induction false} SizeKept(before: map<string, Partition>, after: map<string, Partition>)
    requires after.Keys <= before.Keys
    ensures |after| <= |before|
  {
    assert before.Keys == after.Keys + (before.Keys - after.Keys);
    assert |after.Keys| == |after| && |before.Keys| == |before|;
  }

  lemma {:induction false} TidyEases(c: Config, s: State, key: string)
    ensures Eased(c, s, Tidy(c, s, key, s.clock)) && |Tidy(c, s, key, s.clock).partitions| <= |s.partitions|
  {
    var t := Tidy(c, s, key, s.clock);
    forall k ensures EasedAt(c, s, t, k) { }
    SizeKept(s.partitions, t.partitions);
  }

  lemma {:induction false} EvictEases(c: Config, s: State)
    ensures Eased(c, s, Evict(c, s, s.clock)) && |Evict(c, s, s.clock).partitions| <= |s.partitions|
  {
    var t := Evict(c, s, s.clock);
    forall k ensures EasedAt(c, s, t, k) { }
    SizeKept(s.partitions, t.partitions);
  }

  lemma {:induction false} TidyGood(c: Config, s: State, key: string)
    requires Good(c, s)
    ensures Good(c, Tidy(c, s, key, s.clock))
  {
    GoodIs(c, s);
    TidyEases(c, s, key);
    EasedKeeps(c, s, Tidy(c, s, key, s.clock));
    GoodIs(c, Tidy(c, s, key, s.clock));
  }

  /** Anyone may ask whether the controller is idle: forgetting idle partitions keeps the invariant. */
  lemma {:induction false} EvictGood(c: Config, s: State, now: nat)
    requires Good(c, s) && s.clock <= now
    ensures Good(c, Evict(c, s.(clock := now), now))
  {
    var later := s.(clock := now);
    GoodIs(c, s);
    assert forall k :: EasedAt(c, s, later, k);
    EasedKeeps(c, s, later);
    EvictEases(c, later);
    EasedKeeps(c, later, Evict(c, later, now));
    GoodIs(c, Evict(c, later, now));
  }

  /** The slot given back, before anyone is served from the queue. */
  function Freed(s: State, p: nat): State
    requires p < |s.permits|
  {
    var key := s.permits[p].key;
    var part := Of(s, key);
    Put(s, key, part.(active := if part.active > 0 then part.active - 1 else 0)).(
      permits := s.permits[p := s.permits[p].(released := true)])
  }

  lemma {:induction false} FreedQueue(c: Config, s: State, p: nat)
    requires Lines(c, s) && Accounted(s) && InOrder(s) && Grants(s) && Endings(s) && p < |s.permits|
    ensures var t := Freed(s, p); Lines(c, t) && Accounted(t) && InOrder(t) && Grants(t) && Endings(t)
  {
    var t := Freed(s, p);
    assert forall k :: Of(t, k).waiters == Of(s, k).waiters;
    forall k ensures Line(c, t, k) { assert Line(c, s, k); }
    forall w | 0 <= w < |t.joined| && w !in t.outcomes ensures Queued(t, w) { assert Queued(s, w); }
    FreedGrants(s, p);
  }

  lemma {:induction false} FreedGrants(s: State, p: nat)
    requires Grants(s) && Endings(s) && p < |s.permits|
    ensures Grants(Freed(s, p)) && Endings(Freed(s, p))
  {
  }

  lemma {:induction false} FreedListed(c: Config, s: State, p: nat)
    requires Slots(c, s) && p < |s.permits| && !s.permits[p].released
    ensures s.permits[p].key in s.partitions && |Freed(s, p).partitions| == |s.partitions|
    ensures Slots(c, Freed(s, p))
  {
    var key, t := s.permits[p].key, Freed(s, p);
    assert SlotsKept(c, s, key);
    HeldReleased(s.permits, p, key);
    assert t.partitions.Keys == s.partitions.Keys;
    assert |t.partitions| == |s.partitions|;
    forall k ensures SlotsKept(c, t, k) { assert SlotsKept(c, s, k); HeldReleased(s.permits, p, k); }
  }

  lemma {:induction false} ReleaseGood(c: Config, s: State, p: nat, ticks: seq<nat>)
    requires Accepted(c) && Good(c, s) && p < |s.permits|
    ensures Good(c, Release(c, s, p, ticks))
  {
    if !s.permits[p].released {
      FreedServing(c, s, p);
      PumpServes(c, Freed(s, p), s.permits[p].key, ticks);
    }
  }

  lemma {:induction false} FreedServing(c: Config, s: State, p: nat)
    requires Good(c, s) && p < |s.permits| && !s.permits[p].released
    ensures Serving(c, Freed(s, p), s.permits[p].key)
  {
    var key, t := s.permits[p].key, Freed(s, p);
    FreedListed(c, s, p);
    FreedQueue(c, s, p);
    forall k ensures BudgetKept(c, t, k) { assert BudgetKept(c, s, k); }
    forall k | k != key ensures Conserved(c, t, k) { assert Conserved(c, s, k); }
  }

  /** Asking at a later time changes nothing else. */
  lemma {:induction false} AskedKeeps(c: Config, s: State, now: nat)
    requires Good(c, s) && s.clock <= now
    ensures var t := Begin(s, now);
      Asked(c, t)
  {
    var t := Begin(s, now);
    assert forall k :: EasedAt(c, s, t, k);
    GoodIs(c, s);
    EasedKeeps(c, s, t);
  }

  lemma {:induction false} SameCore(c: Config, s: State, t: State)
    requires Core(c, s) && Conserving(c, s)
    requires t == s.(totals := t.totals, shut := t.shut, requests := t.requests)
    ensures Core(c, t) && Conserving(c, t)
  {
    assert forall k :: EasedAt(c, s, t, k);
    EasedKeeps(c, s, t);
  }

  lemma {:induction false} PrunedKeepsCore(c: Config, s: State, key: string)
    requires Core(c, s) && Conserving(c, s)
    ensures var t := PruneAt(c, s, key); Core(c, t) && Conserving(c, t)
  {
    var t := PruneAt(c, s, key);
    forall k ensures EasedAt(c, s, t, k) { }
    EasedKeeps(c, s, t);
  }

  lemma {:induction false} ChargedKeeps(c: Config, s: State, key: string)
    requires Accepted(c) && Core(c, s) && Conserving(c, s) && HasRoom(c, s, key)
    ensures Core(c, Charged(c, s, key)) && Conserving(c, Charged(c, s, key))
  {
    var t := Charged(c, s, key);
    assert forall k :: Of(t, k).waiters == Of(s, k).waiters && Of(t, k).active == Of(s, k).active;
    forall k ensures BudgetKept(c, t, k) { assert BudgetKept(c, s, k); ChargedBudget(c, s, t, key, k); }
    forall k ensures SlotsKept(c, t, k) { assert SlotsKept(c, s, k); }
    forall k ensures Line(c, t, k) { assert Line(c, s, k); }
    forall w | 0 <= w < |t.joined| && w !in t.outcomes ensures Queued(t, w) { assert Queued(s, w); }
    forall k ensures Conserved(c, t, k) { assert Conserved(c, s, k); }
  }

  lemma {:induction false} ChargeGood(c: Config, s: State, p: nat, aborted: bool, now: nat)
    requires Accepted(c) && Good(c, s) && s.clock <= now && p < |s.permits|
    ensures Good(c, ChargePermit(c, s, p, aborted, now).0)
  {
    var asked := Begin(s, now);
    var t := ChargePermit(c, s, p, aborted, now).0;
    AskedKeeps(c, s, now);
    if s.closed || s.permits[p].released || aborted {
      RefusedGood(c, asked, t);
    } else {
      FreedListed(c, s, p);
      PruneThenCount(c, asked, s.permits[p].key);
    }
  }

  /** Asked for and not yet counted anywhere. */
  ghost predicate Asked(c: Config, s: State) {
    var asked :=
      && s.requests > 0 && Tally(s.(requests := s.requests - 1))
      && Core(c, s) && Conserving(c, s) && |s.partitions| <= c.maxPartitions;
    asked
  }

  /** A refusal that is counted in one place. */
  lemma {:induction false} RefusedGood(c: Config, s: State, t: State)
    requires Asked(c, s) && t == s.(totals := t.totals, shut := t.shut) && t.totals.admitted == s.totals.admitted
    requires t.totals.rejected + t.totals.rateLimited + t.totals.cancelled + t.shut
             == s.totals.rejected + s.totals.rateLimited + s.totals.cancelled + s.shut + 1
    ensures Good(c, t)
  {
    SameCore(c, s, t);
    GoodIs(c, t);
  }

  lemma {:induction false} PruneThenCount(c: Config, s: State, key: string)
    requires Accepted(c) && Asked(c, s) && key in s.partitions
    ensures Good(c, Count(c, PruneAt(c, s, key), key))
  {
    PruneAsked(c, s, key);
    CountGood(c, PruneAt(c, s, key), key);
  }

  lemma {:induction false} PruneAsked(c: Config, s: State, key: string)
    requires Asked(c, s) && (key in s.partitions || |s.partitions| < c.maxPartitions)
    ensures var t := PruneAt(c, s, key); Asked(c, t) && key in t.partitions
  {
    PrunedKeepsCore(c, s, key);
    Added(s.partitions, key, PrunedPartition(c, Of(s, key), s.clock));
  }

  lemma {:induction false} CountGood(c: Config, s: State, key: string)
    requires Accepted(c) && Asked(c, s) && key in s.partitions
    ensures Good(c, Count(c, s, key))
  {
    var t := Count(c, s, key);
    if HasRoom(c, s, key) {
      ChargedKeeps(c, s, key);
      Added(s.partitions, key, t.partitions[key]);
      GoodIs(c, t);
    } else {
      RefusedGood(c, s, t);
    }
  }

  lemma {:induction false} EnterGood(c: Config, s: State, key: string)
    requires Accepted(c) && Asked(c, s) && !s.closed && key in s.partitions
    ensures Good(c, Enter(c, s, key).0)
  {
    var t, part := Enter(c, s, key).0, Of(s, key);
    if !HasRoom(c, s, key) {
      RefusedGood(c, s, t);
    } else if c.maxConcurrency.None? || part.active < c.maxConcurrency.value {
      AdmittedGood(c, s, key);
    } else if |part.waiters| >= c.maxQueueSize {
      RefusedGood(c, s, t);
    } else {
      JoinedGood(c, s, key);
      assert t == Join(s, key);
    }
  }

  lemma {:induction false} AdmittedGood(c: Config, s: State, key: string)
    requires Accepted(c) && Asked(c, s) && HasRoom(c, s, key) && key in s.partitions
    requires c.maxConcurrency.None? || Of(s, key).active < c.maxConcurrency.value
    ensures Good(c, Admit(c, s, key, 0))
  {
    AdmitKeeps(c, s, key, 0);
    Added(s.partitions, key, Admit(c, s, key, 0).partitions[key]);
    GoodIs(c, Admit(c, s, key, 0));
  }

  lemma {:induction false} JoinedGood(c: Config, s: State, key: string)
    requires Asked(c, s) && !s.closed && key in s.partitions && |Of(s, key).waiters| < c.maxQueueSize
    requires c.maxConcurrency.Some? && Of(s, key).active >= c.maxConcurrency.value
    ensures Good(c, Join(s, key))
  {
    JoinKeeps(c, s, key);
    Added(s.partitions, key, Join(s, key).partitions[key]);
    GoodIs(c, Join(s, key));
  }

  lemma {:induction false} LocateGood(c: Config, s: State, key: string)
    requires Accepted(c) && Asked(c, s) && !s.closed
    ensures Good(c, Locate(c, s, key).0)
  {
    if key in s.partitions || |s.partitions| < c.maxPartitions {
      PruneAsked(c, s, key);
      EnterGood(c, PruneAt(c, s, key), key);
    } else {
      RefusedGood(c, s, Reject(s));
    }
  }

  lemma {:induction false} RoomAsked(c: Config, s: State, key: string)
    requires Asked(c, s)
    ensures Asked(c, MakeRoom(c, s, key)) && MakeRoom(c, s, key).closed == s.closed
  {
    EvictEases(c, s);
    EasedKeeps(c, s, Evict(c, s, s.clock));
  }

  lemma {:induction false} AcquireGood(c: Config, s: State, key: KeyResult, aborted: bool, abortedByKey: bool, now: nat)
    requires Accepted(c) && Good(c, s) && s.clock <= now
    ensures Good(c, Acquire(c, s, key, aborted, abortedByKey, now).0)
  {
    var asked := Begin(s, now);
    AskedKeeps(c, s, now);
    if TurnedAway(s, key, aborted, abortedByKey) {
      TurnAwayGood(c, asked, key, aborted);
    } else {
      RoomAsked(c, asked, key.key);
      LocateGood(c, MakeRoom(c, asked, key.key), key.key);
    }
  }

  lemma {:induction false} TurnAwayGood(c: Config, s: State, key: KeyResult, aborted: bool)
    requires Asked(c, s)
    ensures Good(c, TurnAway(s, key, aborted).0)
  {
    RefusedGood(c, s, TurnAway(s, key, aborted).0);
  }

  lemma {:induction false} Added(m: map<string, Partition>, key: string, part: Partition)
    ensures |m[key := part]| == if key in m then |m| else |m| + 1
  {
    var n := m[key := part];
    assert n.Keys == m.Keys + {key};
    assert |n| == |n.Keys| && |m| == |m.Keys|;
  }

  lemma {:induction false} EndedQueues(c: Config, s: State, t: State)
    requires Budgets(c, s) && Slots(c, s) && Lines(c, s) && t == s.(ended := t.ended)
    ensures Budgets(c, t) && Slots(c, t) && Lines(c, t)
  {
    assert forall k :: Of(t, k) == Of(s, k);
    forall k ensures BudgetKept(c, t, k) { assert BudgetKept(c, s, k); }
    forall k ensures SlotsKept(c, t, k) { assert SlotsKept(c, s, k); }
    forall k ensures Line(c, t, k) { assert Line(c, s, k); }
  }

  /** The waiting call of `w` is over, with what it was granted given back unless it succeeds. */
  lemma {:induction false} EndedGood(c: Config, s: State, w: nat, end: Ending)
    requires Good(c, s) && w in s.outcomes
    requires end.Succeeded? ==> s.outcomes[w] == Granted(end.permit)
    requires !end.Succeeded? && s.outcomes[w].Granted? ==>
      s.outcomes[w].permit < |s.permits| && s.permits[s.outcomes[w].permit].released
    ensures Good(c, s.(ended := s.ended[w := end]))
  {
    var t := s.(ended := s.ended[w := end]);
    assert forall k :: Of(t, k) == Of(s, k);
    EndedQueues(c, s, t);
    EndedRest(c, s, t);
  }

  lemma {:induction false} EndedRest(c: Config, s: State, t: State)
    requires Accounted(s) && InOrder(s) && Grants(s) && Tally(s) && Conserving(c, s) && t == s.(ended := t.ended)
    ensures Accounted(t) && InOrder(t) && Grants(t) && Tally(t) && Conserving(c, t)
  {
    assert forall k :: Of(t, k) == Of(s, k);
    forall w | 0 <= w < |t.joined| && w !in t.outcomes ensures Queued(t, w) { assert Queued(s, w); }
    forall k ensures Conserved(c, t, k) { assert Conserved(c, s, k); }
  }

  lemma {:induction false} PumpKeeps(c: Config, s: State, key: string, ticks: seq<nat>, w: nat, p: nat)
    requires Accepted(c) && Serving(c, s, key) && w in s.outcomes && p < |s.permits| && s.permits[p].released
    ensures var t := Pump(c, s, key, ticks);
      && w in t.outcomes && t.outcomes[w] == s.outcomes[w] && p < |t.permits| && t.permits[p].released
      && t.closed == s.closed
    decreases |Of(s, key).waiters|
  {
    if Pumps(c, s, key) {
      var granted := PumpOneServed(c, s, key, Tick(ticks));
      assert Line(c, s, key);
      PumpOneServing(c, s, key, Tick(ticks));
      PumpKeeps(c, PumpOne(c, s, key, Tick(ticks)), key, Later(ticks), w, p);
    }
  }

  /** Giving a permit back undoes no decision. */
  lemma {:induction false} ReleaseKeeps(c: Config, s: State, p: nat, ticks: seq<nat>, w: nat)
    requires Accepted(c) && Good(c, s) && p < |s.permits| && w in s.outcomes
    ensures var t := Release(c, s, p, ticks);
      w in t.outcomes && t.outcomes[w] == s.outcomes[w] && p < |t.permits| && t.permits[p].released && t.closed == s.closed
  {
    if !s.permits[p].released {
      FreedServing(c, s, p);
      PumpKeeps(c, Freed(s, p), s.permits[p].key, ticks, w, p);
    }
  }

  /** A permit granted to a call that will not use it goes back, and its slot may serve the next in line. */
  lemma {:induction false} GiveBackGood(c: Config, s: State, w: nat, end: Ending, ticks: seq<nat>)
    requires Accepted(c) && Good(c, s) && w in s.outcomes && s.outcomes[w].Granted? && !end.Succeeded?
    requires s.outcomes[w].permit < |s.permits|
    ensures var t := Release(c, s, s.outcomes[w].permit, ticks); Good(c, t.(ended := t.ended[w := end]))
  {
    var p := s.outcomes[w].permit;
    ReleaseGood(c, s, p, ticks);
    ReleaseKeeps(c, s, p, ticks, w);
    EndedGood(c, Release(c, s, p, ticks), w, end);
  }

  lemma {:induction false} HearGood(c: Config, s: State, w: nat, ticks: seq<nat>)
    requires Accepted(c) && Good(c, s) && w in s.outcomes
    ensures s.outcomes[w].Granted? ==> s.outcomes[w].permit < |s.permits|
    ensures Good(c, Hear(c, s, w, ticks))
    ensures s.closed ==> !Hear(c, s, w, ticks).ended[w].Succeeded?
  {
    if s.outcomes[w].Refused? {
      EndedGood(c, s, w, Failed(s.outcomes[w].error));
    } else if s.closed {
      GiveBackGood(c, s, w, Failed(Closed), ticks);
    } else {
      EndedGood(c, s, w, Succeeded(s.outcomes[w].permit));
    }
  }

  lemma {:induction false} LeftTally(c: Config, s: State, w: nat, error: Error, end: Ending, cancel: bool, now: nat)
    requires Tally(s) && Accounted(s) && w < |s.joined| && w !in s.outcomes
    ensures Tally(Left(s, w, error, end, cancel, now))
  {
    var t := Left(s, w, error, end, cancel, now);
    OneMore(s.outcomes, w, Refused(error));
    Bounded(t.outcomes, |t.joined|);
  }

  lemma {:induction false} LeftGood(c: Config, s: State, w: nat, error: Error, end: Ending, cancel: bool, now: nat)
    requires Good(c, s) && Queued(s, w) && !end.Succeeded? && s.clock <= now
    ensures Good(c, Left(s, w, error, end, cancel, now))
  {
    GoodIs(c, s);
    LeaveKeeps(c, s, w, error, end);
    LeftTally(c, s, w, error, end, cancel, now);
    var t, u := Leave(s, w, error, end), Left(s, w, error, end, cancel, now);
    assert forall k :: EasedAt(c, t, u, k);
    EasedKeeps(c, t, u);
    Added(s.partitions, s.joined[w], u.partitions[s.joined[w]]);
    GoodIs(c, u);
  }

  lemma {:induction false} LeaveGood(c: Config, s: State, w: nat, error: Error, end: Ending, cancel: bool, now: nat)
    requires Good(c, s) && Queued(s, w) && !end.Succeeded? && s.clock <= now
    ensures Good(c, Tidy(c, Left(s, w, error, end, cancel, now), s.joined[w], now))
  {
    LeftGood(c, s, w, error, end, cancel, now);
    TidyGood(c, Left(s, w, error, end, cancel, now), s.joined[w]);
  }

  lemma {:induction false} GiveUpGood(c: Config, s: State, w: nat, cancel: bool, now: nat, ticks: seq<nat>)
    requires Accepted(c) && Good(c, s) && s.clock <= now && (Queued(s, w) || w in s.outcomes)
    ensures Queued(s, w) || (s.outcomes[w].Granted? ==> s.outcomes[w].permit < |s.permits|)
    ensures Good(c, GiveUp(c, s, w, cancel, now, ticks))
  {
    if Queued(s, w) {
      var error := if cancel then Cancelled else Concurrency(c.retryAfterMs);
      LeaveGood(c, s, w, error, Failed(error), cancel, now);
    } else {
      HearGood(c, s, w, ticks);
    }
  }

  lemma {:induction false} InterruptGood(c: Config, s: State, w: nat, now: nat, ticks: seq<nat>)
    requires Accepted(c) && Good(c, s) && s.clock <= now && (Queued(s, w) || w in s.outcomes)
    ensures Queued(s, w) || (s.outcomes[w].Granted? ==> s.outcomes[w].permit < |s.permits|)
    ensures Good(c, Interrupt(c, s, w, now, ticks))
  {
    if Queued(s, w) {
      LeaveGood(c, s, w, Cancelled, Interrupted, true, now);
    } else if s.outcomes[w].Granted? {
      GiveBackGood(c, s, w, Interrupted, ticks);
    } else {
      EndedGood(c, s, w, Interrupted);
    }
  }

  lemma {:induction false} CloseGood(c: Config, s: State)
    requires Good(c, s)
    ensures Good(c, Close(s))
  {
    if !s.closed {
      var t := Close(s);
      forall k ensures BudgetKept(c, t, k) && SlotsKept(c, t, k) { ClosedPartition(c, s, k); }
      forall k ensures Line(c, t, k) && Conserved(c, t, k) { ClosedPartition(c, s, k); }
      CloseDecides(s);
      CloseTally(c, s);
      assert t.partitions.Keys == s.partitions.Keys && |t.partitions| == |s.partitions|;
    }
  }

  lemma {:induction false} ClosedPartition(c: Config, s: State, k: string)
    requires Budgets(c, s) && Slots(c, s) && !s.closed
    ensures var t := Close(s); BudgetKept(c, t, k) && SlotsKept(c, t, k) && Line(c, t, k) && Conserved(c, t, k)
    ensures Of(Close(s), k) == Of(s, k).(waiters := [])
  {
    assert BudgetKept(c, s, k) && SlotsKept(c, s, k);
  }

  /** Closing decides every call that was waiting, and changes no earlier decision. */
  lemma {:induction false} CloseDecides(s: State)
    requires Accounted(s) && Grants(s) && Endings(s) && !s.closed
    ensures var t := Close(s); Accounted(t) && InOrder(t) && Grants(t) && Endings(t)
    ensures forall w :: 0 <= w < |s.joined| ==> w in Close(s).outcomes
  {
    forall w | 0 <= w < |s.joined| && w !in s.outcomes ensures w in Undecided(s) { assert Queued(s, w); }
    CloseOutcomes(s);
    DecidesMore(s, Close(s));
  }

  lemma {:induction false} CloseOutcomes(s: State)
    requires !s.closed
    ensures var t := Close(s);
      && (forall k :: Of(t, k).waiters == [])
      && (forall w :: w in t.outcomes <==> w in Undecided(s) || w in s.outcomes)
      && (forall w :: w in s.outcomes ==> t.outcomes[w] == s.outcomes[w])
      && (forall w :: w in t.outcomes && w !in s.outcomes ==> t.outcomes[w] == Refused(Closed))
  {
  }

  lemma {:induction false} DecidesMore(s: State, t: State)
    requires Accounted(s) && Grants(s) && Endings(s)
    requires t.joined == s.joined && t.permits == s.permits && t.ended == s.ended && forall k :: Of(t, k).waiters == []
    requires forall w :: 0 <= w < |s.joined| ==> w in t.outcomes
    requires forall w :: w in s.outcomes ==> w in t.outcomes && t.outcomes[w] == s.outcomes[w]
    requires forall w :: w in t.outcomes && w !in s.outcomes ==> w < |t.joined| && t.outcomes[w].Refused?
    ensures Accounted(t) && InOrder(t) && Grants(t) && Endings(t)
  {
  }

  lemma {:induction false} CloseTally(c: Config, s: State)
    requires Good(c, s) && !s.closed
    ensures Tally(Close(s))
  {
    var t, u := Close(s), Undecided(s);
    assert t.outcomes.Keys == u + s.outcomes.Keys && u !! s.outcomes.Keys;
    assert |t.outcomes| == |u| + |s.outcomes| by {
      assert |t.outcomes| == |t.outcomes.Keys| && |s.outcomes| == |s.outcomes.Keys|;
    }
    assert forall w :: w in t.outcomes ==> w < |t.joined|;
    Bounded(t.outcomes, |t.joined|);
  }
}
