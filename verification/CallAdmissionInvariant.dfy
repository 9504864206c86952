/** What every event of call admission keeps. */
module CallAdmissionInvariant {
  import opened Options
  import opened CallAdmissionModel

  /* ---- The budget and its history -------------------------------------------------------- */

  /** When a partition was charged, oldest first. */
  function Times(charges: seq<Charge>, key: string): seq<nat> {
    if charges == [] then []
    else
      var n := |charges| - 1;
      Times(charges[..n], key) + if charges[n].key == key then [charges[n].at] else []
  }

  predicate Sorted(h: seq<nat>) {
    forall i, j :: 0 <= i <= j < |h| ==> h[i] <= h[j]
  }

  /** Any charge comes a whole window after the one `maxCalls` before it. */
  predicate Spaced(b: Budget, h: seq<nat>) {
    forall i :: 0 <= i && i + b.maxCalls < |h| ==> h[i] + b.windowMs <= h[i + b.maxCalls]
  }

  /** The remembered admissions are the end of the history; what was forgotten is out of every current window. */
  predicate Remembers(b: Budget, live: seq<nat>, h: seq<nat>, clock: nat) {
    var remembers :=
      && Sorted(h) && Spaced(b, h) && (forall i :: 0 <= i < |h| ==> h[i] <= clock)
      && |live| <= b.maxCalls && |live| <= |h| && live == h[|h| - |live|..]
      && (forall i :: 0 <= i < |h| - |live| ==> h[i] + b.windowMs <= clock);
    remembers
  }

  /** Holds of one partition's remembered admissions, and of an evicted partition's none. */
  predicate BudgetKept(c: Config, s: State, key: string) {
    var live := Of(s, key).admittedAt;
    if c.budget.None? then live == [] else Remembers(c.budget.value, live, Times(s.charges, key), s.clock)
  }

  ghost predicate Budgets(c: Config, s: State) {
    forall key :: BudgetKept(c, s, key)
  }

  lemma {:induction false} PrunedKeeps(b: Budget, live: seq<nat>, h: seq<nat>, clock: nat, now: nat)
    requires Remembers(b, live, h, clock) && clock <= now
    ensures Remembers(b, Pruned(Some(b), live, now), h, now)
    ensures var p := Pruned(Some(b), live, now); p == [] || p[0] + b.windowMs > now
    ensures |Pruned(Some(b), live, now)| <= |live|
  {
    if live != [] && live[0] + b.windowMs <= now {
      var d := |h| - |live|;
      assert live[1..] == h[d + 1..];
      assert Remembers(b, live[1..], h, now);
      PrunedKeeps(b, live[1..], h, now, now);
    }
  }

  /** A charge the budget admits keeps the history spaced. */
  lemma {:induction false} ChargeKeeps(b: Budget, live: seq<nat>, h: seq<nat>, clock: nat)
    requires Remembers(b, live, h, clock) && |live| < b.maxCalls
    ensures Remembers(b, live + [clock], h + [clock], clock)
  {
    var h', live' := h + [clock], live + [clock];
    forall i | 0 <= i && i + b.maxCalls < |h'| ensures h'[i] + b.windowMs <= h'[i + b.maxCalls] {
      if i + b.maxCalls == |h| { assert i < |h| - |live|; }
    }
    assert live' == h'[|h'| - |live'|..];
  }

  /* ---- Slots ----------------------------------------------------------------------------- */

  function Held(permits: seq<Permit>, key: string): nat {
    if permits == [] then 0
    else
      var n := |permits| - 1;
      Held(permits[..n], key) + if permits[n].key == key && !permits[n].released then 1 else 0
  }

  predicate SlotsKept(c: Config, s: State, key: string) {
    && Of(s, key).active == Held(s.permits, key)
    && (c.maxConcurrency.Some? ==> Of(s, key).active <= c.maxConcurrency.value)
  }

  ghost predicate Slots(c: Config, s: State) {
    forall key :: SlotsKept(c, s, key)
  }

  lemma {:induction false} HeldMore(permits: seq<Permit>, p: Permit, key: string)
    ensures Held(permits + [p], key) == Held(permits, key) + if p.key == key && !p.released then 1 else 0
  {
    assert (permits + [p])[..|permits|] == permits;
  }

  lemma {:induction false} HeldReleased(permits: seq<Permit>, p: nat, key: string)
    requires p < |permits| && !permits[p].released
    ensures Held(permits[p := permits[p].(released := true)], key)
            == Held(permits, key) - if permits[p].key == key then 1 else 0
  {
    var n := |permits| - 1;
    var after := permits[p := permits[p].(released := true)];
    if p == n {
      assert after[..n] == permits[..n];
    } else {
      assert after[..n] == permits[..n][p := permits[p].(released := true)];
      HeldReleased(permits[..n], p, key);
    }
  }

  /* ---- The queue ------------------------------------------------------------------------- */

  /** The queue of a partition: in arrival order, undecided, within its limit, and only where it can be served. */
  predicate Line(c: Config, s: State, key: string) {
    var ws := Of(s, key).waiters;
    var line :=
      && (forall i, j :: 0 <= i < j < |ws| ==> ws[i].id < ws[j].id)
      && (forall i :: 0 <= i < |ws| ==> ws[i].id < |s.joined| && s.joined[ws[i].id] == key && ws[i].queuedAt <= s.clock)
      && (forall i :: 0 <= i < |ws| ==> ws[i].id !in s.outcomes)
      && |ws| <= c.maxQueueSize && (ws != [] ==> !s.closed && c.maxConcurrency.Some?);
    line
  }

  ghost predicate Lines(c: Config, s: State) {
    forall key :: Line(c, s, key)
  }

  /** Every call that ever queued is still waiting or has been decided. */
  ghost predicate Accounted(s: State) {
    && (forall w :: 0 <= w < |s.joined| && w !in s.outcomes ==> Queued(s, w))
    && (forall w :: w in s.outcomes ==> w < |s.joined|)
  }

  /** No call was given a slot ahead of one that queued earlier in its partition and still waits. */
  ghost predicate InOrder(s: State) {
    forall w, i :: w in s.outcomes && s.outcomes[w].Granted? && w < |s.joined| && 0 <= i < |Of(s, s.joined[w]).waiters| ==>
      w < Of(s, s.joined[w]).waiters[i].id
  }

  /** A partition has waiters only while all its slots are taken. */
  predicate Conserved(c: Config, s: State, key: string) {
    Of(s, key).waiters != [] ==> c.maxConcurrency == Some(Of(s, key).active)
  }

  ghost predicate Conserving(c: Config, s: State) {
    forall key :: Conserved(c, s, key)
  }

  /* ---- Permits and endings --------------------------------------------------------------- */

  predicate SamePermit(d: Decision, e: Decision) { d.Granted? && e == d }

  /** A granted permit is the waiter's own. */
  ghost predicate Grants(s: State) {
    && (forall w :: w in s.outcomes && s.outcomes[w].Granted? ==>
          s.outcomes[w].permit < |s.permits| && w < |s.joined| && s.permits[s.outcomes[w].permit].key == s.joined[w])
    && (forall w, v :: w in s.outcomes && v in s.outcomes && SamePermit(s.outcomes[w], s.outcomes[v]) ==> w == v)
  }

  /** Only a granted call succeeds, and one that ends otherwise leaves no slot taken. */
  ghost predicate Endings(s: State) {
    forall w :: w in s.ended ==>
      && w in s.outcomes
      && (s.ended[w].Succeeded? ==> s.outcomes[w] == Granted(s.ended[w].permit))
      && (!s.ended[w].Succeeded? && s.outcomes[w].Granted? ==>
            s.outcomes[w].permit < |s.permits| && s.permits[s.outcomes[w].permit].released)
  }

  /** Everything asked for was admitted, refused in one counted way, or still waits. */
  predicate Tally(s: State) {
    && s.totals.admitted == |s.charges|
    && |s.outcomes| <= |s.joined|
    && s.requests == s.totals.admitted + s.totals.rejected + s.totals.rateLimited + s.totals.cancelled + s.shut
                     + (|s.joined| - |s.outcomes|)
  }

  /** The invariant in the middle of an event that is serving one partition's queue. */
  ghost predicate Serving(c: Config, s: State, key: string) {
    var serving :=
      && Budgets(c, s) && Slots(c, s) && Lines(c, s) && Accounted(s) && InOrder(s) && Grants(s) && Endings(s) && Tally(s)
      && |s.partitions| <= c.maxPartitions && (forall k :: k != key ==> Conserved(c, s, k));
    serving
  }

  ghost predicate Good(c: Config, s: State) {
    var good :=
      && Budgets(c, s) && Slots(c, s) && Lines(c, s) && Accounted(s) && InOrder(s) && Grants(s) && Endings(s) && Tally(s)
      && |s.partitions| <= c.maxPartitions && Conserving(c, s);
    good
  }

  lemma {:induction false} InitialGood(c: Config)
    ensures Good(c, Initial)
  {
  }

  /* ---- Serving one waiter ---------------------------------------------------------------- */

  lemma {:induction false} TimesMore(charges: seq<Charge>, x: Charge, key: string)
    ensures Times(charges + [x], key) == Times(charges, key) + if x.key == key then [x.at] else []
  {
    assert (charges + [x])[..|charges|] == charges;
  }

  /** Time passes without breaking any budget. */
  lemma {:induction false} LaterKeeps(b: Budget, live: seq<nat>, h: seq<nat>, clock: nat, now: nat)
    requires Remembers(b, live, h, clock) && clock <= now
    ensures Remembers(b, live, h, now)
  {
  }

  /** What serving one waiter does, granting it a slot or not. */
  ghost predicate Served(c: Config, s: State, key: string, t: State, granted: bool) {
    var served :=
      && Of(s, key).waiters != [] && s.clock <= t.clock
      && t.closed == s.closed && t.joined == s.joined && t.ended == s.ended
      && (forall k :: k != key ==> Of(t, k) == Of(s, k))
      && Of(t, key).waiters == Of(s, key).waiters[1..]
      && (if granted then Given(c, s, key, t) else Denied(c, s, key, t));
    served
  }

  predicate Given(c: Config, s: State, key: string, t: State) {
    var live := Pruned(c.budget, Of(s, key).admittedAt, t.clock);
    && Of(t, key).active == Of(s, key).active + 1
    && RetryAfter(c.budget, live, t.clock).None? && Of(t, key).admittedAt == Counted(c, live, t.clock)
    && |t.permits| == |s.permits| + 1 && t.permits == s.permits + [t.permits[|s.permits|]]
    && t.permits[|s.permits|].key == key && !t.permits[|s.permits|].released
    && t.charges == s.charges + [Charge(key, t.clock)]
    && (Of(s, key).waiters != [] ==> t.outcomes == s.outcomes[Of(s, key).waiters[0].id := Granted(|s.permits|)])
  }

  predicate Denied(c: Config, s: State, key: string, t: State) {
    && Of(t, key).active == Of(s, key).active && t.permits == s.permits && t.charges == s.charges
    && (|| Of(t, key).admittedAt == Of(s, key).admittedAt
        || Of(t, key).admittedAt == Pruned(c.budget, Of(s, key).admittedAt, t.clock))
    && (Of(s, key).waiters != [] ==>
          var w := Of(s, key).waiters[0].id;
          w in t.outcomes && t.outcomes[w].Refused? && t.outcomes == s.outcomes[w := t.outcomes[w]])
  }

  lemma {:induction false} PumpOneServed(c: Config, s: State, key: string, tick: nat) returns (granted: bool)
    requires Pumps(c, s, key)
    ensures Served(c, s, key, PumpOne(c, s, key, tick), granted)
  {
    var taken, w := Taken(s, key, tick), Of(s, key).waiters[0];
    if taken.clock >= w.queuedAt + c.queueTimeoutMs {
      granted := false;
      ServedLate(c, s, key, tick);
    } else {
      var pruned := PruneAt(c, taken, key);
      granted := RetryAfter(c.budget, Of(pruned, key).admittedAt, pruned.clock).None?;
      if granted { ServedInTime(c, s, key, tick); } else { ServedOverBudget(c, s, key, tick); }
    }
  }

  lemma {:induction false} ServedLate(c: Config, s: State, key: string, tick: nat)
    requires Pumps(c, s, key) && Taken(s, key, tick).clock >= Of(s, key).waiters[0].queuedAt + c.queueTimeoutMs
    ensures Served(c, s, key, PumpOne(c, s, key, tick), false)
  {
  }

  lemma {:induction false} ServedOverBudget(c: Config, s: State, key: string, tick: nat)
    requires Pumps(c, s, key) && Taken(s, key, tick).clock < Of(s, key).waiters[0].queuedAt + c.queueTimeoutMs
    requires var pruned := PruneAt(c, Taken(s, key, tick), key);
      RetryAfter(c.budget, Of(pruned, key).admittedAt, pruned.clock).Some?
    ensures Served(c, s, key, PumpOne(c, s, key, tick), false)
  {
  }

  lemma {:induction false} ServedInTime(c: Config, s: State, key: string, tick: nat)
    requires Pumps(c, s, key) && Taken(s, key, tick).clock < Of(s, key).waiters[0].queuedAt + c.queueTimeoutMs
    requires var pruned := PruneAt(c, Taken(s, key, tick), key);
      RetryAfter(c.budget, Of(pruned, key).admittedAt, pruned.clock).None?
    ensures Served(c, s, key, PumpOne(c, s, key, tick), true)
  {
  }

  /** The budget of the partition being served: pruned, and charged once if the waiter got its slot. */
  lemma {:induction false} OwnBudget(c: Config, s: State, key: string, t: State, granted: bool)
    requires Accepted(c) && BudgetKept(c, s, key) && Served(c, s, key, t, granted) && c.budget.Some?
    ensures BudgetKept(c, t, key)
  {
    var b, live, h := c.budget.value, Of(s, key).admittedAt, Times(s.charges, key);
    PrunedKeeps(b, live, h, s.clock, t.clock);
    if granted { GivenBudget(c, s, key, t); } else { LaterKeeps(b, live, h, s.clock, t.clock); }
  }

  lemma {:induction false} GivenBudget(c: Config, s: State, key: string, t: State)
    requires Accepted(c) && Given(c, s, key, t) && c.budget.Some?
    requires Remembers(c.budget.value, Pruned(c.budget, Of(s, key).admittedAt, t.clock), Times(s.charges, key), t.clock)
    ensures BudgetKept(c, t, key)
  {
    TimesMore(s.charges, Charge(key, t.clock), key);
    ChargeKeeps(c.budget.value, Pruned(c.budget, Of(s, key).admittedAt, t.clock), Times(s.charges, key), t.clock);
  }

  lemma {:induction false} OtherBudget(c: Config, s: State, key: string, t: State, granted: bool, k: string)
    requires BudgetKept(c, s, k) && Served(c, s, key, t, granted) && c.budget.Some? && k != key
    ensures BudgetKept(c, t, k)
  {
    LaterKeeps(c.budget.value, Of(s, k).admittedAt, Times(s.charges, k), s.clock, t.clock);
    if granted { TimesMore(s.charges, Charge(key, t.clock), k); }
  }

  lemma {:induction false} ServedBudget(c: Config, s: State, key: string, t: State, granted: bool, k: string)
    requires Accepted(c) && BudgetKept(c, s, k) && Served(c, s, key, t, granted)
    ensures BudgetKept(c, t, k)
  {
    if c.budget.Some? {
      if k == key { OwnBudget(c, s, key, t, granted); } else { OtherBudget(c, s, key, t, granted, k); }
    }
  }

  lemma {:induction false} ServedSlots(c: Config, s: State, key: string, t: State, granted: bool, k: string)
    requires SlotsKept(c, s, k) && Pumps(c, s, key) && Served(c, s, key, t, granted)
    ensures SlotsKept(c, t, k)
  {
    if granted { HeldMore(s.permits, t.permits[|s.permits|], k); }
  }

  lemma {:induction false} ServedLine(c: Config, s: State, key: string, t: State, granted: bool, k: string)
    requires Line(c, s, k) && Line(c, s, key) && Served(c, s, key, t, granted)
    ensures Line(c, t, k)
  {
  }

  lemma {:induction false} ServedAccounted(c: Config, s: State, key: string, t: State, granted: bool)
    requires Line(c, s, key) && Accounted(s) && Served(c, s, key, t, granted)
    ensures Accounted(t)
  {
    forall w | 0 <= w < |t.joined| && w !in t.outcomes ensures Queued(t, w) {
      assert Queued(s, w);
      var i :| 0 <= i < |Of(s, s.joined[w]).waiters| && Of(s, s.joined[w]).waiters[i].id == w;
      if s.joined[w] == key { assert Of(t, key).waiters[i - 1].id == w; } else { assert Of(t, s.joined[w]).waiters[i].id == w; }
    }
  }

  lemma {:induction false} ServedOrder(c: Config, s: State, key: string, t: State, granted: bool)
    requires Line(c, s, key) && InOrder(s) && Served(c, s, key, t, granted)
    ensures InOrder(t)
  {
  }

  lemma {:induction false} ServedGrants(c: Config, s: State, key: string, t: State, granted: bool)
    requires Line(c, s, key) && Grants(s) && Endings(s) && Served(c, s, key, t, granted)
    ensures Grants(t) && Endings(t)
  {
  }

  lemma {:induction false} PumpOneTally(c: Config, s: State, key: string, tick: nat)
    requires Line(c, s, key) && Tally(s) && Pumps(c, s, key) && Accounted(PumpOne(c, s, key, tick))
    ensures Tally(PumpOne(c, s, key, tick))
  {
    var t, w := PumpOne(c, s, key, tick), Of(s, key).waiters[0].id;
    assert w !in s.outcomes;
    OneMore(s.outcomes, w, t.outcomes[w]);
    Bounded(t.outcomes, |t.joined|);
    assert t.outcomes == s.outcomes[w := t.outcomes[w]];
  }

  lemma {:induction false} OneMore(outcomes: map<nat, Decision>, w: nat, d: Decision)
    requires w !in outcomes
    ensures |outcomes[w := d]| == |outcomes| + 1
  {
    var more := outcomes[w := d];
    assert more.Keys == outcomes.Keys + {w};
    assert |more| == |more.Keys| && |outcomes| == |outcomes.Keys|;
  }

  /** There are no more decisions than calls that queued. */
  lemma {:induction false} Bounded(outcomes: map<nat, Decision>, n: nat)
    requires forall w :: w in outcomes ==> w < n
    ensures |outcomes| <= n
  {
    assert outcomes.Keys <= Below(n);
    Subset(outcomes.Keys, Below(n));
    assert |outcomes.Keys| == |outcomes|;
  }

  function Below(n: nat): (r: set<nat>)
    ensures |r| == n && forall w: nat :: w in r <==> w < n
  {
    if n == 0 then {} else Below(n - 1) + {n - 1}
  }

  lemma {:induction false} Subset(a: set<nat>, b: set<nat>)
    requires a <= b
    ensures |a| <= |b|
  {
    assert b == a + (b - a);
  }

  lemma {:induction false} ServedQueues(c: Config, s: State, key: string, t: State, granted: bool)
    requires Accepted(c) && Budgets(c, s) && Slots(c, s) && Lines(c, s) && Pumps(c, s, key) && Served(c, s, key, t, granted)
    ensures Budgets(c, t) && Slots(c, t) && Lines(c, t)
  {
    assert Line(c, s, key);
    forall k ensures BudgetKept(c, t, k) { assert BudgetKept(c, s, k); ServedBudget(c, s, key, t, granted, k); }
    forall k ensures SlotsKept(c, t, k) { assert SlotsKept(c, s, k); ServedSlots(c, s, key, t, granted, k); }
    forall k ensures Line(c, t, k) { assert Line(c, s, k); ServedLine(c, s, key, t, granted, k); }
  }

  lemma {:induction false} ServedElsewhere(c: Config, s: State, key: string, t: State, granted: bool)
    requires Served(c, s, key, t, granted) && forall k :: k != key ==> Conserved(c, s, k)
    ensures forall k :: k != key ==> Conserved(c, t, k)
  {
    forall k | k != key ensures Conserved(c, t, k) { assert Conserved(c, s, k); }
  }

  lemma {:induction false} SamePartitions(c: Config, s: State, key: string, tick: nat)
    requires Pumps(c, s, key)
    ensures |PumpOne(c, s, key, tick).partitions| == |s.partitions|
  {
    var t := PumpOne(c, s, key, tick);
    assert key in s.partitions && t.partitions.Keys == s.partitions.Keys;
    assert |t.partitions| == |t.partitions.Keys| && |s.partitions| == |s.partitions.Keys|;
  }

  lemma {:induction false} PumpOneServing(c: Config, s: State, key: string, tick: nat)
    requires Accepted(c) && Serving(c, s, key) && Pumps(c, s, key)
    ensures Serving(c, PumpOne(c, s, key, tick), key)
  {
    var t := PumpOne(c, s, key, tick);
    var granted := PumpOneServed(c, s, key, tick);
    assert Line(c, s, key);
    ServedQueues(c, s, key, t, granted);
    ServedElsewhere(c, s, key, t, granted);
    ServedAccounted(c, s, key, t, granted);
    ServedOrder(c, s, key, t, granted);
    ServedGrants(c, s, key, t, granted);
    PumpOneTally(c, s, key, tick);
    SamePartitions(c, s, key, tick);
  }
}
