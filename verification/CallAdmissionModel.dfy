/**
 * Admission of calls to one connector: per-partition concurrency with a bounded queue and a
 * rolling-window budget. This module gives the state and what each event does to it.
 */
module CallAdmissionModel {
  import opened Options

  /* ---- Configuration --------------------------------------------------------------------- */

  datatype Budget = Budget(maxCalls: nat, windowMs: nat)

  datatype Config = Config(
    maxConcurrency: Option<nat>, maxQueueSize: nat, queueTimeoutMs: nat, retryAfterMs: nat,
    maxPartitions: nat, budget: Option<Budget>)

  /** What the policy parser accepts. */
  predicate Accepted(c: Config) {
    && (c.maxConcurrency.Some? || c.budget.Some?)
    && (c.maxConcurrency.Some? ==> c.maxConcurrency.value >= 1)
    && (c.budget.Some? ==> c.budget.value.maxCalls >= 1 && c.budget.value.windowMs >= 1)
    && c.queueTimeoutMs >= 1 && c.maxPartitions >= 1
  }

  const MaxPartitionKeyBytes: nat := 128

  /* ---- State ----------------------------------------------------------------------------- */

  /** Waiters are known by the order in which they queued. */
  datatype Waiter = Waiter(id: nat, queuedAt: nat)

  datatype Partition = Partition(active: nat, waiters: seq<Waiter>, admittedAt: seq<nat>)

  const Fresh: Partition := Partition(0, [], [])

  datatype Permit = Permit(key: string, waitMs: nat, released: bool)

  datatype Error =
    | Concurrency(retryAfterMs: nat)
    | OverBudget(retryAfterMs: nat)
    | Cancelled
    | Closed
    | BadPartition
    | NoPartition(retryAfterMs: nat)

  /** Who took the waiter out of the queue decided this, once. */
  datatype Decision = Granted(permit: nat) | Refused(error: Error)

  /** How the waiting call ended. */
  datatype Ending = Succeeded(permit: nat) | Failed(error: Error) | Interrupted

  datatype Charge = Charge(key: string, at: nat)

  datatype Totals = Totals(admitted: nat, rejected: nat, rateLimited: nat, cancelled: nat)

  /**
   * `permits` lists every permit granted so far and `joined` the partition of every call queued so far;
   * `charges` is the history of everything counted against a budget, `shut` counts refusals because of
   * `close`, and `requests` counts the calls and extra charges asked for.
   */
  datatype State = State(
    partitions: map<string, Partition>, closed: bool, totals: Totals,
    permits: seq<Permit>, joined: seq<string>, outcomes: map<nat, Decision>, ended: map<nat, Ending>,
    clock: nat, charges: seq<Charge>, shut: nat, requests: nat)

  const Initial: State :=
    State(map[], false, Totals(0, 0, 0, 0), [], [], map[], map[], 0, [], 0, 0)

  /** A partition that is not listed is as good as a fresh one. */
  function Of(s: State, key: string): Partition {
    if key in s.partitions then s.partitions[key] else Fresh
  }

  function Put(s: State, key: string, part: Partition): State {
    s.(partitions := s.partitions[key := part])
  }

  /* ---- The budget ------------------------------------------------------------------------ */

  /** Forget the admissions whose window has passed. */
  function Pruned(budget: Option<Budget>, at: seq<nat>, now: nat): seq<nat> {
    if budget.None? || at == [] || at[0] + budget.value.windowMs > now then at
    else Pruned(budget, at[1..], now)
  }

  function RetryAfter(budget: Option<Budget>, at: seq<nat>, now: nat): Option<nat> {
    if budget.None? || |at| < budget.value.maxCalls || at == [] then None
    else
      var free := at[0] + budget.value.windowMs;
      Some(if free < now then 0 else free - now)
  }

  function PrunedPartition(c: Config, part: Partition, now: nat): Partition {
    part.(admittedAt := Pruned(c.budget, part.admittedAt, now))
  }

  function Counted(c: Config, at: seq<nat>, now: nat): seq<nat> {
    if c.budget.Some? then at + [now] else at
  }

  /* ---- Granting -------------------------------------------------------------------------- */

  /** A new permit in the partition, charged to its budget at the clock's time. */
  function Admit(c: Config, s: State, key: string, waitMs: nat): State {
    var part := Of(s, key);
    Put(s, key, part.(active := part.active + 1, admittedAt := Counted(c, part.admittedAt, s.clock))).(
      permits := s.permits + [Permit(key, waitMs, false)],
      charges := s.charges + [Charge(key, s.clock)],
      totals := s.totals.(admitted := s.totals.admitted + 1))
  }

  predicate Pumps(c: Config, s: State, key: string) {
    && !s.closed && c.maxConcurrency.Some?
    && Of(s, key).active < c.maxConcurrency.value && Of(s, key).waiters != []
  }

  /** The first tick is how far the clock has moved when the next waiter reads it. */
  function Tick(ticks: seq<nat>): nat { if ticks == [] then 0 else ticks[0] }

  function Later(ticks: seq<nat>): seq<nat> { if ticks == [] then [] else ticks[1..] }

  function Decide(s: State, w: nat, d: Decision): State { s.(outcomes := s.outcomes[w := d]) }

  function Reject(s: State): State { s.(totals := s.totals.(rejected := s.totals.rejected + 1)) }

  function RateLimit(s: State): State { s.(totals := s.totals.(rateLimited := s.totals.rateLimited + 1)) }

  function Cancel(s: State): State { s.(totals := s.totals.(cancelled := s.totals.cancelled + 1)) }

  /** The first waiter is out of the queue, and has read its clock. */
  function Taken(s: State, key: string, tick: nat): State
    requires Of(s, key).waiters != []
  {
    Put(s, key, Of(s, key).(waiters := Of(s, key).waiters[1..])).(clock := s.clock + tick)
  }

  /** Give a waiter out of the queue a slot or a refusal. */
  function Serve(c: Config, s: State, key: string, w: Waiter): State {
    if s.clock >= w.queuedAt + c.queueTimeoutMs then Decide(Reject(s), w.id, Refused(Concurrency(c.retryAfterMs)))
    else GrantOrRefuse(c, PruneAt(c, s, key), key, w)
  }

  function GrantOrRefuse(c: Config, s: State, key: string, w: Waiter): State {
    match RetryAfter(c.budget, Of(s, key).admittedAt, s.clock)
    case Some(ms) => Decide(RateLimit(s), w.id, Refused(OverBudget(ms)))
    case None =>
      var waitMs := if s.clock < w.queuedAt then 0 else s.clock - w.queuedAt;
      Decide(Admit(c, s, key, waitMs), w.id, Granted(|s.permits|))
  }

  function PumpOne(c: Config, s: State, key: string, tick: nat): State
    requires Pumps(c, s, key)
  {
    Serve(c, Taken(s, key, tick), key, Of(s, key).waiters[0])
  }

  /** Serve the queue for as long as there is a free slot and a waiter. */
  function Pump(c: Config, s: State, key: string, ticks: seq<nat>): State
    decreases |Of(s, key).waiters|
  {
    if !Pumps(c, s, key) then s else Pump(c, PumpOne(c, s, key, Tick(ticks)), key, Later(ticks))
  }

  /* ---- Events ---------------------------------------------------------------------------- */

  function Release(c: Config, s: State, p: nat, ticks: seq<nat>): State
    requires p < |s.permits|
  {
    if s.permits[p].released then s
    else
      var key := s.permits[p].key;
      var part := Of(s, key);
      var freed := if part.active > 0 then part.active - 1 else 0;
      Pump(c, Put(s, key, part.(active := freed)).(permits := s.permits[p := s.permits[p].(released := true)]), key, ticks)
  }

  /** An extra charge on a permit already held. */
  function ChargePermit(c: Config, s: State, p: nat, aborted: bool, now: nat): (State, Option<Error>)
    requires p < |s.permits|
  {
    var asked := Begin(s, now);
    if s.closed || s.permits[p].released then (asked.(shut := s.shut + 1), Some(Closed))
    else if aborted then (Cancel(asked), Some(Cancelled))
    else
      var pruned := PruneAt(c, asked, s.permits[p].key);
      (Count(c, pruned, s.permits[p].key), Overrun(c, pruned, s.permits[p].key))
  }

  function PruneAt(c: Config, s: State, key: string): State {
    Put(s, key, PrunedPartition(c, Of(s, key), s.clock))
  }

  /** The budget's refusal at the clock's time, if it has no room. */
  function Overrun(c: Config, s: State, key: string): Option<Error> {
    match RetryAfter(c.budget, Of(s, key).admittedAt, s.clock)
    case Some(ms) => Some(OverBudget(ms))
    case None => None
  }

  predicate HasRoom(c: Config, s: State, key: string) {
    RetryAfter(c.budget, Of(s, key).admittedAt, s.clock).None?
  }

  /** One more charge against the partition's budget. */
  function Charged(c: Config, s: State, key: string): State {
    var part := Of(s, key);
    Put(s, key, part.(admittedAt := Counted(c, part.admittedAt, s.clock))).(
      charges := s.charges + [Charge(key, s.clock)],
      totals := s.totals.(admitted := s.totals.admitted + 1))
  }

  function Count(c: Config, s: State, key: string): State {
    if HasRoom(c, s, key) then Charged(c, s, key) else RateLimit(s)
  }

  predicate Idle(part: Partition) { part == Fresh }

  /** Prune one partition and forget it when nothing is left of it. */
  function Tidy(c: Config, s: State, key: string, now: nat): State {
    if key !in s.partitions then s
    else
      var part := PrunedPartition(c, s.partitions[key], now);
      if Idle(part) then s.(partitions := s.partitions - {key}) else Put(s, key, part)
  }

  function Evict(c: Config, s: State, now: nat): State {
    s.(partitions :=
      map k | k in s.partitions && !Idle(PrunedPartition(c, s.partitions[k], now)) ::
        PrunedPartition(c, s.partitions[k], now))
  }

  /** What the partition callback did. */
  datatype KeyResult = Threw | NotText | Text(key: string)

  function Utf8Bytes(text: string): nat {
    if text == [] then 0
    else
      var n := text[0] as int;
      (if n < 0x80 then 1 else if n < 0x800 then 2 else if n < 0x10000 then 3 else 4) + Utf8Bytes(text[1..])
  }

  datatype Answer = Admitted(permit: nat) | Waiting(waiter: nat) | Fails(error: Error)

  function ShutOut(s: State): (State, Answer) { (s.(shut := s.shut + 1), Fails(Closed)) }

  /** A call is turned away when the controller is closed, it is cancelled, or it has no usable partition key. */
  predicate TurnedAway(s: State, key: KeyResult, aborted: bool, abortedByKey: bool) {
    s.closed || aborted || !key.Text? || Utf8Bytes(key.key) > MaxPartitionKeyBytes || abortedByKey
  }

  function TurnAway(s: State, key: KeyResult, aborted: bool): (State, Answer) {
    if s.closed then ShutOut(s)
    else if aborted then (Cancel(s), Fails(Cancelled))
    else if !key.Text? || Utf8Bytes(key.key) > MaxPartitionKeyBytes then (Reject(s), Fails(BadPartition))
    else (Cancel(s), Fails(Cancelled))
  }

  /** The synchronous part of a call's admission: a permit, a refusal, or a place in the queue. */
  function Acquire(c: Config, s: State, key: KeyResult, aborted: bool, abortedByKey: bool, now: nat): (State, Answer) {
    if TurnedAway(s, key, aborted, abortedByKey) then TurnAway(Begin(s, now), key, aborted)
    else Locate(c, MakeRoom(c, Begin(s, now), key.key), key.key)
  }

  function Begin(s: State, now: nat): State { s.(requests := s.requests + 1, clock := now) }

  /** Idle partitions are forgotten when a new one is needed. */
  function MakeRoom(c: Config, s: State, key: string): State {
    if key in s.partitions then s else Evict(c, s, s.clock)
  }

  /** A partition that is not listed needs a place on the list. */
  function Locate(c: Config, s: State, key: string): (State, Answer) {
    if key !in s.partitions && |s.partitions| >= c.maxPartitions then (Reject(s), Fails(NoPartition(c.retryAfterMs)))
    else Enter(c, PruneAt(c, s, key), key)
  }

  function Enter(c: Config, s: State, key: string): (State, Answer) {
    var part := Of(s, key);
    match RetryAfter(c.budget, part.admittedAt, s.clock)
    case Some(ms) => (RateLimit(s), Fails(OverBudget(ms)))
    case None =>
      if c.maxConcurrency.None? || part.active < c.maxConcurrency.value then
        (Admit(c, s, key, 0), Admitted(|s.permits|))
      else if |part.waiters| >= c.maxQueueSize then
        (Reject(s), Fails(Concurrency(c.retryAfterMs)))
      else
        var w := |s.joined|;
        (Put(s, key, part.(waiters := part.waiters + [Waiter(w, s.clock)])).(joined := s.joined + [key]), Waiting(w))
  }

  predicate Has(ws: seq<Waiter>, w: nat) { exists i :: 0 <= i < |ws| && ws[i].id == w }

  function Without(ws: seq<Waiter>, w: nat): seq<Waiter> {
    if ws == [] then [] else if ws[0].id == w then ws[1..] else [ws[0]] + Without(ws[1..], w)
  }

  predicate Queued(s: State, w: nat) { w < |s.joined| && Has(Of(s, s.joined[w]).waiters, w) }

  function Remove(s: State, w: nat): State
    requires w < |s.joined|
  {
    var key := s.joined[w];
    var part := Of(s, key);
    Put(s, key, part.(waiters := Without(part.waiters, w)))
  }

  /** A waiter that took itself out of the queue decides its own refusal, and its call is over. */
  function Recorded(s: State, w: nat, error: Error, end: Ending, cancel: bool, now: nat): State {
    var out := Decide(s, w, Refused(error)).(clock := now, ended := s.ended[w := end]);
    if cancel then Cancel(out) else Reject(out)
  }

  function Left(s: State, w: nat, error: Error, end: Ending, cancel: bool, now: nat): State
    requires w < |s.joined|
  {
    Recorded(Remove(s, w), w, error, end, cancel, now)
  }

  /** The waiting call hears what was decided; a shutdown in between wins and the permit goes back. */
  function Hear(c: Config, s: State, w: nat, ticks: seq<nat>): State
    requires w in s.outcomes && (s.outcomes[w].Granted? ==> s.outcomes[w].permit < |s.permits|)
  {
    match s.outcomes[w]
    case Refused(e) => s.(ended := s.ended[w := Failed(e)])
    case Granted(p) =>
      if s.closed then
        var back := Release(c, s, p, ticks);
        back.(ended := back.ended[w := Failed(Closed)])
      else s.(ended := s.ended[w := Succeeded(p)])
  }

  /** The queue timeout or the caller's abort: whoever takes the waiter out of the queue decides. */
  function GiveUp(c: Config, s: State, w: nat, cancel: bool, now: nat, ticks: seq<nat>): State
    requires Queued(s, w) || (w in s.outcomes && (s.outcomes[w].Granted? ==> s.outcomes[w].permit < |s.permits|))
  {
    if Queued(s, w) then
      var error := if cancel then Cancelled else Concurrency(c.retryAfterMs);
      Tidy(c, Left(s, w, error, Failed(error), cancel, now), s.joined[w], now)
    else Hear(c, s, w, ticks)
  }

  /** The waiting call's scope closed: withdraw it, or give back what it was handed. */
  function Interrupt(c: Config, s: State, w: nat, now: nat, ticks: seq<nat>): State
    requires Queued(s, w) || (w in s.outcomes && (s.outcomes[w].Granted? ==> s.outcomes[w].permit < |s.permits|))
  {
    if Queued(s, w) then
      Tidy(c, Left(s, w, Cancelled, Interrupted, true, now), s.joined[w], now)
    else
      var back := if s.outcomes[w].Granted? then Release(c, s, s.outcomes[w].permit, ticks) else s;
      back.(ended := back.ended[w := Interrupted])
  }

  /** Every waiter still queued is refused; permits already granted stay with their holders. */
  function Close(s: State): State { if s.closed then s else ClosedBy(s, Undecided(s)) }

  function ClosedBy(s: State, rest: set<nat>): State {
    s.(closed := true, partitions := Emptied(s.partitions), outcomes := RefuseRest(s.outcomes, rest), shut := s.shut + |rest|)
  }

  function Emptied(partitions: map<string, Partition>): map<string, Partition> {
    map k | k in partitions :: partitions[k].(waiters := [])
  }

  function RefuseRest(outcomes: map<nat, Decision>, rest: set<nat>): map<nat, Decision> {
    map w | w in rest + outcomes.Keys :: if w in outcomes then outcomes[w] else Refused(Closed)
  }

  function Undecided(s: State): set<nat> {
    set w | 0 <= w < |s.joined| && w !in s.outcomes && Queued(s, w)
  }
}
