/** What holds over every run of authentication admission. */
module AuthAdmissionTheorems {
  import opened AuthAdmissionModel

  function Count(charges: seq<Status>, status: Status): nat {
    if charges == [] then 0
    else Count(charges[..|charges| - 1], status) + if charges[|charges| - 1] == status then 1 else 0
  }

  lemma CountMore(charges: seq<Status>, x: Status, status: Status)
    ensures Count(charges + [x], status) == Count(charges, status) + if x == status then 1 else 0
  {
    assert (charges + [x])[..|charges|] == charges;
  }

  lemma {:induction false} CountSet(charges: seq<Status>, i: nat, x: Status, status: Status)
    requires i < |charges|
    ensures Count(charges[i := x], status)
            == Count(charges, status) + (if x == status then 1 else 0) - (if charges[i] == status then 1 else 0)
  {
    var n := |charges| - 1;
    if i == n {
      assert charges[i := x][..n] == charges[..n];
    } else {
      assert charges[i := x][..n] == charges[..n][i := x];
      CountSet(charges[..n], i, x, status);
    }
  }

  predicate Distinct(line: seq<nat>) {
    forall i, j :: 0 <= i < j < |line| ==> line[i] != line[j]
  }

  /** The counters are the numbers of charges in each pool, and neither pool overflows. */
  predicate Counted(s: State) {
    && s.active == Count(s.charges, Active) && s.abandoned == Count(s.charges, Abandoned)
    && s.active <= Concurrency && s.abandoned <= AbandonedAllowance
  }

  /** Overdue charges are active, each listed once. */
  predicate Overdue(s: State) {
    Shaped(s) && Distinct(s.overdue) && forall k :: 0 <= k < |s.overdue| ==> s.charges[s.overdue[k]].Active?
  }

  /** Overdue charges wait only while the allowance is full. */
  predicate Settled(s: State) {
    s.overdue != [] ==> s.abandoned == AbandonedAllowance
  }

  /**
   * Released once or not yet; as long as it is charged, it is watched and some of its work has not settled.
   */
  predicate OnceAt(s: State, i: nat)
    requires Shaped(s) && i < |s.charges|
  {
    && s.releases[i] == (if s.charges[i].Released? then 1 else 0)
    && s.remaining[i] >= 0 && (!s.charges[i].Released? ==> s.remaining[i] > 0 && i in s.watched)
  }

  predicate Once(s: State) {
    && Shaped(s) && (forall i :: 0 <= i < |s.charges| ==> OnceAt(s, i))
    && (forall i :: i in s.watched ==> i < |s.charges|) && s.collected == s.reported + s.unreachable
  }

  /** The invariant but for one charge that is about to be released. */
  predicate Releasing(s: State, i: nat) {
    && Counted(s) && Overdue(s) && Settled(s) && i < |s.charges| && s.remaining[i] >= 0
    && s.releases[i] == (if s.charges[i].Released? then 1 else 0)
    && (forall j :: 0 <= j < |s.charges| && j != i ==> OnceAt(s, j))
    && (forall j :: j in s.watched ==> j < |s.charges|) && s.collected == s.reported + s.unreachable
  }

  predicate Good(s: State) { Counted(s) && Overdue(s) && Settled(s) && Once(s) }

  lemma {:induction false} WithoutIs(line: seq<nat>, i: nat)
    requires Distinct(line)
    ensures Distinct(Without(line, i)) && i !in Without(line, i) && |Without(line, i)| <= |line|
    ensures forall k :: 0 <= k < |Without(line, i)| ==> Without(line, i)[k] in line
  {
    if line != [] {
      WithoutIs(line[1..], i);
      WithoutIn(line[1..], i);
      if line[0] != i {
        assert Without(line, i)[1..] == Without(line[1..], i);
        forall k | 0 < k < |Without(line, i)| ensures Without(line, i)[k] != line[0] {
          assert Without(line[1..], i)[k - 1] in line[1..];
        }
      }
    }
  }

  lemma AbandonGood(s: State, i: nat)
    requires Good(s) && i < |s.charges|
    ensures Good(Abandon(s, i))
  {
    CountSet(s.charges, i, Abandoned, Active);
    CountSet(s.charges, i, Abandoned, Abandoned);
    var t := Abandon(s, i);
    forall j | 0 <= j < |t.charges| ensures OnceAt(t, j) { assert OnceAt(s, j); }
  }

  /** Moving overdue charges one by one keeps the books, and stops only when none waits or none fits. */
  lemma {:induction false} DrainGood(s: State)
    requires Counted(s) && Overdue(s) && Once(s)
    ensures Good(Drain(s))
    decreases |s.overdue|
  {
    if s.overdue != [] && s.abandoned < AbandonedAllowance {
      var i := s.overdue[0];
      var t := Abandon(s.(overdue := s.overdue[1..]), i);
      CountSet(s.charges, i, Abandoned, Active);
      CountSet(s.charges, i, Abandoned, Abandoned);
      assert t.charges == s.charges[i := Abandoned] && t.overdue == s.overdue[1..];
      forall j | 0 <= j < |t.charges| ensures OnceAt(t, j) { assert OnceAt(s, j); }
      DrainGood(t);
    }
  }

  lemma FreedKeeps(s: State, i: nat)
    requires Releasing(s, i) && !s.charges[i].Released?
    ensures var t := Freed(s, i); Counted(t) && Overdue(t) && Once(t)
  {
    WithoutIs(s.overdue, i);
    CountSet(s.charges, i, Released, Active);
    CountSet(s.charges, i, Released, Abandoned);
    var t := Freed(s, i);
    forall j | 0 <= j < |t.charges| ensures OnceAt(t, j) { if j != i { assert OnceAt(s, j); } }
  }

  lemma ReleaseGood(s: State, i: nat)
    requires Releasing(s, i)
    ensures Good(Release(s, i)) && |Release(s, i).charges| == |s.charges| && Release(s, i).charges[i].Released?
  {
    if !s.charges[i].Released? {
      FreedKeeps(s, i);
      DrainGood(Freed(s, i));
      DrainKeeps(Freed(s, i), i);
    } else {
      forall j | 0 <= j < |s.charges| ensures OnceAt(s, j) { if j != i { assert OnceAt(s, j); } }
    }
  }

  /** Draining touches no released charge and none of the requests' own counts. */
  lemma {:induction false} DrainKeeps(s: State, i: nat)
    requires Overdue(s) && i < |s.charges|
    ensures var t := Drain(s);
      && |t.charges| == |s.charges| && t.remaining == s.remaining && t.watched == s.watched && t.releases == s.releases
      && t.collected == s.collected && t.reported == s.reported && t.unreachable == s.unreachable
      && (s.charges[i].Released? ==> t.charges[i].Released?)
      && (!s.charges[i].Released? ==> !t.charges[i].Released?)
      && (s.charges[i].Abandoned? ==> t.charges[i].Abandoned?)
    decreases |s.overdue|
  {
    if s.overdue != [] && s.abandoned < AbandonedAllowance {
      var t := Abandon(s.(overdue := s.overdue[1..]), s.overdue[0]);
      assert t.charges == s.charges[s.overdue[0] := Abandoned] && t.overdue == s.overdue[1..];
      DrainKeeps(t, i);
    }
  }

  /** Room in the allowance goes to the longest overdue, as far as it reaches. */
  lemma {:induction false} DrainOrder(s: State) returns (k: nat)
    requires Overdue(s) && 0 <= s.abandoned <= AbandonedAllowance
    ensures k <= |s.overdue| && (k == |s.overdue| || k == AbandonedAllowance - s.abandoned)
    ensures var t := Drain(s);
      && t.overdue == s.overdue[k..] && t.abandoned == s.abandoned + k && t.active == s.active - k
      && |t.charges| == |s.charges| && forall j :: 0 <= j < k ==> t.charges[s.overdue[j]].Abandoned?
    decreases |s.overdue|
  {
    if s.overdue == [] || s.abandoned >= AbandonedAllowance {
      k := 0;
    } else {
      var t := Abandon(s.(overdue := s.overdue[1..]), s.overdue[0]);
      assert t.charges == s.charges[s.overdue[0] := Abandoned] && t.overdue == s.overdue[1..];
      k := DrainOrder(t);
      DrainKeeps(t, s.overdue[0]);
      k := k + 1;
      assert s.overdue[1..][k - 1..] == s.overdue[k..];
      assert forall j :: 1 <= j < k ==> s.overdue[j] == s.overdue[1..][j - 1];
    }
  }

  lemma AdmitGood(s: State)
    requires Good(s)
    ensures Good(Admit(s).0)
  {
    var t := Admit(s).0;
    CountMore(s.charges, Active, Active);
    CountMore(s.charges, Active, Abandoned);
    forall j | 0 <= j < |t.charges| ensures OnceAt(t, j) { if j < |s.charges| { assert OnceAt(s, j); } }
  }

  lemma TrackGood(s: State, i: nat)
    requires Good(s) && i < |s.charges|
    ensures Good(Track(s, i))
  {
    var t := Track(s, i);
    forall j | 0 <= j < |t.charges| ensures OnceAt(t, j) { assert OnceAt(s, j); }
  }

  lemma FinishGood(s: State, i: nat)
    requires Good(s) && i < |s.charges| && s.remaining[i] > 0
    ensures Good(Finish(s, i)) && |Finish(s, i).charges| == |s.charges|
    ensures s.remaining[i] == 1 ==> Finish(s, i).charges[i].Released?
  {
    var t := s.(remaining := s.remaining[i := s.remaining[i] - 1]);
    if t.remaining[i] == 0 {
      var u := t.(watched := t.watched - {i});
      assert OnceAt(s, i);
      forall j | 0 <= j < |u.charges| && j != i ensures OnceAt(u, j) { assert OnceAt(s, j); }
      ReleaseGood(u, i);
    } else {
      forall j | 0 <= j < |t.charges| ensures OnceAt(t, j) { assert OnceAt(s, j); }
    }
  }

  lemma CollectGood(s: State, i: nat)
    requires Good(s) && i < |s.charges|
    ensures Good(Collect(s, i)) && |Collect(s, i).charges| == |s.charges| && Collect(s, i).charges[i].Released?
  {
    var t := s.(watched := s.watched - {i});
    assert OnceAt(s, i);
    forall j | 0 <= j < |t.charges| && j != i ensures OnceAt(t, j) { assert OnceAt(s, j); }
    ReleaseGood(t, i);
    if !s.charges[i].Released? {
      FreedKeeps(t, i);
      DrainKeeps(Freed(t, i), i);
      var u := Collect(s, i);
      forall j | 0 <= j < |u.charges| ensures OnceAt(u, j) { assert OnceAt(Release(t, i), j); }
    }
  }

  /* ---- Runs ------------------------------------------------------------------------------ */

  /** A request arrives; its work is tracked or settles; its deadline passes; the collector reports its token. */
  datatype Event = Arrives | Tracks(i: nat) | Settles(i: nat) | Expires(i: nat) | Collects(i: nat)

  /** Only unsettled work settles, and the collector reports a token at most once. */
  predicate Enabled(s: State, e: Event) {
    Shaped(s) &&
    match e
    case Arrives => true
    case Tracks(i) => i < |s.charges|
    case Settles(i) => i < |s.charges| && s.remaining[i] > 0
    case Expires(i) => i < |s.charges|
    case Collects(i) => i in s.watched && i < |s.charges|
  }

  function Next(s: State, e: Event): State
    requires Enabled(s, e)
  {
    match e
    case Arrives => Admit(s).0
    case Tracks(i) => Track(s, i)
    case Settles(i) => Finish(s, i)
    case Expires(i) => Abandon(s, i)
    case Collects(i) => Collect(s, i)
  }

  datatype Run = Run(states: seq<State>, events: seq<Event>)

  predicate Stepped(s: State, e: Event, t: State) { Enabled(s, e) && t == Next(s, e) }

  ghost predicate ValidRun(run: Run) {
    var valid :=
      && |run.states| == |run.events| + 1 && run.states[0] == Initial
      && (forall i {:trigger run.events[i]} :: 0 <= i < |run.events| ==>
            Stepped(run.states[i], run.events[i], run.states[i + 1]));
    valid
  }

  lemma NextGood(s: State, e: Event)
    requires Good(s) && Enabled(s, e)
    ensures Good(Next(s, e))
  {
    match e {
      case Arrives => AdmitGood(s);
      case Tracks(i) => TrackGood(s, i);
      case Settles(i) => FinishGood(s, i);
      case Expires(i) => AbandonGood(s, i);
      case Collects(i) => CollectGood(s, i);
    }
  }

  /** In every reachable state the pools are counted exactly, neither overflows, and each charge is released at most once. */
  lemma {:induction false} RunGood(run: Run, k: nat)
    requires ValidRun(run) && k < |run.states|
    ensures Good(run.states[k])
  {
    if k > 0 {
      RunGood(run, k - 1);
      NextGood(run.states[k - 1], run.events[k - 1]);
    }
  }

  /** Once all the work of every admitted request has settled or been collected, nothing is charged any more. */
  lemma NothingLeaks(run: Run, k: nat)
    requires ValidRun(run) && k < |run.states|
    requires var s := run.states[k];
      forall i :: 0 <= i < |s.charges| && i < |s.remaining| ==> s.remaining[i] == 0 || i !in s.watched
    ensures run.states[k].active == 0 && run.states[k].abandoned == 0 && run.states[k].overdue == []
  {
    var s := run.states[k];
    RunGood(run, k);
    forall i | 0 <= i < |s.charges| ensures s.charges[i].Released? { assert OnceAt(s, i); }
    NoneLeft(s.charges);
  }

  lemma {:induction false} NoneLeft(charges: seq<Status>)
    requires forall i :: 0 <= i < |charges| ==> charges[i].Released?
    ensures Count(charges, Active) == 0 && Count(charges, Abandoned) == 0
  {
    if charges != [] { NoneLeft(charges[..|charges| - 1]); }
  }

  /** A request is refused exactly when a pool is full, and the reason tells which. */
  lemma RefusedIffFull(run: Run, k: nat)
    requires ValidRun(run) && k < |run.states|
    ensures var s, answer := run.states[k], Admit(run.states[k]).1;
      && (answer.Admitted? <==> Count(s.charges, Active) < Concurrency && Count(s.charges, Abandoned) < AbandonedAllowance)
      && (answer.Saturated? <==> Count(s.charges, Abandoned) == AbandonedAllowance)
      && (s.overdue != [] ==> answer.Saturated?)
  {
    RunGood(run, k);
  }

  /** Statuses only move forward, and the release count never goes down. */
  predicate Forward(s: State, t: State) {
    && Shaped(s) && Shaped(t) && |s.charges| <= |t.charges|
    && forall i :: 0 <= i < |s.charges| ==>
         && s.releases[i] <= t.releases[i] && (s.charges[i].Released? ==> t.charges[i].Released?)
         && (s.charges[i].Abandoned? ==> !t.charges[i].Active?)
  }

  lemma ReleaseForward(s: State, i: nat)
    requires Releasing(s, i)
    ensures Forward(s, Release(s, i))
  {
    ReleaseGood(s, i);
    if !s.charges[i].Released? {
      FreedKeeps(s, i);
      forall j | 0 <= j < |s.charges|
        ensures var t := Release(s, i);
          && |t.charges| == |s.charges| && s.releases[j] <= t.releases[j]
          && (s.charges[j].Released? ==> t.charges[j].Released?) && (s.charges[j].Abandoned? ==> !t.charges[j].Active?)
      {
        DrainKeeps(Freed(s, i), j);
      }
    }
  }

  /** Ending the watch over a charge leaves it to be released. */
  lemma Unwatched(s: State, i: nat, left: int)
    requires Good(s) && i < |s.charges| && left >= 0
    ensures Releasing(s.(remaining := s.remaining[i := left], watched := s.watched - {i}), i)
  {
    var t := s.(remaining := s.remaining[i := left], watched := s.watched - {i});
    assert OnceAt(s, i);
    forall j | 0 <= j < |t.charges| && j != i ensures OnceAt(t, j) { assert OnceAt(s, j); }
  }

  lemma FinishForward(s: State, i: nat)
    requires Good(s) && i < |s.charges| && s.remaining[i] > 0
    ensures Forward(s, Finish(s, i))
  {
    if s.remaining[i] == 1 {
      Unwatched(s, i, 0);
      ReleaseForward(s.(remaining := s.remaining[i := 0], watched := s.watched - {i}), i);
    }
  }

  lemma CollectForward(s: State, i: nat)
    requires Good(s) && i < |s.charges|
    ensures Forward(s, Collect(s, i))
  {
    assert OnceAt(s, i);
    Unwatched(s, i, s.remaining[i]);
    assert s.remaining[i := s.remaining[i]] == s.remaining;
    ReleaseForward(s.(watched := s.watched - {i}), i);
  }

  lemma NextForward(s: State, e: Event)
    requires Good(s) && Enabled(s, e)
    ensures Forward(s, Next(s, e))
  {
    match e {
      case Arrives => AdmitGood(s);
      case Tracks(i) =>
      case Settles(i) => FinishForward(s, i);
      case Expires(i) => AbandonGood(s, i);
      case Collects(i) => CollectForward(s, i);
    }
  }

  /** Released once is released for good: no run releases a charge twice or charges it again. */
  lemma {:induction false} ReleasedForGood(run: Run, j: nat, k: nat)
    requires ValidRun(run) && j <= k < |run.states|
    ensures Forward(run.states[j], run.states[k])
    ensures forall i :: 0 <= i < |run.states[k].charges| ==> run.states[k].releases[i] <= 1
    decreases k - j
  {
    RunGood(run, k);
    forall i | 0 <= i < |run.states[k].charges| ensures run.states[k].releases[i] <= 1 { assert OnceAt(run.states[k], i); }
    if j < k {
      ReleasedForGood(run, j, k - 1);
      RunGood(run, k - 1);
      NextForward(run.states[k - 1], run.events[k - 1]);
    }
  }
}
