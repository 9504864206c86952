/**
 * What the events of a run say about every charge: how much of its work is pending, whether it was given
 * back, and whether it outlived its deadline. The counters of the limiter never disagree with them.
 */
module AuthAdmissionHistory {
  import opened AuthAdmissionModel
  import opened AuthAdmissionTheorems

  /* ---- History ----------------------------------------------------------------------------- */

  /** One piece of work for the arrival, one more for each tracked, one less for each settled. */
  function Pending(events: seq<Event>, i: nat): int {
    if events == [] then 1
    else
      var n := |events| - 1;
      Pending(events[..n], i) + (if events[n] == Tracks(i) then 1 else if events[n] == Settles(i) then -1 else 0)
  }

  /** Event `j` settles the last pending piece of the request, or is the collector's report. */
  predicate EndsAt(events: seq<Event>, j: nat, i: nat) {
    j < |events| && (events[j] == Collects(i) || (events[j] == Settles(i) && Pending(events[..j], i) == 1))
  }

  ghost predicate Ended(events: seq<Event>, i: nat) { exists j :: 0 <= j < |events| && EndsAt(events, j, i) }

  /** The charge outlived its deadline: it is in the allowance or waits for room there. */
  predicate Stalled(s: State, i: nat)
    requires i < |s.charges|
  {
    s.charges[i].Abandoned? || i in s.overdue
  }

  lemma {:induction false} PendingMore(events: seq<Event>, e: Event, i: nat)
    ensures Pending(events + [e], i) == Pending(events, i) + (if e == Tracks(i) then 1 else if e == Settles(i) then -1 else 0)
  {
    assert (events + [e])[..|events|] == events;
  }

  lemma {:induction false} EndedMore(events: seq<Event>, e: Event, i: nat)
    ensures Ended(events + [e], i) <==> Ended(events, i) || e == Collects(i) || (e == Settles(i) && Pending(events, i) == 1)
  {
    var more := events + [e];
    assert more[..|events|] == events;
    forall j | 0 <= j < |events| ensures EndsAt(more, j, i) <==> EndsAt(events, j, i) { assert more[..j] == events[..j]; }
    if Ended(events, i) {
      var j :| 0 <= j < |events| && EndsAt(events, j, i);
      assert EndsAt(more, j, i);
    }
    assert EndsAt(more, |events|, i) <==> e == Collects(i) || (e == Settles(i) && Pending(events, i) == 1);
  }

  /* ---- What one event does to one charge ---------------------------------------------------- */

  lemma {:induction false} WithoutKeeps(line: seq<nat>, i: nat, j: nat)
    requires i != j
    ensures j in Without(line, i) <==> j in line
  {
    if line != [] { WithoutKeeps(line[1..], i, j); }
  }

  /** Draining only moves overdue charges to the allowance. */
  lemma {:induction false} DrainStalls(s: State, i: nat)
    requires Overdue(s) && i < |s.charges|
    ensures |Drain(s).charges| == |s.charges| && (Drain(s).charges[i].Released? <==> s.charges[i].Released?)
    ensures Stalled(Drain(s), i) <==> Stalled(s, i)
    decreases |s.overdue|
  {
    if s.overdue != [] && s.abandoned < AbandonedAllowance {
      var t := Abandon(s.(overdue := s.overdue[1..]), s.overdue[0]);
      assert t.charges == s.charges[s.overdue[0] := Abandoned] && t.overdue == s.overdue[1..];
      DrainStalls(t, i);
    }
  }

  /** Releasing one charge changes no other but by draining. */
  lemma ReleaseAffects(s: State, i: nat, j: nat)
    requires Releasing(s, i) && j < |s.charges|
    ensures var t := Release(s, i);
      && |t.charges| == |s.charges| && t.remaining == s.remaining && t.collected == s.collected
      && (t.charges[j].Released? <==> s.charges[j].Released? || i == j)
      && (j != i ==> (Stalled(t, j) <==> Stalled(s, j)))
  {
    if !s.charges[i].Released? {
      FreedKeeps(s, i);
      DrainKeeps(Freed(s, i), j);
      DrainStalls(Freed(s, i), j);
      if j != i { WithoutKeeps(s.overdue, i, j); }
    }
  }

  /** Whether the charge is given back by the event, given what is pending. */
  predicate GivesBack(e: Event, pending: int, i: nat) { e == Collects(i) || (e == Settles(i) && pending == 1) }

  predicate Affected(s: State, e: Event, t: State, i: nat)
    requires i < |s.charges| && i < |s.remaining|
  {
    var affected :=
      && i < |t.charges| && i < |t.remaining|
      && t.remaining[i] == s.remaining[i] + (if e == Tracks(i) then 1 else if e == Settles(i) then -1 else 0)
      && (t.charges[i].Released? <==> s.charges[i].Released? || GivesBack(e, s.remaining[i], i))
      && (!t.charges[i].Released? ==> (Stalled(t, i) <==> Stalled(s, i) || e == Expires(i)));
    affected
  }

  lemma SettlesAffects(s: State, j: nat, i: nat)
    requires Good(s) && i < |s.charges| && j < |s.charges| && s.remaining[j] > 0
    ensures Affected(s, Settles(j), Finish(s, j), i)
  {
    if s.remaining[j] == 1 {
      Unwatched(s, j, 0);
      ReleaseAffects(s.(remaining := s.remaining[j := 0], watched := s.watched - {j}), j, i);
    }
  }

  lemma CollectsAffects(s: State, j: nat, i: nat)
    requires Good(s) && i < |s.charges| && j < |s.charges|
    ensures Affected(s, Collects(j), Collect(s, j), i)
    ensures Collect(s, j).collected == s.collected + if s.charges[j].Released? then 0 else 1
  {
    assert OnceAt(s, j);
    Unwatched(s, j, s.remaining[j]);
    assert s.remaining[j := s.remaining[j]] == s.remaining;
    ReleaseAffects(s.(watched := s.watched - {j}), j, i);
  }

  lemma NextAffects(s: State, e: Event, i: nat)
    requires Good(s) && Enabled(s, e) && i < |s.charges|
    ensures Affected(s, e, Next(s, e), i)
  {
    match e {
      case Arrives =>
      case Tracks(j) =>
      case Settles(j) => SettlesAffects(s, j, i);
      case Expires(j) =>
      case Collects(j) => CollectsAffects(s, j, i);
    }
  }

  /* ---- Runs ---------------------------------------------------------------------------------- */

  /** State and history agree about a charge. */
  ghost predicate Told(s: State, events: seq<Event>, i: nat)
    requires i < |s.charges| && i < |s.remaining|
  {
    var told :=
      && s.remaining[i] == Pending(events, i)
      && (s.charges[i].Released? <==> Ended(events, i))
      && (!s.charges[i].Released? ==> (Stalled(s, i) <==> Expires(i) in events));
    told
  }

  /** No event names a charge that has not been admitted. */
  predicate Unnamed(events: seq<Event>, i: nat) {
    Tracks(i) !in events && Settles(i) !in events && Expires(i) !in events && Collects(i) !in events
  }

  lemma {:induction false} UnnamedPending(events: seq<Event>, i: nat)
    requires Unnamed(events, i)
    ensures Pending(events, i) == 1 && !Ended(events, i)
  {
    if events != [] {
      var n := |events| - 1;
      assert forall e :: e in events[..n] ==> e in events;
      UnnamedPending(events[..n], i);
      assert events == events[..n] + [events[n]];
      EndedMore(events[..n], events[n], i);
    }
  }

  lemma {:induction false} RunUnnamed(run: Run, k: nat, i: nat)
    requires ValidRun(run) && k < |run.states| && i >= |run.states[k].charges|
    ensures Unnamed(run.events[..k], i)
  {
    if k > 0 {
      RunGood(run, k - 1);
      ReleasedForGood(run, k - 1, k);
      RunUnnamed(run, k - 1, i);
      assert run.events[..k] == run.events[..k - 1] + [run.events[k - 1]];
      assert Stepped(run.states[k - 1], run.events[k - 1], run.states[k]);
    }
  }

  lemma ToldStep(s: State, e: Event, events: seq<Event>, i: nat)
    requires Good(s) && Enabled(s, e) && i < |s.charges| && Told(s, events, i)
    ensures Affected(s, e, Next(s, e), i) && Told(Next(s, e), events + [e], i)
  {
    NextAffects(s, e, i);
    PendingMore(events, e, i);
    EndedMore(events, e, i);
  }

  lemma Newcomer(s: State, e: Event, events: seq<Event>, i: nat)
    requires Good(s) && Enabled(s, e) && |s.charges| <= i < |Next(s, e).charges| && Unnamed(events, i)
    ensures e == Arrives && i == |s.charges| && Good(Next(s, e)) && Told(Next(s, e), events + [e], i)
  {
    NextGood(s, e);
    match e {
      case Arrives =>
      case Tracks(j) =>
      case Settles(j) => FinishGood(s, j);
      case Expires(j) =>
      case Collects(j) => CollectGood(s, j);
    }
    assert Unnamed(events + [e], i);
    UnnamedPending(events + [e], i);
    NotOverdue(s, i);
  }

  lemma NotOverdue(s: State, i: nat)
    requires Shaped(s) && i >= |s.charges|
    ensures i !in s.overdue
  {
  }

  lemma {:induction false} RunTold(run: Run, k: nat, i: nat)
    requires ValidRun(run) && k < |run.states| && i < |run.states[k].charges|
    ensures Good(run.states[k]) && Told(run.states[k], run.events[..k], i)
  {
    RunGood(run, k);
    if k > 0 {
      var s, e := run.states[k - 1], run.events[k - 1];
      RunGood(run, k - 1);
      assert Stepped(s, e, run.states[k]);
      assert run.events[..k] == run.events[..k - 1] + [e];
      if i < |s.charges| {
        RunTold(run, k - 1, i);
        ToldStep(s, e, run.events[..k - 1], i);
      } else {
        RunUnnamed(run, k - 1, i);
        Newcomer(s, e, run.events[..k - 1], i);
      }
    }
  }

  /**
   * A charge is given back at exactly the event that settles its last pending piece of work or reports it
   * unreachable, whatever else happens.
   */
  lemma ReleasedExactly(run: Run, k: nat, i: nat)
    requires ValidRun(run) && k < |run.events| && i < |run.states[k].charges|
    ensures |run.states| == |run.events| + 1 && i < |run.states[k + 1].charges|
    ensures !run.states[k].charges[i].Released? ==>
      (run.states[k + 1].charges[i].Released? <==> EndsAt(run.events, k, i))
  {
    RunTold(run, k, i);
    assert Stepped(run.states[k], run.events[k], run.states[k + 1]);
    NextAffects(run.states[k], run.events[k], i);
  }

  /**
   * In every state a charge is charged if and only if no event so far ended its work; while charged it is
   * in the allowance, or waits for room there, if and only if its deadline has passed.
   */
  lemma ChargedExactly(run: Run, k: nat, i: nat)
    requires ValidRun(run) && k < |run.states| && i < |run.states[k].charges|
    ensures run.states[k].charges[i].Released? <==> Ended(run.events[..k], i)
    ensures !Ended(run.events[..k], i) ==> Pending(run.events[..k], i) > 0
    ensures !Ended(run.events[..k], i) ==> (Stalled(run.states[k], i) <==> Expires(i) in run.events[..k])
  {
    RunTold(run, k, i);
    assert OnceAt(run.states[k], i);
  }

  predicate Surprising(s: State, e: Event) { e.Collects? && e.i < |s.charges| && !s.charges[e.i].Released? }

  /** How many reports of the collector came while the charge was still held. */
  function Unreachable(run: Run, k: nat): nat
    requires k <= |run.events| <= |run.states|
  {
    if k == 0 then 0 else Unreachable(run, k - 1) + if Surprising(run.states[k - 1], run.events[k - 1]) then 1 else 0
  }

  lemma CollectedStep(s: State, e: Event)
    requires Good(s) && Enabled(s, e)
    ensures Next(s, e).collected == s.collected + if Surprising(s, e) then 1 else 0
    ensures e == Arrives ==> Next(s, e).unreachable == 0
  {
    if e.Collects? {
      CollectsAffects(s, e.i, e.i);
    } else if e.Settles? && s.remaining[e.i] == 1 {
      Unwatched(s, e.i, 0);
      ReleaseAffects(s.(remaining := s.remaining[e.i := 0], watched := s.watched - {e.i}), e.i, e.i);
    }
  }

  lemma RunCollected(run: Run, k: nat)
    requires ValidRun(run) && k < |run.events|
    ensures |run.states| == |run.events| + 1
    ensures run.states[k + 1].collected == run.states[k].collected + if Surprising(run.states[k], run.events[k]) then 1 else 0
    ensures run.events[k] == Arrives ==> run.states[k + 1].unreachable == 0
  {
    RunGood(run, k);
    assert Stepped(run.states[k], run.events[k], run.states[k + 1]);
    CollectedStep(run.states[k], run.events[k]);
  }

  lemma {:induction false} CollectedSoFar(run: Run, k: nat)
    requires ValidRun(run) && k < |run.states|
    ensures |run.states| == |run.events| + 1 && run.states[k].collected == Unreachable(run, k)
  {
    if k > 0 {
      CollectedSoFar(run, k - 1);
      RunCollected(run, k - 1);
    }
  }

  /** Every release by the collector is counted once, and logged by the next arrival. */
  lemma CollectedExactly(run: Run, k: nat)
    requires ValidRun(run) && k < |run.states|
    ensures |run.states| == |run.events| + 1
    ensures run.states[k].reported + run.states[k].unreachable == Unreachable(run, k)
    ensures k > 0 && run.events[k - 1] == Arrives ==> run.states[k].unreachable == 0
  {
    Balanced(run, k);
    CollectedSoFar(run, k);
    if k > 0 { RunCollected(run, k - 1); }
  }

  lemma Balanced(run: Run, k: nat)
    requires ValidRun(run) && k < |run.states|
    ensures run.states[k].collected == run.states[k].reported + run.states[k].unreachable
  {
    RunGood(run, k);
  }

  /** An arrival that finds both pools below their limits is charged, actively and for one piece of work; a refused one is not. */
  lemma ArrivalCharged(run: Run, k: nat)
    requires ValidRun(run) && k < |run.events| && run.events[k] == Arrives
    ensures |run.states| == |run.events| + 1
    ensures var s, t, answer := run.states[k], run.states[k + 1], Admit(run.states[k]).1;
      var room := Count(s.charges, Active) < Concurrency && Count(s.charges, Abandoned) < AbandonedAllowance;
      && (answer == if room then Admitted(|s.charges|)
                    else if Count(s.charges, Abandoned) == AbandonedAllowance then Saturated else Busy)
      && t.charges == (if room then s.charges + [Active] else s.charges)
      && (room ==> Pending(run.events[..k + 1], |s.charges|) == 1 && Expires(|s.charges|) !in run.events[..k + 1])
  {
    var s := run.states[k];
    RunGood(run, k);
    assert Stepped(s, run.events[k], run.states[k + 1]);
    RunUnnamed(run, k, |s.charges|);
    assert run.events[..k + 1] == run.events[..k] + [Arrives];
    assert Unnamed(run.events[..k + 1], |s.charges|);
    UnnamedPending(run.events[..k + 1], |s.charges|);
  }
}
