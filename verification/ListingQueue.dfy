/**
 * Listings run one at a time. Each arrival takes the previous arrival's promise as its turn
 * and leaves its own behind; a listing cancelled while it waits passes its turn on only when
 * that turn comes.
 */
module ListingQueue {
  import opened Options

  datatype Phase = Waiting | Running | Finished | Cancelled

  /** `released[i]` says whether listing `i`'s own promise is resolved. */
  datatype State = State(phases: seq<Phase>, released: seq<bool>, active: Option<nat>)

  const Initial: State := State([], [], None)

  predicate Shaped(s: State) { |s.released| == |s.phases| }

  /** The promise listing `i` waits on is resolved. */
  predicate Turn(s: State, i: nat)
    requires Shaped(s) && i < |s.phases|
  {
    i == 0 || s.released[i - 1]
  }

  datatype Event = Arrives | Enters(i: nat) | Leaves(i: nat) | Cancels(i: nat) | PassesOn(i: nat)

  predicate Enabled(s: State, e: Event) {
    Shaped(s) &&
    match e
    case Arrives => true
    case Enters(i) => i < |s.phases| && s.phases[i] == Waiting && Turn(s, i)
    case Leaves(i) => i < |s.phases| && s.phases[i] == Running
    case Cancels(i) => i < |s.phases| && s.phases[i] == Waiting
    case PassesOn(i) => i < |s.phases| && s.phases[i] == Cancelled && !s.released[i] && Turn(s, i)
  }

  function Next(s: State, e: Event): State
    requires Enabled(s, e)
  {
    match e
    case Arrives => s.(phases := s.phases + [Waiting], released := s.released + [false])
    case Enters(i) => s.(phases := s.phases[i := Running], active := Some(i))
    case Leaves(i) => s.(phases := s.phases[i := Finished], released := s.released[i := true], active := None)
    case Cancels(i) => s.(phases := s.phases[i := Cancelled])
    case PassesOn(i) => s.(released := s.released[i := true])
  }

  /** Over and done with: its successor may take its turn. */
  predicate Over(s: State, i: nat)
    requires Shaped(s) && i < |s.phases|
  {
    s.released[i] && (s.phases[i] == Finished || s.phases[i] == Cancelled)
  }

  /**
   * A listing whose promise is resolved is over, and so is everyone before it; one that has entered was
   * preceded only by listings that are over; the active listing is the one running.
   */
  ghost predicate Good(s: State) {
    && Shaped(s)
    && (forall i :: 0 <= i < |s.phases| && s.released[i] ==> Over(s, i))
    && (forall i, j :: 0 <= i < j < |s.phases| && s.released[j] ==> s.released[i])
    && (forall i :: 0 <= i < |s.phases| && s.phases[i] == Finished ==> s.released[i])
    && (forall i :: 0 <= i < |s.phases| && s.phases[i] == Running ==> Turn(s, i) && s.active == Some(i))
    && (s.active.Some? ==> s.active.value < |s.phases| && s.phases[s.active.value] == Running)
  }

  lemma NextGood(s: State, e: Event)
    requires Good(s) && Enabled(s, e)
    ensures Good(Next(s, e))
  {
    match e {
      case Arrives => ArrivesGood(s);
      case Enters(i) => EntersGood(s, i);
      case Leaves(i) => LeavesGood(s, i);
      case Cancels(i) => CancelsGood(s, i);
      case PassesOn(i) => PassesOnGood(s, i);
    }
  }

  lemma ArrivesGood(s: State)
    requires Good(s)
    ensures Good(Next(s, Arrives))
  {
  }

  lemma EntersGood(s: State, i: nat)
    requires Good(s) && Enabled(s, Enters(i))
    ensures Good(Next(s, Enters(i)))
  {
    OneAtATime(s, i);
  }

  lemma LeavesGood(s: State, i: nat)
    requires Good(s) && Enabled(s, Leaves(i))
    ensures Good(Next(s, Leaves(i)))
  {
    RunningSplits(s, i);
  }

  lemma CancelsGood(s: State, i: nat)
    requires Good(s) && Enabled(s, Cancels(i))
    ensures Good(Next(s, Cancels(i)))
  {
  }

  lemma PassesOnGood(s: State, i: nat)
    requires Good(s) && Enabled(s, PassesOn(i))
    ensures Good(Next(s, PassesOn(i)))
  {
    if i > 0 { assert s.released[i - 1]; }
    if s.active.Some? { RunningSplits(s, s.active.value); }
  }

  /** When a listing's turn has come, nobody is running. */
  lemma OneAtATime(s: State, i: nat)
    requires Good(s) && i < |s.phases| && s.phases[i] == Waiting && Turn(s, i)
    ensures s.active == None
  {
    assert !s.released[i];
    if s.active.Some? { RunningSplits(s, s.active.value); }
  }

  /** Everyone before a running listing has passed the turn on, and nobody from it on has. */
  lemma RunningSplits(s: State, j: nat)
    requires Good(s) && j < |s.phases| && s.phases[j] == Running
    ensures forall i :: 0 <= i < j ==> s.released[i]
    ensures forall i :: j <= i < |s.phases| ==> !s.released[i]
  {
    assert Turn(s, j) && !s.released[j];
  }

  datatype Run = Run(states: seq<State>, events: seq<Event>)

  predicate Stepped(s: State, e: Event, t: State) { Enabled(s, e) && t == Next(s, e) }

  ghost predicate ValidRun(run: Run) {
    var valid :=
      && |run.states| == |run.events| + 1 && run.states[0] == Initial
      && (forall k {:trigger run.events[k]} :: 0 <= k < |run.events| ==>
            Stepped(run.states[k], run.events[k], run.states[k + 1]));
    valid
  }

  lemma {:induction false} RunGood(run: Run, k: nat)
    requires ValidRun(run) && k < |run.states|
    ensures Good(run.states[k])
  {
    if k > 0 {
      RunGood(run, k - 1);
      NextGood(run.states[k - 1], run.events[k - 1]);
    }
  }

  /** At most one listing runs, and everyone who arrived before a listing that has entered is over. */
  lemma Exclusive(run: Run, k: nat, i: nat, j: nat)
    requires ValidRun(run) && k < |run.states| && i < j < |run.states[k].phases|
    requires run.states[k].phases[j] == Running || run.states[k].phases[j] == Finished
    ensures Shaped(run.states[k]) && Over(run.states[k], i)
  {
    RunGood(run, k);
    var s := run.states[k];
    assert s.released[j - 1] by {
      if s.phases[j] == Running { assert Turn(s, j); } else { assert s.released[j]; }
    }
    assert s.released[i];
  }

  /** The turn passes down the cancelled listings before `i`, one after the other. */
  ghost function PassedOn(s: State, i: nat): State
    requires Shaped(s) && i <= |s.phases|
    ensures Shaped(PassedOn(s, i)) && PassedOn(s, i).phases == s.phases
  {
    if i == 0 then s
    else
      var t := PassedOn(s, i - 1);
      if Enabled(t, PassesOn(i - 1)) then Next(t, PassesOn(i - 1)) else t
  }

  /**
   * No one is stranded: once everybody ahead of a waiting listing has finished or been cancelled, the
   * cancelled ones pass the turn on by themselves and the listing can enter.
   */
  lemma {:induction false} NotStranded(s: State, i: nat)
    requires Good(s) && i < |s.phases|
    requires forall j :: 0 <= j < i ==> s.phases[j] == Finished || s.phases[j] == Cancelled
    ensures Good(PassedOn(s, i)) && Turn(PassedOn(s, i), i)
    ensures s.phases[i] == Waiting ==> Enabled(PassedOn(s, i), Enters(i))
  {
    if i > 0 {
      NotStranded(s, i - 1);
      var t := PassedOn(s, i - 1);
      if Enabled(t, PassesOn(i - 1)) { NextGood(t, PassesOn(i - 1)); } else { assert t.released[i - 1]; }
    }
  }

  /** The queue of one cache client: the turn each arrival left behind, and the listing now active. */
  class Gate {
    var phases: seq<Phase>
    var released: seq<bool>
    var active: Option<nat>

    ghost function View(): State
      reads this
    {
      State(phases, released, active)
    }

    ghost predicate Valid()
      reads this
    {
      Good(View())
    }

    constructor ()
      ensures Valid() && View() == Initial
    {
      phases, released, active := [], [], None;
    }

    method Arrive() returns (i: nat)
      requires Valid()
      modifies this
      ensures Valid() && View() == Next(old(View()), Arrives) && i == old(|phases|)
    {
      NextGood(View(), Arrives);
      i := |phases|;
      phases, released := phases + [Waiting], released + [false];
    }

    /** Nobody else is active when a listing enters. */
    method Enter(i: nat)
      requires Valid() && Enabled(View(), Enters(i))
      modifies this
      ensures Valid() && View() == Next(old(View()), Enters(i)) && old(active) == None
    {
      OneAtATime(View(), i);
      NextGood(View(), Enters(i));
      phases, active := phases[i := Running], Some(i);
    }

    method Leave(i: nat)
      requires Valid() && Enabled(View(), Leaves(i))
      modifies this
      ensures Valid() && View() == Next(old(View()), Leaves(i)) && old(active) == Some(i)
    {
      NextGood(View(), Leaves(i));
      phases, released, active := phases[i := Finished], released[i := true], None;
    }

    /** A cancelled waiter does not unlock the listing ahead of it. */
    method Cancel(i: nat)
      requires Valid() && Enabled(View(), Cancels(i))
      modifies this
      ensures Valid() && View() == Next(old(View()), Cancels(i)) && released == old(released)
    {
      NextGood(View(), Cancels(i));
      phases := phases[i := Cancelled];
    }

    method PassOn(i: nat)
      requires Valid() && Enabled(View(), PassesOn(i))
      modifies this
      ensures Valid() && View() == Next(old(View()), PassesOn(i)) && active == old(active)
    {
      NextGood(View(), PassesOn(i));
      released := released[i := true];
    }
  }
}
