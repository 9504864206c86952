/**
 * Authentication admission: one charge per admitted request, in an active pool and an
 * allowance for work that outlived its deadline. Charges and the requests they belong to
 * are known by the order of admission.
 */
module AuthAdmissionModel {
  const Concurrency: nat := 16
  const AbandonedAllowance: nat := 16

  datatype Status = Active | Abandoned | Released

  /**
   * `overdue` lists the active charges waiting for abandoned room, oldest first. `remaining` counts the
   * pieces of work of each request that have not settled. `watched` holds the charges whose token the
   * collector may still report. `releases` counts how often each charge was released and `reported` how
   * many collector releases have been logged.
   */
  datatype State = State(
    active: int, abandoned: int, unreachable: nat, overdue: seq<nat>, charges: seq<Status>,
    remaining: seq<int>, watched: set<nat>, releases: seq<nat>, collected: nat, reported: nat)

  const Initial: State := State(0, 0, 0, [], [], [], {}, [], 0, 0)

  function SetStatus(s: State, i: nat, status: Status): State
    requires i < |s.charges|
  {
    s.(charges := s.charges[i := status])
  }

  /** A full allowance cannot overflow: the charge keeps its active slot and waits. */
  function Abandon(s: State, i: nat): State
    requires i < |s.charges|
  {
    if !s.charges[i].Active? then s
    else if s.abandoned >= AbandonedAllowance then
      s.(overdue := if i in s.overdue then s.overdue else s.overdue + [i])
    else SetStatus(s, i, Abandoned).(active := s.active - 1, abandoned := s.abandoned + 1)
  }

  function Without(line: seq<nat>, i: nat): seq<nat> {
    if line == [] then [] else if line[0] == i then line[1..] else [line[0]] + Without(line[1..], i)
  }

  /** Every list is as long as there are charges, and only charges are overdue. */
  predicate Shaped(s: State) {
    |s.remaining| == |s.charges| && |s.releases| == |s.charges|
    && forall k :: 0 <= k < |s.overdue| ==> s.overdue[k] < |s.charges|
  }

  /** Overdue charges move to the allowance while it has room, the longest overdue first. */
  function Drain(s: State): State
    requires Shaped(s)
    decreases |s.overdue|
  {
    if s.overdue == [] || s.abandoned >= AbandonedAllowance then s
    else Drain(Abandon(s.(overdue := s.overdue[1..]), s.overdue[0]))
  }

  lemma {:induction false} WithoutIn(line: seq<nat>, i: nat)
    ensures forall k :: 0 <= k < |Without(line, i)| ==> Without(line, i)[k] in line
  {
    if line != [] { WithoutIn(line[1..], i); }
  }

  /** The charge gives up its slot in whichever pool it is, and its place among the overdue. */
  function Freed(s: State, i: nat): (t: State)
    requires Shaped(s) && i < |s.charges|
    ensures Shaped(t)
  {
    WithoutIn(s.overdue, i);
    var gone := s.(overdue := Without(s.overdue, i), releases := s.releases[i := s.releases[i] + 1]);
    SetStatus(if s.charges[i].Active? then gone.(active := s.active - 1) else gone.(abandoned := s.abandoned - 1), i, Released)
  }

  /** Does anything only the first time. */
  function Release(s: State, i: nat): State
    requires Shaped(s) && i < |s.charges|
  {
    if s.charges[i].Released? then s else Drain(Freed(s, i))
  }

  datatype Answer = Admitted(charge: nat) | Busy | Saturated

  function Admit(s: State): (State, Answer) {
    var t := s.(unreachable := 0, reported := s.reported + s.unreachable);
    if s.active >= Concurrency || s.abandoned >= AbandonedAllowance then
      (t, if s.abandoned >= AbandonedAllowance then Saturated else Busy)
    else
      var i := |s.charges|;
      (t.(active := s.active + 1, charges := s.charges + [Active], remaining := s.remaining + [1],
          watched := s.watched + {i}, releases := s.releases + [0]), Admitted(i))
  }

  function Track(s: State, i: nat): State
    requires i < |s.remaining|
  {
    s.(remaining := s.remaining[i := s.remaining[i] + 1])
  }

  /** One piece of work settled; the last one ends the watch and releases the charge. */
  function Finish(s: State, i: nat): State
    requires Shaped(s) && i < |s.charges|
  {
    var t := s.(remaining := s.remaining[i := s.remaining[i] - 1]);
    if t.remaining[i] != 0 then t else Release(t.(watched := t.watched - {i}), i)
  }

  /** The collector proved that nothing can settle the charge any more. */
  function Collect(s: State, i: nat): State
    requires Shaped(s) && i < |s.charges|
  {
    var t := s.(watched := s.watched - {i});
    if s.charges[i].Released? then t
    else Release(t, i).(unreachable := s.unreachable + 1, collected := s.collected + 1)
  }
}
