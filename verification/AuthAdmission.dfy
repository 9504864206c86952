/** The authentication limiter as shared counters and records that its callers change in place. */
module AuthAdmission {
  import opened AuthAdmissionModel
  import opened AuthAdmissionTheorems
  import opened AuthAdmissionHistory

  class Limiter {
    var active: int
    var abandoned: int
    var unreachable: nat
    var overdue: seq<nat>
    var charges: seq<Status>
    var remaining: seq<int>
    var watched: set<nat>
    ghost var releases: seq<nat>
    ghost var collected: nat
    ghost var reported: nat

    ghost function View(): State
      reads this
    {
      State(active, abandoned, unreachable, overdue, charges, remaining, watched, releases, collected, reported)
    }

    ghost predicate Valid()
      reads this
    {
      Good(View())
    }

    constructor ()
      ensures Valid() && View() == Initial
    {
      active, abandoned, unreachable, overdue, charges, remaining := 0, 0, 0, [], [], [];
      watched, releases, collected, reported := {}, [], 0, 0;
    }

    /** A deadline passed with the work unsettled. */
    method Expire(i: nat)
      requires Valid() && i < |charges|
      modifies this
      ensures Valid() && View() == Abandon(old(View()), i)
    {
      AbandonGood(View(), i);
      MoveToAbandoned(i);
    }

    method MoveToAbandoned(i: nat)
      requires i < |charges|
      modifies this`charges, this`active, this`abandoned, this`overdue
      ensures View() == Abandon(old(View()), i)
    {
      if charges[i] != Active { return; }
      if abandoned >= AbandonedAllowance {
        if i !in overdue { overdue := overdue + [i]; }
        return;
      }
      charges := charges[i := Abandoned];
      active, abandoned := active - 1, abandoned + 1;
    }

    /** Give the charge's slot back, and the room it leaves to the longest overdue. */
    method ReleaseCharge(i: nat) returns (first: bool)
      requires Shaped(View()) && i < |charges|
      modifies this`charges, this`active, this`abandoned, this`overdue, this`releases
      ensures View() == Release(old(View()), i) && first == !old(charges[i].Released?)
    {
      if charges[i] == Released { return false; }
      FreeSlot(i);
      ghost var freed := View();
      while overdue != [] && abandoned < AbandonedAllowance
        invariant Shaped(View()) && Drain(View()) == Drain(freed)
        decreases |overdue|
      {
        var waiting := overdue[0];
        overdue := overdue[1..];
        MoveToAbandoned(waiting);
      }
      return true;
    }

    method FreeSlot(i: nat)
      requires Shaped(View()) && i < |charges|
      modifies this`charges, this`active, this`abandoned, this`overdue, this`releases
      ensures View() == Freed(old(View()), i)
    {
      overdue := Without(overdue, i);
      releases := releases[i := releases[i] + 1];
      if charges[i] == Active { active := active - 1; } else { abandoned := abandoned - 1; }
      charges := charges[i := Released];
    }

    /** One request at the route boundary. */
    method Authenticate() returns (answer: Answer)
      requires Valid()
      modifies this
      ensures Valid() && (View(), answer) == Admit(old(View()))
    {
      AdmitGood(View());
      answer := EnterRoute();
    }

    method EnterRoute() returns (answer: Answer)
      modifies this
      ensures (View(), answer) == Admit(old(View()))
    {
      if unreachable > 0 {
        reported := reported + unreachable;
        unreachable := 0;
      }
      if active >= Concurrency || abandoned >= AbandonedAllowance {
        return if abandoned >= AbandonedAllowance then Saturated else Busy;
      }
      active := active + 1;
      var i := |charges|;
      charges, remaining, watched, releases := charges + [Active], remaining + [1], watched + {i}, releases + [0];
      return Admitted(i);
    }

    method TrackWork(i: nat)
      requires Valid() && i < |charges|
      modifies this
      ensures Valid() && View() == Track(old(View()), i)
    {
      TrackGood(View(), i);
      remaining := remaining[i := remaining[i] + 1];
    }

    /** The adapter's own work or a tracked operation settled, before or after the charge was released. */
    method FinishWork(i: nat)
      requires Valid() && i < |charges| && remaining[i] > 0
      modifies this
      ensures Valid() && View() == Finish(old(View()), i)
      ensures i < |charges| && (charges[i].Released? <==> old(charges[i].Released?) || old(remaining[i]) == 1)
    {
      FinishGood(View(), i);
      SettlesAffects(View(), i, i);
      LastPiece(i);
    }

    /** The last settlement ends the watch and releases. */
    method LastPiece(i: nat)
      requires Shaped(View()) && i < |charges|
      modifies this
      ensures View() == Finish(old(View()), i)
    {
      remaining := remaining[i := remaining[i] - 1];
      if remaining[i] != 0 { return; }
      watched := watched - {i};
      var first := ReleaseCharge(i);
    }

    /** The collector's callback. */
    method CollectToken(i: nat)
      requires Valid() && i < |charges| && i in watched
      modifies this
      ensures Valid() && View() == Collect(old(View()), i)
    {
      CollectGood(View(), i);
      CollectKeeps(View(), i);
      ReleaseCollected(i);
    }

    method ReleaseCollected(i: nat)
      requires Shaped(View()) && i < |charges|
      requires var t := Release(View().(watched := watched - {i}), i); t.unreachable == unreachable && t.collected == collected
      modifies this
      ensures View() == Collect(old(View()), i)
    {
      watched := watched - {i};
      var first := ReleaseCharge(i);
      if first {
        unreachable := unreachable + 1;
        collected := collected + 1;
      }
    }
  }

  /** Releasing leaves the collector's own counts alone. */
  lemma CollectKeeps(s: State, i: nat)
    requires Good(s) && i < |s.charges|
    ensures var t := Release(s.(watched := s.watched - {i}), i);
      t.unreachable == s.unreachable && t.collected == s.collected
  {
    var t := s.(watched := s.watched - {i});
    assert OnceAt(s, i);
    Unwatched(s, i, s.remaining[i]);
    assert s.remaining[i := s.remaining[i]] == s.remaining;
    if !s.charges[i].Released? {
      FreedKeeps(t, i);
      DrainKeeps(Freed(t, i), i);
    }
  }
}
