/**
 What the outcome of a revocation says about the run: a success leaves no secret
 of the agent admitting, and `slot_changed` does not mean what it seems to.
 */
module TokenRevocations {
  import opened Options
  import opened TokenStore
  import opened TokenProtocol
  import opened TokenInvariant
  import opened TokenMoves
  import opened TokenRuns
  import opened TokenTheorems

  /* ---- The steps of a revocation ---------------------------------------------------------- */

  predicate SameAim(c: Call, d: Call) { d.kind == c.kind && d.agent == c.agent && d.demand == c.demand }

  /** What a read of a revocation may do, given the slot `cur` it finds. */
  predicate Follows(c: Call, d: Call, cur: Option<Slot>) {
    var holds :=
      && SameAim(c, d) && (d.raw == c.raw || (d.raw == cur && d.pc.VSwapW?))
      && (d.pc.VSwapW? && !c.pc.VSwapW? ==> c.pc.VRead? && d.sent == c.sent + 1)
      && (d.pc == Done(SlotChanged) && !c.pc.Done? ==>
            (c.pc.VRead? && !c.demand.Unconditional?) || (c.pc.VSettle? && cur != c.raw))
      && (d.pc.Done? && !c.pc.Done? && d.pc.out.Ok? ==>
            d.pc.out.view == cur && (cur.Some? ==> cur.value.Revoked?));
    holds
  }

  lemma ReadStep(c: Call, kv: Kv, f: Fresh)
    requires c.kind.Revoke? && c.pc.VRead?
    ensures var cur := SlotOf(kv, c.agent);
      RevokeStep(c, kv, f) ==
        if !Matches(c.demand, cur) then Over(c, SlotChanged)
        else if cur.None? || cur.value.Revoked? then Settled(c, cur, f)
        else if c.gone then Over(c, Aborted)
        else RevokeSwap(c.(raw := cur, rid := f.id), cur, VSwapW, f)
  {
  }

  lemma ReadFollows(c: Call, kv: Kv, f: Fresh)
    requires c.kind.Revoke? && c.pc.VRead?
    ensures Follows(c, Moved(RevokeStep(c, kv, f)), SlotOf(kv, c.agent))
  {
    ReadStep(c, kv, f);
  }

  lemma LoopFollows(c: Call, kv: Kv, f: Fresh)
    requires c.kind.Revoke? && c.pc.VLoop?
    ensures Follows(c, Moved(RevokeStep(c, kv, f)), SlotOf(kv, c.agent))
  {
  }

  /** What a settling revocation finds: its own revocation, the slot it read, or another. */
  lemma SettleStep(c: Call, kv: Kv, f: Fresh)
    requires c.kind.Revoke? && c.pc.VSettle?
    ensures var cur := SlotOf(kv, c.agent);
      RevokeStep(c, kv, f) ==
        if cur.Some? && cur.value.Revoked? && cur.value.revocation == c.rid then Settled(c, cur, f)
        else if cur != c.raw then Over(c, SlotChanged)
        else RevokeSwap(c, c.raw, VSettleW, f)
  {
  }

  lemma SettleFollows(c: Call, kv: Kv, f: Fresh)
    requires c.kind.Revoke? && c.pc.VSettle?
    ensures Follows(c, Moved(RevokeStep(c, kv, f)), SlotOf(kv, c.agent))
  {
    SettleStep(c, kv, f);
  }

  lemma StepFollows(c: Call, kv: Kv, f: Fresh)
    requires c.kind.Revoke?
    ensures Follows(c, Moved(RevokeStep(c, kv, f)), SlotOf(kv, c.agent))
  {
    if c.pc.VRead? { ReadFollows(c, kv, f); }
    else if c.pc.VLoop? { LoopFollows(c, kv, f); }
    else if c.pc.VSettle? { SettleFollows(c, kv, f); }
    else { IdleFollows(c, kv, f); }
  }

  lemma IdleFollows(c: Call, kv: Kv, f: Fresh)
    requires c.kind.Revoke? && !c.pc.VRead? && !c.pc.VLoop? && !c.pc.VSettle?
    ensures Follows(c, Moved(RevokeStep(c, kv, f)), SlotOf(kv, c.agent))
  {
  }

  lemma HearsKeeps(c: Call, won: bool, f: Fresh)
    requires c.kind.Revoke?
    ensures var d := RevokeHears(c, won, f).call; SameAim(c, d) && d.raw == c.raw
  {
  }

  lemma FailedKeeps(c: Call, late: bool)
    requires c.kind.Revoke?
    ensures var d := RevokeFailed(c, late).call; SameAim(c, d) && d.raw == c.raw
  {
  }

  /** Where a call is after the event that moved it. */
  lemma MovedTo(s: State, e: Event, o: nat)
    requires Enabled(s, e) && Moves(e) && Mover(e) == o && o in s.calls && s.calls[o].kind.Revoke?
    ensures o in Apply(s, e).calls && Apply(s, e).calls[o] == Moved(MoveOf(s, e))
    ensures e.Step? ==> MoveOf(s, e) == RevokeStep(s.calls[o], s.kv, e.f)
    ensures e.Reply? ==> MoveOf(s, e) == RevokeHears(s.calls[o], Takes(s.kv, e.req.w), e.f)
    ensures e.Fail? ==> MoveOf(s, e) == RevokeFailed(s.calls[o], e.late)
  {
  }

  /** What a revocation holds to revoke is what it held before, or what its slot holds at this very step. */
  lemma RawSource(s: State, e: Event, o: nat)
    requires Enabled(s, e) && o in s.calls && s.calls[o].kind.Revoke?
    ensures o in Apply(s, e).calls
    ensures var c, d := s.calls[o], Apply(s, e).calls[o];
      SameAim(c, d) && (d.raw == c.raw || d.raw == SlotOf(s.kv, c.agent))
  {
    if Moves(e) && Mover(e) == o {
      MovedTo(s, e, o);
      if e.Step? { StepFollows(s.calls[o], s.kv, e.f); }
      else if e.Reply? { HearsKeeps(s.calls[o], Takes(s.kv, e.req.w), e.f); }
      else { FailedKeeps(s.calls[o], e.late); }
    } else {
      OthersStay(s, e, o);
    }
  }

  lemma NewCallFresh(s: State, e: Event, o: nat)
    requires Enabled(s, e) && o !in s.calls && o in Apply(s, e).calls
    ensures Apply(s, e).calls[o].raw == None && !Apply(s, e).calls[o].pc.Done?
  {
  }

  /** The slot a revocation set out to revoke was its agent's slot at a read of its own. */
  lemma {:induction false} RawWasRead(run: Run, i: nat, o: nat)
    requires ValidRun(run) && i < |run.states| && o in run.states[i].calls && run.states[i].calls[o].kind.Revoke?
    requires run.states[i].calls[o].raw.Some?
    ensures exists h :: 0 <= h < i && o in run.states[h].calls
                        && SlotOf(run.states[h].kv, run.states[i].calls[o].agent) == run.states[i].calls[o].raw
    decreases i
  {
    if i > 0 {
      var s, e := run.states[i - 1], run.events[i - 1];
      if o in s.calls {
        KindOf(run, i - 1, o);
        RawSource(s, e, o);
        if s.calls[o].raw == run.states[i].calls[o].raw { RawWasRead(run, i - 1, o); }
      } else {
        NewCallFresh(s, e, o);
      }
    }
  }

  lemma KindOf(run: Run, i: nat, o: nat)
    requires ValidRun(run) && i < |run.events| && o in run.states[i].calls
    ensures o in run.states[i + 1].calls && run.states[i + 1].calls[o].kind == run.states[i].calls[o].kind
  {
    RunInv(run, i);
    KindStays(run.states[i], run.events[i], o);
  }

  /* ---- slot_changed ------------------------------------------------------------------------ */

  /** This step of the run ends the call. */
  predicate EndsAt(run: Run, i: nat, o: nat) {
    && i < |run.events| && |run.states| == |run.events| + 1
    && o in run.states[i].calls && !run.states[i].calls[o].pc.Done?
    && o in run.states[i + 1].calls && run.states[i + 1].calls[o].pc.Done?
  }

  lemma HearsChanged(c: Call, won: bool, f: Fresh)
    requires c.kind.Revoke? && !c.pc.Done? && RevokeHears(c, won, f).call.pc == Done(SlotChanged)
    ensures c.pc.VSwapW? && !won && !c.demand.Unconditional?
  {
  }

  lemma FailedChanged(c: Call, late: bool)
    requires c.kind.Revoke? && !c.pc.Done?
    ensures RevokeFailed(c, late).call.pc != Done(SlotChanged)
  {
  }

  /** A first swap that is refused was refused by a slot other than the one the call read. */
  lemma SwapRefused(s: State, r: Req)
    requires r in s.flight && r.op in s.calls && r.n + 1 == s.calls[r.op].sent && !Takes(s.kv, r.w)
    requires s.calls[r.op].pc.VSwapW? && RevokeStands(s, r.op, s.calls[r.op])
    ensures SlotOf(s.kv, s.calls[r.op].agent) != s.calls[r.op].raw
  {
  }

  /** A conditional revocation that reports `slot_changed` finds another slot than the one it read. */
  lemma ChangedAway(s: State, e: Event, o: nat)
    requires Enabled(s, e) && o in s.calls && s.calls[o].kind.Revoke? && !s.calls[o].pc.Done?
    requires RevokeStands(s, o, s.calls[o]) && o in Apply(s, e).calls && Apply(s, e).calls[o].pc == Done(SlotChanged)
    ensures var c, d := s.calls[o], Apply(s, e).calls[o];
      && d.raw == c.raw && !c.demand.Unconditional? && (c.raw.Some? ==> SlotOf(s.kv, c.agent) != c.raw)
      && (|| (c.pc.VRead? && c.raw == None) || (c.pc.VSettle? && e.Step?)
          || (c.pc.VSwapW? && e.Reply? && e.req.op == o && !Takes(s.kv, e.req.w)))
  {
    var c := s.calls[o];
    if !Moves(e) || Mover(e) != o {
      OthersStay(s, e, o);
    } else {
      MovedTo(s, e, o);
      if e.Step? {
        StepFollows(c, s.kv, e.f);
      } else if e.Reply? {
        HearsChanged(c, Takes(s.kv, e.req.w), e.f);
        HearsKeeps(c, Takes(s.kv, e.req.w), e.f);
        SwapRefused(s, e.req);
      } else {
        FailedChanged(c, e.late);
      }
    }
  }

  /** Whatever a conditional revocation commits, it commits from the slot it read. */
  lemma RevokesFromRaw(s: State, k: Commit)
    requires Shapes(s) && Log(s) && k in s.log && k.op in s.calls
    requires s.calls[k.op].kind.Revoke? && !s.calls[k.op].demand.Unconditional?
    ensures k.agent == s.calls[k.op].agent && k.was == s.calls[k.op].raw && k.was.Some? && k.was.value.Issued?
  {
    assert Logged(s, k);
    Shape(s, k.op);
  }

  /** Step `i` of the run ends a revocation with `slot_changed`. */
  predicate ChangedAt(run: Run, i: nat, o: nat) {
    EndsAt(run, i, o) && run.states[i].calls[o].kind.Revoke? && run.states[i + 1].calls[o].pc == Done(SlotChanged)
  }

  lemma EndedCall(run: Run, i: nat, o: nat)
    requires ValidRun(run) && ChangedAt(run, i, o)
    ensures var c, d := run.states[i].calls[o], run.states[i + 1].calls[o];
      && SameAim(c, d) && d.raw == c.raw && !c.demand.Unconditional?
      && (c.raw.Some? ==> SlotOf(run.states[i].kv, c.agent) != c.raw)
      && (|| (c.pc.VRead? && c.raw == None) || c.pc.VSettle?
          || (c.pc.VSwapW? && run.events[i].Reply? && run.events[i].req.op == o))
  {
    var s, e := run.states[i], run.events[i];
    RunStands(run, i, o);
    RawSource(s, e, o);
    ChangedAway(s, e, o);
  }

  lemma RunStands(run: Run, i: nat, o: nat)
    requires ValidRun(run) && i < |run.states| && o in run.states[i].calls && run.states[i].calls[o].kind.Revoke?
    ensures RevokeStands(run.states[i], o, run.states[i].calls[o])
  {
    RunInv(run, i);
    assert Stands(run.states[i], o, run.states[i].calls[o]);
  }

  /** Every commit of the call, whenever it lands, leaves the one slot value the call read. */
  lemma CommitsFromRaw(run: Run, i: nat, j: nat, o: nat, k: Commit)
    requires ValidRun(run) && ChangedAt(run, i, o) && CommitAt(run, j, k) && k.op == o
    ensures var c := run.states[i].calls[o]; c.raw.Some? && c.raw.value.Issued? && k.agent == c.agent && k.was == c.raw
  {
    EndedCall(run, i, o);
    var n := if j <= i then i + 1 else j + 1;
    HappenedLogged(run, j, n, k);
    DoneStays(run, i + 1, n, o);
    RunFlight(run, n);
    RevokesFromRaw(run.states[n], k);
  }

  /** From the step that reports it, such a call commits nothing: the slot it read never comes back. */
  lemma NoCommitAfterChanged(run: Run, i: nat, j: nat, o: nat, k: Commit)
    requires ValidRun(run) && ChangedAt(run, i, o) && CommitAt(run, j, k) && k.op == o
    ensures j < i
  {
    if j >= i {
      EndedCall(run, i, o);
      CommitsFromRaw(run, i, j, o, k);
      var c := run.states[i].calls[o];
      RawWasRead(run, i, o);
      var h :| 0 <= h < i && SlotOf(run.states[h].kv, c.agent) == c.raw;
      SlotValueNeverRecurs(run, h, i, j, c.agent);
    }
  }

  /** A slot that no longer holds a value has been left by a commit from that value. */
  lemma {:induction false} LeftByCommit(run: Run, h: nat, i: nat, a: Agent, raw: Option<Slot>) returns (j: nat, k: Commit)
    requires ValidRun(run) && h <= i < |run.states|
    requires SlotOf(run.states[h].kv, a) == raw && SlotOf(run.states[i].kv, a) != raw
    ensures h <= j < i && CommitAt(run, j, k) && k.agent == a && k.was == raw
    decreases i - h
  {
    if SlotOf(run.states[i - 1].kv, a) == raw {
      j := i - 1;
      SlotChangesByCommit(run, j, a);
      k :| k.agent == a && CommitAt(run, j, k);
    } else {
      j, k := LeftByCommit(run, h, i - 1, a, raw);
    }
  }

  /** A write of the call is on its way; a swap of the call has taken effect. */
  ghost predicate Sending(s: State, o: nat) { exists r :: r in s.flight && r.op == o }

  ghost predicate Swapped(s: State, o: nat) { exists k :: k in s.log && k.op == o }

  /** The call's first swap is still in flight only if it has not committed. */
  ghost predicate FirstSwap(s: State, o: nat) {
    o in s.calls && s.calls[o].kind.Revoke? && s.calls[o].pc.VSwapW? ==>
      s.calls[o].sent == 1 && !(Sending(s, o) && Swapped(s, o))
  }

  /** Before its first swap a revocation has nothing in flight and nothing committed. */
  lemma NothingYet(s: State, o: nat)
    requires Flight(s) && Log(s) && o in s.calls && s.calls[o].kind.Revoke? && RevokeStands(s, o, s.calls[o])
    requires s.calls[o].pc.VRead?
    ensures s.calls[o].sent == 0 && !Sending(s, o) && !Swapped(s, o)
  {
    forall r | r in s.flight ensures r.op != o { assert Justified(s, r); }
    forall k | k in s.log ensures k.op != o { assert Logged(s, k); }
  }

  lemma HearsNoSwap(c: Call, won: bool, f: Fresh)
    requires c.kind.Revoke? && !c.pc.Done? && Waiting(c.pc)
    ensures !Moved(RevokeHears(c, won, f)).pc.VSwapW?
  {
  }

  lemma FailedNoSwap(c: Call, late: bool)
    requires c.kind.Revoke? && !c.pc.Done?
    ensures !Moved(RevokeFailed(c, late)).pc.VSwapW?
  {
  }

  /** The first swap is issued by a call that has sent and committed nothing. */
  lemma StepSwaps(s: State, o: nat, f: Fresh)
    requires Flight(s) && Log(s) && Enabled(s, Step(o, f))
    requires s.calls[o].kind.Revoke? && RevokeStands(s, o, s.calls[o])
    ensures FirstSwap(Apply(s, Step(o, f)), o)
  {
    var c, s' := s.calls[o], Apply(s, Step(o, f));
    MovedTo(s, Step(o, f), o);
    StepFollows(c, s.kv, f);
    if s'.calls[o].pc.VSwapW? {
      NothingYet(s, o);
      assert s'.log == s.log;
    }
  }

  lemma MoverSwaps(s: State, e: Event, o: nat)
    requires Flight(s) && Log(s) && Enabled(s, e) && Moves(e) && Mover(e) == o
    requires s.calls[o].kind.Revoke? && RevokeStands(s, o, s.calls[o])
    ensures FirstSwap(Apply(s, e), o)
  {
    if e.Step? {
      StepSwaps(s, o, e.f);
    } else {
      MovedTo(s, e, o);
      if e.Reply? { HearsNoSwap(s.calls[o], Takes(s.kv, e.req.w), e.f); } else { FailedNoSwap(s.calls[o], e.late); }
    }
  }

  /** A step that does not move `o` sends nothing for it, and commits for it only by landing one of its writes. */
  lemma OthersSwap(s: State, e: Event, o: nat)
    requires Enabled(s, e) && o in s.calls && (Moves(e) ==> Mover(e) != o)
    ensures forall r :: r in Apply(s, e).flight && r.op == o ==> r in s.flight
    ensures e.Land? ==> e.req !in Apply(s, e).flight
    ensures Swapped(Apply(s, e), o) && !(e.Land? && e.req.op == o) ==> Swapped(s, o)
  {
    if Moves(e) { assert Apply(s, e) == Place(Before(s, e), Mover(e), MoveOf(s, e), e.f); }
  }

  lemma OnlyOneSwap(s: State, o: nat, r: Req, q: Req)
    requires Flight(s) && o in s.calls && s.calls[o].kind.Revoke? && RevokeStands(s, o, s.calls[o])
    requires s.calls[o].pc.VSwapW? && s.calls[o].sent == 1 && r in s.flight && q in s.flight && r.op == o && q.op == o
    ensures r == q
  {
    assert Justified(s, r) && Justified(s, q);
  }

  lemma FirstSwapStep(s: State, e: Event, o: nat)
    requires Flight(s) && Log(s) && Enabled(s, e) && FirstSwap(s, o)
    requires o in s.calls && s.calls[o].kind.Revoke? ==> RevokeStands(s, o, s.calls[o])
    requires o in s.calls ==> o in Apply(s, e).calls && Apply(s, e).calls[o].kind == s.calls[o].kind
    ensures FirstSwap(Apply(s, e), o)
  {
    if o !in s.calls {
      if o in Apply(s, e).calls { BeginsAtStart(s, e, o); }
    } else if s.calls[o].kind.Revoke? {
      if Moves(e) && Mover(e) == o { MoverSwaps(s, e, o); } else { OtherSwaps(s, e, o); }
    }
  }

  lemma BeginsAtStart(s: State, e: Event, o: nat)
    requires Enabled(s, e) && o !in s.calls && o in Apply(s, e).calls
    ensures Apply(s, e).calls[o].pc == Start(Apply(s, e).calls[o].kind)
  {
  }

  lemma OtherSwaps(s: State, e: Event, o: nat)
    requires Flight(s) && Enabled(s, e) && FirstSwap(s, o) && (Moves(e) ==> Mover(e) != o)
    requires o in s.calls && s.calls[o].kind.Revoke? && RevokeStands(s, o, s.calls[o])
    ensures FirstSwap(Apply(s, e), o)
  {
    OthersStay(s, e, o);
    OthersSwap(s, e, o);
    if s.calls[o].pc.VSwapW? && Sending(Apply(s, e), o) {
      var r :| r in Apply(s, e).flight && r.op == o;
      if e.Land? && e.req.op == o { OnlyOneSwap(s, o, r, e.req); }
    }
  }

  lemma FirstSwapNext(s: State, e: Event, o: nat)
    requires Inv(s) && Enabled(s, e) && FirstSwap(s, o)
    ensures FirstSwap(Apply(s, e), o)
  {
    if o in s.calls {
      KindStays(s, e, o);
      assert Stands(s, o, s.calls[o]);
    }
    FirstSwapStep(s, e, o);
  }

  lemma FirstSwapAt(run: Run, i: nat, o: nat)
    requires ValidRun(run) && i < |run.events| && FirstSwap(run.states[i], o)
    ensures FirstSwap(run.states[i + 1], o)
  {
    RunInv(run, i);
    FirstSwapNext(run.states[i], run.events[i], o);
  }

  lemma {:induction false} RunFirstSwap(run: Run, i: nat, o: nat)
    requires ValidRun(run) && i < |run.states|
    ensures FirstSwap(run.states[i], o)
  {
    if i > 0 {
      RunFirstSwap(run, i - 1, o);
      FirstSwapAt(run, i - 1, o);
    }
  }

  /** Some swap of the call takes effect somewhere in the run. */
  ghost predicate Commits(run: Run, o: nat) {
    exists j, k :: CommitAt(run, j, k) && k.op == o
  }

  /** If its one swap was answered, or it never issued one, a call that reports `slot_changed` never commits. */
  lemma AnsweredNeverCommits(run: Run, i: nat, o: nat)
    requires ValidRun(run) && ChangedAt(run, i, o) && !run.states[i].calls[o].pc.VSettle?
    ensures !Commits(run, o)
  {
    EndedCall(run, i, o);
    forall j, k | CommitAt(run, j, k) ensures k.op != o {
      if k.op == o {
        CommitsFromRaw(run, i, j, o, k);
        NoCommitAfterChanged(run, i, j, o, k);
        HappenedLogged(run, j, i, k);
        InFlightReply(run, i);
        NotYetSwapped(run, i, o, run.events[i].req, k);
      }
    }
  }

  /** While the first swap is in flight, the call has committed nothing. */
  lemma NotYetSwapped(run: Run, i: nat, o: nat, r: Req, k: Commit)
    requires ValidRun(run) && i < |run.states| && o in run.states[i].calls
    requires run.states[i].calls[o].kind.Revoke? && run.states[i].calls[o].pc.VSwapW?
    requires r in run.states[i].flight && r.op == o && k in run.states[i].log
    ensures k.op != o
  {
    RunFirstSwap(run, i, o);
  }

  lemma InFlightReply(run: Run, i: nat)
    requires ValidRun(run) && i < |run.events| && run.events[i].Reply?
    ensures run.events[i].req in run.states[i].flight
  {
  }

  /**
   What `slot_changed` says of a conditional revocation that had read an issued
   slot. Exactly one commit `k` of the whole run leaves that slot, and it
   happened before the report; the call itself commits nothing else, and it
   committed if and only if it had stopped waiting for its swap and `k` is its
   own. The report is wrong in exactly that case.
   */
  lemma SlotChangedReport(run: Run, i: nat, o: nat) returns (j: nat, k: Commit)
    requires ValidRun(run) && ChangedAt(run, i, o) && run.states[i].calls[o].raw.Some?
    ensures var c := run.states[i].calls[o];
      && j < i && CommitAt(run, j, k) && k.agent == c.agent && k.was == c.raw
      && (forall h, l :: CommitAt(run, h, l) && l.agent == c.agent && l.was == c.raw ==> h == j && l == k)
      && (forall h, l :: CommitAt(run, h, l) && l.op == o ==> h == j && l == k)
      && (Commits(run, o) <==> c.pc.VSettle? && k.op == o)
  {
    var c := run.states[i].calls[o];
    EndedCall(run, i, o);
    RunStands(run, i, o);
    RawWasRead(run, i, o);
    var h :| 0 <= h < i && SlotOf(run.states[h].kv, c.agent) == c.raw;
    j, k := LeftByCommit(run, h, i, c.agent, c.raw);
    forall g, l | CommitAt(run, g, l) && l.agent == c.agent && l.was == c.raw ensures g == j && l == k {
      OneCommitPerSlotValue(run, g, j, l, k);
    }
    forall g, l | CommitAt(run, g, l) && l.op == o ensures g == j && l == k { CommitsFromRaw(run, i, g, o, l); }
    if !c.pc.VSettle? { AnsweredNeverCommits(run, i, o); }
  }

  /* ---- Success ------------------------------------------------------------------------------ */

  lemma HearsRevoked(c: Call, won: bool, f: Fresh)
    requires c.kind.Revoke? && !c.pc.Done? && RevokeHears(c, won, f).call.pc.Done?
    requires RevokeHears(c, won, f).call.pc.out.Ok?
    ensures won && RevokeHears(c, won, f).call.pc.out.view == Some(Revoked(c.at, c.rid)) && Waiting(c.pc)
  {
  }

  lemma FailedNeverOk(c: Call, late: bool)
    requires c.kind.Revoke? && !c.pc.Done? && RevokeFailed(c, late).call.pc.Done?
    ensures !RevokeFailed(c, late).call.pc.out.Ok?
  {
  }

  /** The answered swap of a revocation stores the revocation the call reports. */
  lemma WaitsForRevocation(s: State, o: nat, r: Req)
    requires o in s.calls && s.calls[o].kind.Revoke? && Waiting(s.calls[o].pc) && RevokeStands(s, o, s.calls[o])
    requires r in s.flight && r.op == o && r.n + 1 == s.calls[o].sent
    ensures var c := s.calls[o]; r.w.SwapSlot? && r.w.agent == c.agent && r.w.becomes == Revoked(c.at, c.rid)
  {
  }

  /** The view a revocation reports is one its agent's slot holds around the very step that ends the call. */
  lemma RevokedHere(s: State, e: Event, o: nat)
    requires Enabled(s, e) && o in s.calls && s.calls[o].kind.Revoke? && !s.calls[o].pc.Done?
    requires RevokeStands(s, o, s.calls[o]) && o in Apply(s, e).calls
    requires Apply(s, e).calls[o].pc.Done? && Apply(s, e).calls[o].pc.out.Ok?
    ensures var c, v := s.calls[o], Apply(s, e).calls[o].pc.out.view;
      && (v == SlotOf(s.kv, c.agent) || v == SlotOf(Apply(s, e).kv, c.agent)) && (v.Some? ==> v.value.Revoked?)
  {
    var c := s.calls[o];
    if !Moves(e) || Mover(e) != o {
      OthersStay(s, e, o);
    } else {
      MovedTo(s, e, o);
      if e.Step? {
        StepFollows(c, s.kv, e.f);
      } else if e.Reply? {
        HearsRevoked(c, Takes(s.kv, e.req.w), e.f);
        WaitsForRevocation(s, o, e.req);
      } else {
        FailedNeverOk(c, e.late);
      }
    }
  }

  /** Step `i` of the run ends a revocation with success. */
  predicate RevokedAt(run: Run, i: nat, o: nat) {
    && EndsAt(run, i, o) && run.states[i].calls[o].kind.Revoke?
    && run.states[i + 1].calls[o].pc.Done? && run.states[i + 1].calls[o].pc.out.Ok?
  }

  /** A revocation that succeeds saw, or made, the vacant or revoked slot it reports as it ended. */
  lemma RevocationReported(run: Run, i: nat, o: nat) returns (m: nat)
    requires ValidRun(run) && RevokedAt(run, i, o)
    ensures i <= m <= i + 1
    ensures var v := run.states[i + 1].calls[o].pc.out.view;
      SlotOf(run.states[m].kv, run.states[i].calls[o].agent) == v && (v.Some? ==> v.value.Revoked?)
  {
    RunStands(run, i, o);
    RevokedHere(run.states[i], run.events[i], o);
    m := if SlotOf(run.states[i].kv, run.states[i].calls[o].agent) == run.states[i + 1].calls[o].pc.out.view then i else i + 1;
  }

  /** No secret the agent was admitted with at any time up to then admits from the report on. */
  lemma RevokedSecretNeverAdmits(run: Run, h: nat, i: nat, k: nat, o: nat, tok: Token)
    requires ValidRun(run) && RevokedAt(run, i, o) && h <= i < k < |run.states|
    requires Admits(run.states[h].kv, run.states[h].order, tok, run.states[i].calls[o].agent)
    ensures !AdmitsAny(run.states[k].kv, run.states[k].order, tok)
  {
    var a := run.states[i].calls[o].agent;
    var m := RevocationReported(run, i, o);
    forall b ensures !Admits(run.states[m].kv, run.states[m].order, tok, b) {
      if Admits(run.states[m].kv, run.states[m].order, tok, b) { AdmittedForOneAgent(run, h, m, tok, a, b); }
    }
    NeverReadmitted(run, h, m, k, tok);
  }
}
