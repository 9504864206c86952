/**
 The promises of the agent token slots, stated over whole runs: any
 interleaving of rotate, revoke, adopt and authorize, with any aborts,
 deadlines, storage errors, lost writes and writes that land late.
 */
module TokenTheorems {
  import opened Options
  import opened TokenStore
  import opened TokenProtocol
  import opened TokenInvariant
  import opened TokenMoves
  import opened TokenLanding
  import opened TokenSteps
  import opened TokenAdoptSteps
  import opened TokenRuns

  /* ---- Naming ---------------------------------------------------------------------------- */

  lemma NamedWonBy(s: State, a: Agent, t: Id)
    requires Shapes(s) && Slots(s) && Named(s.kv, a, t)
    ensures WonBy(s, t) && s.calls[s.owner[t]].mine.agent == Some(a)
  {
    NamedWon(s, a);
  }

  /** Each record is named by one agent's slot, over one contiguous stretch of the run. */
  lemma NamedOverOneInterval(run: Run, i: nat, j: nat, k: nat, a: Agent, b: Agent, t: Id)
    requires ValidRun(run) && i <= j <= k < |run.states|
    requires Named(run.states[i].kv, a, t) && Named(run.states[k].kv, b, t)
    ensures a == b && Named(run.states[j].kv, a, t)
  {
    RunInv(run, i); RunInv(run, k);
    RunLasting(run, i, j); RunLasting(run, j, k); RunLasting(run, i, k);
    NamedWonBy(run.states[i], a, t);
    NamedWonBy(run.states[k], b, t);
  }

  /** An absent or issued slot value that has been left never comes back. */
  lemma SlotValueNeverRecurs(run: Run, i: nat, j: nat, k: nat, a: Agent)
    requires ValidRun(run) && i <= j <= k < |run.states|
    requires SlotOf(run.states[i].kv, a) == SlotOf(run.states[k].kv, a)
    requires SlotOf(run.states[i].kv, a).None? || SlotOf(run.states[i].kv, a).value.Issued?
    ensures SlotOf(run.states[j].kv, a) == SlotOf(run.states[i].kv, a)
  {
    RunLasting(run, j, k);
    if a in run.states[i].kv.slots {
      var t := run.states[i].kv.slots[a].token;
      NamedOverOneInterval(run, i, j, k, a, a, t);
      RunInv(run, i); RunInv(run, j); RunLasting(run, i, j);
      SlotIsNext(run.states[i], a);
      SlotIsNext(run.states[j], a);
      SameNext(run, i, j, t);
    }
  }

  lemma SlotIsNext(s: State, a: Agent)
    requires Slots(s) && a in s.kv.slots && s.kv.slots[a].Issued?
    ensures var t := s.kv.slots[a].token; WonBy(s, t) && s.kv.slots[a] == Next(s.calls[s.owner[t]])
  {
  }

  /** The slot value a committed record is named by is fixed when it is minted. */
  lemma SameNext(run: Run, i: nat, j: nat, t: Id)
    requires ValidRun(run) && i <= j < |run.states| && WonBy(run.states[i], t)
    ensures WonBy(run.states[j], t)
    ensures var s, s' := run.states[i], run.states[j]; Next(s.calls[s.owner[t]]) == Next(s'.calls[s'.owner[t]])
  {
    RunLasting(run, i, j);
    var s, s' := run.states[i], run.states[j];
    if s.calls[s.owner[t]].kind.Adopt? {
      assert Adopted(s, t, s.calls[s.owner[t]].legacy);
    }
  }

  /* ---- Commits --------------------------------------------------------------------------- */

  /** Step `j` of the run performs the slot swap `k`. */
  ghost predicate CommitAt(run: Run, j: nat, k: Commit) {
    && j + 1 < |run.states| && j < |run.events|
    && SlotOf(run.states[j].kv, k.agent) == k.was
    && SlotOf(run.states[j + 1].kv, k.agent) == Some(k.becomes)
    && (run.events[j].Land? || run.events[j].Reply?)
    && run.events[j].req.op == k.op
    && run.events[j].req.w == SwapSlot(k.agent, k.was, k.becomes)
  }

  lemma {:induction false} LoggedHappened(run: Run, i: nat, k: Commit)
    requires ValidRun(run) && i < |run.states| && k in run.states[i].log
    ensures exists j :: 0 <= j < i && CommitAt(run, j, k)
  {
    var s := run.states[i - 1];
    if k in s.log {
      LoggedHappened(run, i - 1, k);
      var j :| 0 <= j < i - 1 && CommitAt(run, j, k);
    } else {
      assert run.states[i] == Apply(s, run.events[i - 1]);
      assert CommitAt(run, i - 1, k);
    }
  }

  lemma HappenedLogged(run: Run, j: nat, i: nat, k: Commit)
    requires ValidRun(run) && j < i < |run.states| && CommitAt(run, j, k)
    ensures k in run.states[i].log
  {
    LogGrows(run, j + 1, i);
    assert Stepped(run.states[j], run.events[j], run.states[j + 1]);
    EntersLog(run.states[j], run.events[j], k);
  }

  lemma LogGrows(run: Run, i: nat, j: nat)
    requires ValidRun(run) && i <= j < |run.states|
    ensures run.states[i].log <= run.states[j].log
  {
    RunLasting(run, i, j);
  }

  lemma EntersLog(s: State, e: Event, k: Commit)
    requires Enabled(s, e) && (e.Land? || e.Reply?) && e.req.op == k.op && e.req.w == SwapSlot(k.agent, k.was, k.becomes)
    requires SlotOf(s.kv, k.agent) == k.was
    ensures k in Apply(s, e).log
  {
    if e.Reply? { assert Apply(s, e) == Place(Before(s, e), Mover(e), MoveOf(s, e), e.f); }
  }

  /** A slot changes only by a swap some call issued. */
  lemma SlotChangesByCommit(run: Run, j: nat, a: Agent)
    requires ValidRun(run) && j < |run.events|
    requires SlotOf(run.states[j].kv, a) != SlotOf(run.states[j + 1].kv, a)
    ensures exists k: Commit :: k.agent == a && CommitAt(run, j, k)
  {
    SlotChange(run.states[j], run.events[j], a);
    var r := run.events[j].req;
    assert CommitAt(run, j, Commit(a, r.w.was, r.w.becomes, r.op));
  }

  lemma SwapChange(kv: Kv, w: Write, a: Agent)
    requires SlotOf(kv, a) != SlotOf(Landed(kv, w), a)
    ensures w.SwapSlot? && w.agent == a && SlotOf(kv, a) == w.was && SlotOf(Landed(kv, w), a) == Some(w.becomes)
  {
  }

  /** The store changes only when a write lands. */
  lemma StoreChange(s: State, e: Event)
    requires Enabled(s, e)
    ensures Apply(s, e).kv == if e.Land? || e.Reply? then Landed(s.kv, e.req.w) else s.kv
  {
    if Moves(e) { assert Apply(s, e) == Place(Before(s, e), Mover(e), MoveOf(s, e), e.f); }
  }

  lemma SlotChange(s: State, e: Event, a: Agent)
    requires Enabled(s, e) && SlotOf(s.kv, a) != SlotOf(Apply(s, e).kv, a)
    ensures e.Land? || e.Reply?
    ensures e.req.w.SwapSlot? && e.req.w.agent == a && SlotOf(s.kv, a) == e.req.w.was
    ensures SlotOf(Apply(s, e).kv, a) == Some(e.req.w.becomes)
  {
    StoreChange(s, e);
    SwapChange(s.kv, e.req.w, a);
  }

  /** Of all the swaps that start from one absent or issued slot value, at most one commits. */
  lemma OneCommitPerSlotValue(run: Run, i: nat, j: nat, k: Commit, l: Commit)
    requires ValidRun(run) && CommitAt(run, i, k) && CommitAt(run, j, l) && SameStart(k, l)
    ensures i == j && k == l
  {
    if i <= j { OneCommitInOrder(run, i, j, k, l); } else { OneCommitInOrder(run, j, i, l, k); }
  }

  /** What a commit left is not what the slot holds now. */
  lemma LeftForGood(s: State, k: Commit)
    requires Log(s) && k in s.log && (k.was.None? || k.was.value.Issued?)
    ensures SlotOf(s.kv, k.agent) != k.was
  {
    assert Logged(s, k);
  }

  lemma CommitLeaves(run: Run, i: nat, k: Commit)
    requires ValidRun(run) && CommitAt(run, i, k) && (k.was.None? || k.was.value.Issued?)
    ensures SlotOf(run.states[i].kv, k.agent) == k.was && SlotOf(run.states[i + 1].kv, k.agent) != k.was
  {
    HappenedLogged(run, i, i + 1, k);
    RunLog(run, i + 1);
    LeftForGood(run.states[i + 1], k);
  }

  lemma OneCommitInOrder(run: Run, i: nat, j: nat, k: Commit, l: Commit)
    requires ValidRun(run) && i <= j && CommitAt(run, i, k) && CommitAt(run, j, l) && SameStart(k, l)
    ensures i == j && k == l
  {
    if i < j {
      CommitLeaves(run, i, k);
      SlotValueNeverRecurs(run, i, i + 1, j, k.agent);
      assert false;
    }
  }

  /** Both swaps store a revocation, by one unconditional call, at one reading of the clock. */
  predicate RevokedAgain(s: State, k: Commit, l: Commit) {
    && k.becomes.Revoked? && l.becomes.Revoked? && k.becomes.at == l.becomes.at && k.op == l.op
    && k.op in s.calls && s.calls[k.op].kind.Revoke? && s.calls[k.op].demand.Unconditional?
  }

  lemma SameRevoker(s: State, k: Commit, l: Commit)
    requires Log(s) && k in s.log && l in s.log && k.becomes.Revoked? && l.becomes.Revoked?
    ensures k.becomes == l.becomes ==> k.op == l.op && k.op in s.calls
    ensures k.op == l.op ==> k.becomes.revocation == l.becomes.revocation
    ensures k.op in s.calls && (s.calls[k.op].kind.Revoke? || s.calls[k.op].kind.Rotate?)
    ensures k.op == l.op && !(s.calls[k.op].kind.Revoke? && s.calls[k.op].demand.Unconditional?) ==>
      k.was == l.was && k.was.Some? && k.was.value.Issued?
  {
    assert Logged(s, k) && Logged(s, l);
  }

  /** An issuing swap that has committed is not proposed again. */
  lemma IssuedOnce(run: Run, i: nat, j: nat, k: Commit, l: Commit)
    requires ValidRun(run) && i < j && CommitAt(run, i, k) && CommitAt(run, j, l) && k.becomes.Issued? && k.agent == l.agent
    ensures k.becomes != l.becomes
  {
    HappenedLogged(run, i, j, k);
    RunFlight(run, j);
    InFlight(run, j, l);
    ProposedOnce(run.states[j], run.events[j].req, k);
  }

  lemma RunFlight(run: Run, i: nat)
    requires ValidRun(run) && i < |run.states|
    ensures Shapes(run.states[i]) && Flight(run.states[i]) && Log(run.states[i])
  {
    RunInv(run, i);
  }

  lemma InFlight(run: Run, j: nat, l: Commit)
    requires ValidRun(run) && CommitAt(run, j, l)
    ensures run.events[j].req in run.states[j].flight
  {
  }

  lemma ProposedOnce(s: State, r: Req, k: Commit)
    requires Shapes(s) && Flight(s) && Log(s) && r in s.flight && k in s.log && k.becomes.Issued?
    ensures !(r.w.SwapSlot? && r.w.becomes == k.becomes && r.w.agent == k.agent)
  {
    assert Justified(s, r) && Logged(s, k);
    Shape(s, r.op);
    Shape(s, k.op);
  }

  lemma RunLog(run: Run, i: nat)
    requires ValidRun(run) && i < |run.states|
    ensures Log(run.states[i])
  {
    RunInv(run, i);
  }

  /**
   A commit stores a value the slot held before exactly when an unconditional
   revocation, whose first swap went unanswered but landed, commits a second
   time at the same reading of its clock. Otherwise every commit stores a new
   value.
   */
  lemma StoresNewValue(run: Run, i: nat, j: nat, k: Commit, l: Commit)
    requires ValidRun(run) && i < j && CommitAt(run, i, k) && CommitAt(run, j, l) && k.agent == l.agent
    ensures k.becomes == l.becomes <==> RevokedAgain(run.states[j + 1], k, l)
  {
    if k.becomes.Issued? {
      IssuedOnce(run, i, j, k, l);
    } else if l.becomes.Revoked? {
      BothLogged(run, i, j, k, l);
      if k.op == l.op && SameStart(k, l) { OneCommitPerSlotValue(run, i, j, k, l); }
    }
  }

  lemma BothLogged(run: Run, i: nat, j: nat, k: Commit, l: Commit)
    requires ValidRun(run) && i < j && CommitAt(run, i, k) && CommitAt(run, j, l)
    requires k.becomes.Revoked? && l.becomes.Revoked?
    ensures var s := run.states[j + 1];
      && (k.becomes == l.becomes ==> k.op == l.op) && (k.op == l.op ==> k.becomes.revocation == l.becomes.revocation)
      && k.op in s.calls && (s.calls[k.op].kind.Revoke? || s.calls[k.op].kind.Rotate?)
      && (k.op == l.op && !(s.calls[k.op].kind.Revoke? && s.calls[k.op].demand.Unconditional?) ==>
            k.was == l.was && k.was.Some? && k.was.value.Issued?)
  {
    HappenedLogged(run, i, j + 1, k);
    HappenedLogged(run, j, j + 1, l);
    RunLog(run, j + 1);
    SameRevoker(run.states[j + 1], k, l);
  }

  /* ---- Admission ------------------------------------------------------------------------- */

  lemma AdmitsIsAdmitting(s: State, tok: Token, a: Agent)
    requires Base(s) && Shapes(s) && Records(s) && Slots(s) && Admits(s.kv, s.order, tok, a)
    ensures Firm(s, tok, s.kv.lookups[tok.digest])
    ensures s.calls[s.owner[s.kv.lookups[tok.digest]]].mine.hash == tok.digest
    ensures s.calls[s.owner[s.kv.lookups[tok.digest]]].mine.agent == Some(a)
  {
    AdmittingIsFirm(s, tok);
    Shape(s, s.owner[s.kv.lookups[tok.digest]]);
  }

  /** A digest has at most one committed record. */
  lemma OneRecordPerDigest(s: State, t: Id, u: Id)
    requires Base(s) && Shapes(s) && Log(s) && Backing(s) && WonBy(s, t) && WonBy(s, u)
    requires s.calls[s.owner[t]].mine.hash == s.calls[s.owner[u]].mine.hash
    ensures t == u
  {
    var c, d := s.calls[s.owner[t]], s.calls[s.owner[u]];
    Shape(s, s.owner[t]); Shape(s, s.owner[u]);
    if c.kind.Adopt? && d.kind.Adopt? {
      assert c.legacy == d.legacy;
      OneAdoption(s, t, u, c.legacy);
    }
  }

  /** A token is admitted for one agent only, whatever the run does. */
  lemma AdmittedForOneAgent(run: Run, i: nat, j: nat, tok: Token, a: Agent, b: Agent)
    requires ValidRun(run) && i <= j < |run.states|
    requires Admits(run.states[i].kv, run.states[i].order, tok, a)
    requires Admits(run.states[j].kv, run.states[j].order, tok, b)
    ensures a == b
    ensures run.states[i].kv.lookups[tok.digest] == run.states[j].kv.lookups[tok.digest]
  {
    RunInv(run, i); RunInv(run, j); RunLasting(run, i, j);
    AdmitsIsAdmitting(run.states[i], tok, a);
    AdmitsIsAdmitting(run.states[j], tok, b);
    OneRecordPerDigest(run.states[j], run.states[i].kv.lookups[tok.digest], run.states[j].kv.lookups[tok.digest]);
  }

  /** A token that admitted keeps its record and lookup for as long as its record is named. */
  lemma AdmitsWhileNamed(run: Run, i: nat, j: nat, tok: Token, a: Agent)
    requires ValidRun(run) && i <= j < |run.states|
    requires Admits(run.states[i].kv, run.states[i].order, tok, a)
    requires Named(run.states[j].kv, a, run.states[i].kv.lookups[tok.digest])
    ensures Admits(run.states[j].kv, run.states[j].order, tok, a)
  {
    var s, s' := run.states[i], run.states[j];
    var t := s.kv.lookups[tok.digest];
    RunInv(run, i); RunInv(run, j); RunLasting(run, i, j);
    AdmitsIsAdmitting(s, tok, a);
    var c := s.calls[s.owner[t]];
    Shape(s, s.owner[t]);
    if c.kind.Adopt? { assert Adopted(s, t, c.legacy); }
    assert Backed(s', s'.calls[s.owner[t]]);
  }

  /** A secret that stops admitting never admits again. */
  lemma NeverReadmitted(run: Run, i: nat, j: nat, k: nat, tok: Token)
    requires ValidRun(run) && i <= j <= k < |run.states|
    requires AdmitsAny(run.states[i].kv, run.states[i].order, tok)
    requires !AdmitsAny(run.states[j].kv, run.states[j].order, tok)
    ensures !AdmitsAny(run.states[k].kv, run.states[k].order, tok)
  {
    var a :| Admits(run.states[i].kv, run.states[i].order, tok, a);
    forall b ensures !Admits(run.states[k].kv, run.states[k].order, tok, b) {
      if Admits(run.states[k].kv, run.states[k].order, tok, b) {
        AdmittedForOneAgent(run, i, k, tok, a, b);
        NamedOverOneInterval(run, i, j, k, a, b, run.states[i].kv.lookups[tok.digest]);
        AdmitsWhileNamed(run, i, j, tok, a);
        assert false;
      }
    }
  }

  /* ---- Adoption -------------------------------------------------------------------------- */

  /** No reachable adoption finds its digest's lookup taken by anyone else. */
  lemma LookupNeverTaken(run: Run, i: nat, o: nat)
    requires ValidRun(run) && i < |run.states| && o in run.states[i].calls
    ensures !run.states[i].calls[o].pc.ATaken?
  {
    RunInv(run, i);
    NotTaken(run.states[i], o);
  }

  lemma NotTaken(s: State, o: nat)
    requires Positions(s) && o in s.calls
    ensures !s.calls[o].pc.ATaken?
  {
    assert Stands(s, o, s.calls[o]);
  }

  /** Once an adopted record has been replaced or revoked, nothing carries the legacy digest again. */
  lemma AdoptionIsFinal(run: Run, i: nat, j: nat, k: nat, t: Id, l: Record)
    requires ValidRun(run) && i <= j <= k < |run.states|
    requires Adopted(run.states[i], t, l)
    requires !Named(run.states[j].kv, run.states[i].calls[run.states[i].owner[t]].agent, t)
    ensures forall u :: Adopted(run.states[k], u, l) ==> u == t
    ensures forall b, u :: Named(run.states[k].kv, b, u) ==> HashAt(run.states[k].kv, u) != Some(l.hash)
    ensures forall tok: Token :: tok.digest == l.hash ==> !AdmitsAny(run.states[k].kv, run.states[k].order, tok)
  {
    var s := run.states[k];
    RunInv(run, i); RunInv(run, k);
    RunLasting(run, i, j); RunLasting(run, j, k); RunLasting(run, i, k);
    forall u | Adopted(s, u, l) ensures u == t { OneAdoption(s, t, u, l); }
    Shape(run.states[i], run.states[i].owner[t]);
    forall b, u | Named(s.kv, b, u) ensures HashAt(s.kv, u) != Some(l.hash) {
      NamedWonBy(s, b, u);
      if HashAt(s.kv, u) == Some(l.hash) { SameDigest(s, u, l); }
    }
    forall tok: Token | tok.digest == l.hash ensures !AdmitsAny(s.kv, s.order, tok) {
      forall b ensures !Admits(s.kv, s.order, tok, b) { }
    }
  }

  /* ---- Outcomes -------------------------------------------------------------------------- */

  lemma DoneStep(s: State, e: Event, o: nat)
    requires Enabled(s, e) && o in s.calls && s.calls[o].pc.Done?
    ensures var s' := Apply(s, e); o in s'.calls && s'.calls[o] == s.calls[o].(gone := s'.calls[o].gone)
  {
    if Moves(e) {
      assert Mover(e) != o;
      var s1 := Before(s, e);
      assert Apply(s, e) == Place(s1, Mover(e), MoveOf(s, e), e.f);
    }
  }

  /** A finished call never moves again; only its request may still end. */
  lemma {:induction false} DoneStays(run: Run, i: nat, j: nat, o: nat)
    requires ValidRun(run) && i <= j < |run.states| && o in run.states[i].calls && run.states[i].calls[o].pc.Done?
    ensures o in run.states[j].calls
    ensures run.states[j].calls[o] == run.states[i].calls[o].(gone := run.states[j].calls[o].gone)
    decreases j - i
  {
    if i < j {
      DoneStays(run, i, j - 1, o);
      DoneStep(run.states[j - 1], run.events[j - 1], o);
    }
  }

  lemma StandsHonest(s: State, o: nat)
    requires Positions(s) && o in s.calls && s.calls[o].pc.Done?
    ensures Honest(s, o, s.calls[o], s.calls[o].pc.out)
  {
    assert Stands(s, o, s.calls[o]);
  }

  lemma DoneHonest(run: Run, i: nat, j: nat, o: nat)
    requires ValidRun(run) && i <= j < |run.states| && o in run.states[i].calls && run.states[i].calls[o].pc.Done?
    ensures o in run.states[j].calls
    ensures run.states[j].calls[o] == run.states[i].calls[o].(gone := run.states[j].calls[o].gone)
    ensures var c := run.states[j].calls[o]; c.pc.Done? && Honest(run.states[j], o, c, c.pc.out)
  {
    DoneStays(run, i, j, o);
    RunInv(run, j);
    StandsHonest(run.states[j], o);
  }

  /** A reported rotation committed: its swap took the slot from what it read to the secret's record. */
  lemma RotationReported(run: Run, i: nat, o: nat)
    requires ValidRun(run) && i < |run.states| && o in run.states[i].calls
    requires run.states[i].calls[o].kind.Rotate? && run.states[i].calls[o].pc.Done? && run.states[i].calls[o].pc.out.Ok?
    ensures var c := run.states[i].calls[o];
      c.pc.out.view == Some(Next(c)) && exists j :: 0 <= j < i && CommitAt(run, j, Win(c, o))
  {
    DoneHonest(run, i, i, o);
    LoggedHappened(run, i, Win(run.states[i].calls[o], o));
  }

  lemma NamedAdmits(s: State, o: nat)
    requires Shapes(s) && Slots(s) && Backing(s) && o in s.calls
    requires s.calls[o].kind.Rotate? && s.calls[o].minted && Named(s.kv, s.calls[o].agent, s.calls[o].mine.id)
    ensures Admits(s.kv, s.order, Token(s.calls[o].mine.hash, s.calls[o].mine.prefix), s.calls[o].agent)
  {
    Shape(s, o);
    NamedWonBy(s, s.calls[o].agent, s.calls[o].mine.id);
    assert Backed(s, s.calls[o]);
  }

  /** The secret a rotation minted admits whenever the slot names its record, reported or not. */
  lemma RotatedSecretAdmits(run: Run, i: nat, o: nat)
    requires ValidRun(run) && i < |run.states| && o in run.states[i].calls
    requires run.states[i].calls[o].kind.Rotate? && run.states[i].calls[o].minted
    ensures var s, c := run.states[i], run.states[i].calls[o];
      Named(s.kv, c.agent, c.mine.id) <==> Admits(s.kv, s.order, Token(c.mine.hash, c.mine.prefix), c.agent)
  {
    RunInv(run, i);
    var s, c := run.states[i], run.states[i].calls[o];
    var tok := Token(c.mine.hash, c.mine.prefix);
    if Named(s.kv, c.agent, c.mine.id) { NamedAdmits(s, o); }
    if Admits(s.kv, s.order, tok, c.agent) { SameRotation(s, o, s.kv.lookups[tok.digest]); }
  }

  /** A lookup of a minted digest names the record it was minted for. */
  lemma SameRotation(s: State, o: nat, t: Id)
    requires Base(s) && Shapes(s) && Lookups(s) && o in s.calls && s.calls[o].kind.Rotate? && s.calls[o].minted
    requires s.calls[o].mine.hash in s.kv.lookups && s.kv.lookups[s.calls[o].mine.hash] == t
    ensures t == s.calls[o].mine.id
  {
    Shape(s, o);
    Shape(s, s.owner[t]);
  }

  predicate Refusal(out: Outcome) { out.Conflict? || out.SlotChanged? || out.NotAdoptable? }

  lemma RefusedNothing(s: State, o: nat, k: Commit)
    requires Log(s) && o in s.calls && s.calls[o].pc.Done? && Honest(s, o, s.calls[o], s.calls[o].pc.out)
    requires s.calls[o].kind.Rotate? || s.calls[o].kind.Adopt?
    requires Refusal(s.calls[o].pc.out) && k.op == o && k.becomes.Issued?
    ensures k !in s.log
  {
  }

  /** A refused rotation or adoption publishes nothing, before or after it reports. */
  lemma RefusalNeverCommits(run: Run, i: nat, j: nat, o: nat, k: Commit)
    requires ValidRun(run) && i < |run.states| && o in run.states[i].calls && run.states[i].calls[o].pc.Done?
    requires run.states[i].calls[o].kind.Rotate? || run.states[i].calls[o].kind.Adopt?
    requires Refusal(run.states[i].calls[o].pc.out)
    requires k.op == o && k.becomes.Issued?
    ensures !CommitAt(run, j, k)
  {
    if CommitAt(run, j, k) {
      var n := if j < i then i else j + 1;
      HappenedLogged(run, j, n, k);
      DoneHonest(run, i, n, o);
      RunLog(run, n);
      RefusedNothing(run.states[n], o, k);
    }
  }

  /** After `aborted`, the secret the rotation minted admits in no later state. */
  lemma AbortedSecretNeverAdmits(run: Run, i: nat, k: nat, o: nat, tok: Token)
    requires ValidRun(run) && i <= k < |run.states| && o in run.states[i].calls
    requires run.states[i].calls[o].kind.Rotate? && run.states[i].calls[o].pc == Done(Aborted)
    requires run.states[i].calls[o].minted && tok.digest == run.states[i].calls[o].mine.hash
    ensures !AdmitsAny(run.states[k].kv, run.states[k].order, tok)
  {
    var s := run.states[k];
    DoneHonest(run, i, k, o);
    RunInv(run, k);
    Shape(s, o);
    forall a ensures !Admits(s.kv, s.order, tok, a) {
      if Admits(s.kv, s.order, tok, a) {
        AdmitsIsAdmitting(s, tok, a);
        Shape(s, s.owner[s.kv.lookups[tok.digest]]);
        assert false;
      }
    }
  }

  /** A conditional revocation that read an issued slot succeeds only by its own swap from exactly that slot. */
  lemma ConditionalRevocation(run: Run, i: nat, o: nat)
    requires ValidRun(run) && i < |run.states| && o in run.states[i].calls
    requires var c := run.states[i].calls[o];
      c.kind.Revoke? && !c.demand.Unconditional? && c.raw.Some? && c.pc.Done? && c.pc.out.Ok?
    ensures var c := run.states[i].calls[o];
      && c.pc.out.view.Some?
      && exists j :: 0 <= j < i && CommitAt(run, j, Commit(c.agent, c.raw, c.pc.out.view.value, o))
  {
    DoneHonest(run, i, i, o);
    var c := run.states[i].calls[o];
    LoggedHappened(run, i, Commit(c.agent, c.raw, c.pc.out.view.value, o));
  }

  /** A reported adoption stands: its record was committed and the digest's lookup names it for good. */
  lemma AdoptionReported(run: Run, i: nat, j: nat, o: nat)
    requires ValidRun(run) && i <= j < |run.states| && o in run.states[i].calls
    requires run.states[i].calls[o].kind.Adopt? && run.states[i].calls[o].pc.Done? && run.states[i].calls[o].pc.out.Ok?
    ensures var c := run.states[i].calls[o];
      && c.pc.out.view.Some? && c.pc.out.view.value.Issued?
      && Adopted(run.states[j], c.pc.out.view.value.token, c.legacy)
      && MintedFor(run.states[j], c.pc.out.view.value.token, c.agent)
      && c.legacy.hash in run.states[j].kv.lookups
      && run.states[j].kv.lookups[c.legacy.hash] == c.pc.out.view.value.token
  {
    DoneHonest(run, i, j, o);
  }

  lemma AdoptedAdmits(s: State, t: Id, l: Record, a: Agent)
    requires Shapes(s) && Slots(s) && Backing(s) && Adopted(s, t, l) && MintedFor(s, t, a)
    requires l.hash in s.kv.lookups && s.kv.lookups[l.hash] == t && Named(s.kv, a, t)
    ensures Admits(s.kv, s.order, Token(l.hash, l.prefix), a)
  {
    Shape(s, s.owner[t]);
    assert Backed(s, s.calls[s.owner[t]]);
  }

  /** After a reported adoption the legacy secret admits exactly while the adopting slot names its record. */
  lemma AdoptedSecretAdmits(run: Run, i: nat, j: nat, o: nat)
    requires ValidRun(run) && i <= j < |run.states| && o in run.states[i].calls
    requires run.states[i].calls[o].kind.Adopt? && run.states[i].calls[o].pc.Done? && run.states[i].calls[o].pc.out.Ok?
    ensures var c, s := run.states[i].calls[o], run.states[j];
      && c.pc.out.view.Some? && c.pc.out.view.value.Issued?
      && (Named(s.kv, c.agent, c.pc.out.view.value.token)
          <==> Admits(s.kv, s.order, Token(c.legacy.hash, c.legacy.prefix), c.agent))
  {
    AdoptionReported(run, i, j, o);
    RunInv(run, j);
    var c, s := run.states[i].calls[o], run.states[j];
    var t := c.pc.out.view.value.token;
    if Named(s.kv, c.agent, t) { AdoptedAdmits(s, t, c.legacy, c.agent); }
  }

  /* ---- Authorization --------------------------------------------------------------------- */

  lemma AdmitsAtSlotRead(s: State, o: nat, c: Call, a: Agent)
    requires Shapes(s) && Slots(s) && Backing(s) && c.kind.Authorize? && AuthorizeStands(s, o, c) && !c.pc.Done?
    requires Authorized(c, s.kv, s.order).call.pc == Done(Admitted(a))
    ensures c.pc.USlot? && Admits(s.kv, s.order, c.tok, a)
  {
    assert c.pc.USlot?;
    NamedWon(s, a);
    FirmAdmits(s, c.tok, c.pc.rec);
  }

  /** An authorization admits only if, at the instant it reads the slot, lookup, record and slot all agree. */
  lemma AuthorizeAdmitsNow(run: Run, i: nat, o: nat, a: Agent)
    requires ValidRun(run) && i < |run.events| && run.events[i].Step? && run.events[i].op == o
    requires o in run.states[i].calls && run.states[i].calls[o].kind.Authorize?
    requires o in run.states[i + 1].calls && run.states[i + 1].calls[o].pc == Done(Admitted(a))
    ensures run.states[i].calls[o].pc.USlot?
    ensures Admits(run.states[i].kv, run.states[i].order, run.states[i].calls[o].tok, a)
  {
    RunInv(run, i);
    Standing(run.states[i], o);
    AdmitsNow(run.states[i], o, run.events[i].f, a);
  }

  lemma AdmitsNow(s: State, o: nat, f: Fresh, a: Agent)
    requires Shapes(s) && Slots(s) && Backing(s) && Enabled(s, Step(o, f))
    requires s.calls[o].kind.Authorize? && AuthorizeStands(s, o, s.calls[o])
    requires Apply(s, Step(o, f)).calls[o].pc == Done(Admitted(a))
    ensures s.calls[o].pc.USlot? && Admits(s.kv, s.order, s.calls[o].tok, a)
  {
    AuthMoves(s, o, f);
    AuthGoes(Observe(s.calls[o], s.kv, s.order), s.kv, s.order);
    ObservedStands(s, o, s.calls[o]);
    AdmitsAtSlotRead(s, o, Observe(s.calls[o], s.kv, s.order), a);
  }

  lemma AuthMoves(s: State, o: nat, f: Fresh)
    requires Enabled(s, Step(o, f)) && s.calls[o].kind.Authorize?
    ensures o in Apply(s, Step(o, f)).calls
    ensures Apply(s, Step(o, f)).calls[o] == Moved(Authorized(Observe(s.calls[o], s.kv, s.order), s.kv, s.order))
  {
    StepOf(s.calls[o], s.kv, s.order, f);
    MoverAt(s, Step(o, f));
  }

  /** Where a call is after the event that moved it. */
  lemma MoverAt(s: State, e: Event)
    requires Enabled(s, e) && Moves(e)
    ensures Mover(e) in Apply(s, e).calls && Apply(s, e).calls[Mover(e)] == Moved(MoveOf(s, e))
  {
    assert Apply(s, e) == Place(Before(s, e), Mover(e), MoveOf(s, e), e.f);
  }

  /** An authorization only reads. */
  lemma AuthGoes(c: Call, kv: Kv, order: seq<Agent>)
    ensures Authorized(c, kv, order).Go? && Authorized(c, kv, order).call.denied == c.denied
  {
  }

  lemma NotAdmitting(kv: Kv, order: seq<Agent>, tok: Token)
    ensures Admitting(kv, order, tok) <==> AdmitsAny(kv, order, tok)
  {
    if Admitting(kv, order, tok) { assert Admits(kv, order, tok, kv.records[kv.lookups[tok.digest]].agent.value); }
  }

  lemma DeniedStep(s: State, e: Event, o: nat)
    requires Enabled(s, e) && o in s.calls && s.calls[o].kind.Authorize?
    requires e.Reply? ==> e.req.op != o
    requires o in Apply(s, e).calls && Apply(s, e).calls[o].denied
    ensures s.calls[o].denied || (e.Step? && e.op == o && !AdmitsAny(s.kv, s.order, s.calls[o].tok))
  {
    if !Moves(e) || Mover(e) != o {
      OthersStay(s, e, o);
    } else if e.Step? {
      AuthMoves(s, o, e.f);
      AuthGoes(Observe(s.calls[o], s.kv, s.order), s.kv, s.order);
      NotAdmitting(s.kv, s.order, s.calls[o].tok);
    } else {
      MoverAt(s, e);
    }
  }

  /** An authorization waits for no write. */
  lemma NeverWaits(s: State, o: nat)
    requires o in s.calls && s.calls[o].kind.Authorize? && Stands(s, o, s.calls[o])
    ensures !Waiting(s.calls[o].pc)
  {
  }

  lemma OthersStay(s: State, e: Event, o: nat)
    requires Enabled(s, e) && o in s.calls && (Moves(e) ==> Mover(e) != o)
    ensures var s' := Apply(s, e); o in s'.calls && s'.calls[o] == s.calls[o].(gone := s'.calls[o].gone)
  {
    if Moves(e) { assert Apply(s, e) == Place(Before(s, e), Mover(e), MoveOf(s, e), e.f); }
  }

  lemma MoverSteady(s: State, o: nat, m: Move, f: Fresh)
    requires o in s.calls && Legal(s, o, m, f)
    ensures o in Place(s, o, m, f).calls && Place(s, o, m, f).calls[o].kind == s.calls[o].kind
    ensures Place(s, o, m, f).calls[o].tok == s.calls[o].tok
  {
  }

  lemma KindStays(s: State, e: Event, o: nat)
    requires Inv(s) && Enabled(s, e) && o in s.calls
    ensures o in Apply(s, e).calls && Apply(s, e).calls[o].kind == s.calls[o].kind
    ensures Apply(s, e).calls[o].tok == s.calls[o].tok
  {
    if Moves(e) && Mover(e) == o {
      EventLegal(s, e);
      MoverSteady(Before(s, e), o, MoveOf(s, e), e.f);
    } else {
      OthersStay(s, e, o);
    }
  }

  lemma BornUndenied(s: State, e: Event, o: nat)
    requires Enabled(s, e) && o !in s.calls && o in Apply(s, e).calls
    ensures !Apply(s, e).calls[o].denied
  {
  }

  /** The refused token did not admit at this read of the call, or was already known not to. */
  lemma DenialSource(s: State, e: Event, o: nat)
    requires Inv(s) && Enabled(s, e) && o in Apply(s, e).calls
    requires Apply(s, e).calls[o].denied && Apply(s, e).calls[o].kind.Authorize?
    ensures o in s.calls && s.calls[o].kind.Authorize? && s.calls[o].tok == Apply(s, e).calls[o].tok
    ensures s.calls[o].denied || (e.Step? && e.op == o && !AdmitsAny(s.kv, s.order, s.calls[o].tok))
  {
    if o in s.calls {
      KindStays(s, e, o);
      Standing(s, o);
      NeverWaits(s, o);
      DeniedStep(s, e, o);
    } else {
      BornUndenied(s, e, o);
    }
  }

  /** Step `j` of the run is a read of the call itself. */
  predicate ReadAt(run: Run, j: nat, o: nat) {
    j < |run.events| && j < |run.states| && o in run.states[j].calls && run.events[j].Step? && run.events[j].op == o
  }

  lemma {:induction false} DeniedHappened(run: Run, i: nat, o: nat)
    requires ValidRun(run) && i < |run.states| && o in run.states[i].calls
    requires run.states[i].calls[o].denied && run.states[i].calls[o].kind.Authorize?
    ensures exists j :: 0 <= j < i && ReadAt(run, j, o)
                        && !AdmitsAny(run.states[j].kv, run.states[j].order, run.states[i].calls[o].tok)
  {
    if i > 0 {
      DeniedAt(run, i - 1, o);
      if run.states[i - 1].calls[o].denied { DeniedHappened(run, i - 1, o); }
    }
  }

  lemma DeniedAt(run: Run, i: nat, o: nat)
    requires ValidRun(run) && i < |run.events| && o in run.states[i + 1].calls
    requires run.states[i + 1].calls[o].denied && run.states[i + 1].calls[o].kind.Authorize?
    ensures o in run.states[i].calls && run.states[i].calls[o].kind.Authorize?
    ensures run.states[i].calls[o].tok == run.states[i + 1].calls[o].tok
    ensures run.states[i].calls[o].denied
            || (ReadAt(run, i, o) && !AdmitsAny(run.states[i].kv, run.states[i].order, run.states[i].calls[o].tok))
  {
    RunInv(run, i);
    DenialSource(run.states[i], run.events[i], o);
  }

  /** A refusal is linearizable: at some read of the call itself the token did not admit. */
  lemma AuthorizeRefusedSometime(run: Run, i: nat, o: nat)
    requires ValidRun(run) && i < |run.states| && o in run.states[i].calls
    requires run.states[i].calls[o].kind.Authorize? && run.states[i].calls[o].pc == Done(Refused)
    ensures exists j :: 0 <= j < i && ReadAt(run, j, o)
                        && !AdmitsAny(run.states[j].kv, run.states[j].order, run.states[i].calls[o].tok)
  {
    DoneHonest(run, i, i, o);
    DeniedHappened(run, i, o);
  }

  /**
   The lookup of a call's token was read as a legacy pointer, an adoption has
   moved it since, and the adopting agent's slot still names the new record.
   */
  predicate Overtaken(s: State, c: Call) {
    && c.pc.URec? && c.tok.digest in s.base.lookups && s.base.lookups[c.tok.digest] == c.pc.id
    && c.tok.digest in s.kv.lookups && s.kv.lookups[c.tok.digest] != c.pc.id
    && var t := s.kv.lookups[c.tok.digest];
    && Minted(s, t) && s.calls[s.owner[t]].kind.Adopt? && s.calls[s.owner[t]].mine.prefix == c.tok.prefix
    && Named(s.kv, s.calls[s.owner[t]].agent, t)
  }

  /** Then the token admits after all. */
  lemma OvertakenAdmits(s: State, c: Call)
    requires Shapes(s) && Slots(s) && Lookups(s) && Backing(s) && Overtaken(s, c)
    ensures AdmitsAny(s.kv, s.order, c.tok)
  {
    var t := s.kv.lookups[c.tok.digest];
    var p := s.owner[t];
    NamedWonBy(s, s.calls[p].agent, t);
    Shape(s, p);
    LookupSeen(s, c.tok.digest);
    assert Backed(s, s.calls[p]);
    assert Admits(s.kv, s.order, c.tok, s.calls[p].agent);
  }

  lemma RefusesAtLookup(s: State, c: Call)
    requires c.kind.Authorize? && c.pc.ULook? && Authorized(c, s.kv, s.order).call.pc == Done(Refused)
    ensures !AdmitsAny(s.kv, s.order, c.tok)
  {
  }

  /** The lookup was read, and the record it named is not the one the lookup names now. */
  lemma RefusesAtRecord(s: State, o: nat, c: Call)
    requires Base(s) && Shapes(s) && Records(s) && Slots(s) && Lookups(s)
    requires c.kind.Authorize? && c.pc.URec? && AuthorizeStands(s, o, c) && AdmitsAny(s.kv, s.order, c.tok)
    requires Authorized(c, s.kv, s.order).call.pc == Done(Refused)
    ensures Overtaken(s, c)
  {
    var a :| Admits(s.kv, s.order, c.tok, a);
    AdmittingIsFirm(s, c.tok);
    var t := s.kv.lookups[c.tok.digest];
    assert t != c.pc.id;
    NamedWon(s, a);
    Shape(s, s.owner[t]);
    MovedByAdoption(s, c.tok.digest, c.pc.id, t);
  }

  /** A digest seen to name one record and later another was moved from a legacy record by an adoption. */
  lemma MovedByAdoption(s: State, d: Digest, id: Id, t: Id)
    requires Base(s) && Shapes(s) && Seen(s, d, id) && Minted(s, t) && s.calls[s.owner[t]].mine.hash == d
    requires d in s.kv.lookups && s.kv.lookups[d] == t && t != id
    ensures d in s.base.lookups && s.base.lookups[d] == id && s.calls[s.owner[t]].kind.Adopt?
  {
    Shape(s, s.owner[t]);
    if Minted(s, id) { Shape(s, s.owner[id]); }
  }

  lemma RefusesAtSlot(s: State, o: nat, c: Call)
    requires Base(s) && Shapes(s) && Records(s) && Slots(s) && Lookups(s)
    requires c.kind.Authorize? && c.pc.USlot? && AuthorizeStands(s, o, c)
    requires Authorized(c, s.kv, s.order).call.pc == Done(Refused)
    ensures !AdmitsAny(s.kv, s.order, c.tok)
  {
    forall a ensures !Admits(s.kv, s.order, c.tok, a) {
      if Admits(s.kv, s.order, c.tok, a) {
        AdmittingIsFirm(s, c.tok);
        var t := s.kv.lookups[c.tok.digest];
        if t != c.pc.rec.id { MovedByAdoption(s, c.tok.digest, c.pc.rec.id, t); }
        assert false;
      }
    }
  }

  lemma RefusesAtRead(s: State, o: nat, c: Call)
    requires Base(s) && Shapes(s) && Records(s) && Slots(s) && Lookups(s)
    requires c.kind.Authorize? && AuthorizeStands(s, o, c) && !c.pc.Done?
    requires Authorized(c, s.kv, s.order).call.pc == Done(Refused)
    requires AdmitsAny(s.kv, s.order, c.tok)
    ensures Overtaken(s, c)
  {
    if c.pc.ULook? { RefusesAtLookup(s, c); } else if c.pc.URec? { RefusesAtRecord(s, o, c); } else { RefusesAtSlot(s, o, c); }
  }

  /**
   A refusal is correct at the very read that decides it, except exactly when
   an adoption moved the lookup between the lookup read and the record read
   and its record is still named.
   */
  lemma AuthorizeRefusesNow(run: Run, i: nat, o: nat)
    requires ValidRun(run) && i < |run.events| && run.events[i].Step? && run.events[i].op == o
    requires o in run.states[i].calls && run.states[i].calls[o].kind.Authorize?
    requires o in run.states[i + 1].calls && run.states[i + 1].calls[o].pc == Done(Refused)
    ensures AdmitsAny(run.states[i].kv, run.states[i].order, run.states[i].calls[o].tok)
            <==> Overtaken(run.states[i], run.states[i].calls[o])
  {
    RunInv(run, i);
    Standing(run.states[i], o);
    RefusesNow(run.states[i], o, run.events[i].f);
  }

  lemma RefusedRead(s: State, o: nat, c: Call)
    requires Core(s) && c.kind.Authorize? && AuthorizeStands(s, o, c) && !c.pc.Done?
    requires Authorized(c, s.kv, s.order).call.pc == Done(Refused)
    ensures AdmitsAny(s.kv, s.order, c.tok) <==> Overtaken(s, c)
  {
    if AdmitsAny(s.kv, s.order, c.tok) { RefusesAtRead(s, o, c); }
    if Overtaken(s, c) { OvertakenAdmits(s, c); }
  }

  lemma ObservedSame(s: State, c: Call)
    ensures var b := Observe(c, s.kv, s.order); b.kind == c.kind && b.tok == c.tok && (Overtaken(s, b) <==> Overtaken(s, c))
  {
  }

  lemma RefusesNow(s: State, o: nat, f: Fresh)
    requires Core(s) && Enabled(s, Step(o, f)) && s.calls[o].kind.Authorize? && AuthorizeStands(s, o, s.calls[o])
    requires o in Apply(s, Step(o, f)).calls && Apply(s, Step(o, f)).calls[o].pc == Done(Refused)
    ensures AdmitsAny(s.kv, s.order, s.calls[o].tok) <==> Overtaken(s, s.calls[o])
  {
    var b := Observe(s.calls[o], s.kv, s.order);
    AuthMoves(s, o, f);
    AuthGoes(b, s.kv, s.order);
    ObservedStands(s, o, s.calls[o]);
    ObservedSame(s, s.calls[o]);
    RefusedRead(s, o, b);
  }
}
