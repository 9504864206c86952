/** Moving one call keeps the invariant, provided the move is legal for where the call stands. */
module TokenMoves {
  import opened Options
  import opened TokenStore
  import opened TokenProtocol
  import opened TokenInvariant

  function Moved(m: Move): Call {
    match m case Go(c) => c case Send(c, _) => c.(sent := c.sent + 1)
  }

  /** What no step of a call changes. */
  predicate Same(c: Call, d: Call) {
    var holds :=
      && d.kind == c.kind && d.agent == c.agent && d.demand == c.demand && d.tok == c.tok && c.sent <= d.sent
      && d.gone == c.gone && (d.minted ==> c.minted || d.pc.RProbe? || d.pc.ARecW?)
      && (c.minted ==> d.minted && d.mine == c.mine && d.raw == c.raw && d.legacy == c.legacy)
      && (c.cast.Some? ==> d.cast == c.cast);
    holds
  }

  predicate Undoing(pc: Pc) { pc.URead? || pc.USwapW? || pc.Done? }

  predicate Steady(c: Call, d: Call) {
    var holds :=
      match c.kind
      case Revoke => Same(c, d) && (!c.pc.VRead? ==> d.raw == c.raw && d.rid == c.rid && !d.pc.VRead?)
      case Rotate => Same(c, d) && (Undoing(c.pc) ==> d.rid == c.rid && Undoing(d.pc))
      case _ => Same(c, d);
    holds
  }

  /** What the moved call proposes rests on what is stored, and what it sent is its own to send. */
  ghost predicate Safe(s: State, o: nat, m: Move, f: Fresh)
    requires o in s.calls
  {
    var s', c, d := Place(s, o, m, f), s.calls[o], Moved(m);
    var safe :=
      && (Live(s', o, d) ==> Backed(s', d))
      && !(Flying(s', o, d) && Won(s', o, d))
      && (m.Send? ==>
            && m.call.sent == c.sent && Justified(s', Req(o, c.sent, m.w))
            && (m.w.DropRecord? || m.w.DropLookup? ==> !Live(s', o, d)))
      && (Live(s', o, d) && !Live(s, o, c) ==> !Dropping(s, o));
    safe
  }

  /** The moved call is well formed, and what it sent is justified and harmless. */
  ghost predicate Legal(s: State, o: nat, m: Move, f: Fresh)
    requires o in s.calls
  {
    var s', d := Place(s, o, m, f), Moved(m);
    var legal := Steady(s.calls[o], d) && Fixed(s', o, d) && Stands(s', o, d) && Safe(s, o, m, f);
    legal
  }

  lemma KeepsMinted(s: State, o: nat, m: Move, f: Fresh)
    requires o in s.calls && Unused(s, f) && Steady(s.calls[o], Moved(m))
    ensures var s' := Place(s, o, m, f);
      && (forall t :: t in s.owner ==> t in s'.owner && s'.owner[t] == s.owner[t])
      && (forall t :: Minted(s, t) ==> Minted(s', t) && s'.calls[s.owner[t]].mine == s.calls[s.owner[t]].mine
                                       && s'.calls[s.owner[t]].kind == s.calls[s.owner[t]].kind
                                       && s'.calls[s.owner[t]].agent == s.calls[s.owner[t]].agent
                                       && Next(s'.calls[s.owner[t]]) == Next(s.calls[s.owner[t]]))
      && (Won(s, o, s.calls[o]) ==> Won(s', o, Moved(m)))
  {
  }

  lemma KeepsWon(s: State, o: nat, m: Move, f: Fresh)
    requires o in s.calls && Unused(s, f) && Steady(s.calls[o], Moved(m))
    ensures var s' := Place(s, o, m, f);
      && (forall t :: WonBy(s, t) ==> WonBy(s', t))
      && (forall t, l :: Adopted(s, t, l) ==> Adopted(s', t, l))
      && (forall l :: Tracked(s, l) ==> Tracked(s', l))
  {
    KeepsMinted(s, o, m, f);
  }

  lemma Keeps(s: State, o: nat, m: Move, f: Fresh)
    requires o in s.calls && Unused(s, f) && Steady(s.calls[o], Moved(m))
    ensures var s' := Place(s, o, m, f);
      && (forall t :: t in s.owner ==> t in s'.owner && s'.owner[t] == s.owner[t])
      && (forall t :: Minted(s, t) ==> Minted(s', t) && s'.calls[s.owner[t]].mine == s.calls[s.owner[t]].mine)
      && (forall t :: WonBy(s, t) ==> WonBy(s', t))
      && (forall t, l :: Adopted(s, t, l) ==> Adopted(s', t, l))
      && (forall l :: Tracked(s, l) ==> Tracked(s', l))
      && (Won(s, o, s.calls[o]) ==> Won(s', o, Moved(m)))
  {
    KeepsMinted(s, o, m, f);
    KeepsWon(s, o, m, f);
  }

  lemma RevokeOfKept(s: State, o: nat, m: Move, f: Fresh, p: nat, a: Agent, was: Option<Slot>, rid: Id)
    requires Shapes(s) && o in s.calls && Unused(s, f) && Steady(s.calls[o], Moved(m))
    requires p in s.calls && RevokeOf(s, p, s.calls[p], a, was, rid)
    ensures var s' := Place(s, o, m, f); RevokeOf(s', p, s'.calls[p], a, was, rid)
  {
  }

  lemma JustifiedKept(s: State, o: nat, m: Move, f: Fresh, r: Req)
    requires Shapes(s) && o in s.calls && Unused(s, f) && Steady(s.calls[o], Moved(m)) && Justified(s, r)
    ensures Justified(Place(s, o, m, f), r)
  {
    if r.w.SwapSlot? && r.w.becomes.Revoked? {
      RevokeOfKept(s, o, m, f, r.op, r.w.agent, r.w.was, r.w.becomes.revocation);
    } else {
      KeepsWon(s, o, m, f);
    }
  }

  lemma PlaceFlight(s: State, o: nat, m: Move, f: Fresh)
    requires Shapes(s) && Flight(s) && o in s.calls && Unused(s, f) && Steady(s.calls[o], Moved(m))
    requires m.Send? ==> m.call.sent == s.calls[o].sent && Justified(Place(s, o, m, f), Req(o, m.call.sent, m.w))
    ensures Flight(Place(s, o, m, f))
  {
    forall r | r in s.flight ensures Justified(Place(s, o, m, f), r) { JustifiedKept(s, o, m, f, r); }
  }

  lemma LoggedKept(s: State, o: nat, m: Move, f: Fresh, k: Commit)
    requires Shapes(s) && o in s.calls && Unused(s, f) && Steady(s.calls[o], Moved(m)) && Logged(s, k)
    ensures Logged(Place(s, o, m, f), k)
  {
    KeepsWon(s, o, m, f);
    if k.becomes.Revoked? { RevokeOfKept(s, o, m, f, k.op, k.agent, k.was, k.becomes.revocation); }
  }

  lemma PlaceLog(s: State, o: nat, m: Move, f: Fresh)
    requires Shapes(s) && Flight(s) && Log(s) && o in s.calls && Unused(s, f) && Steady(s.calls[o], Moved(m))
    requires var s', d := Place(s, o, m, f), Moved(m); !(Flying(s', o, d) && Won(s', o, d))
    requires m.Send? ==> m.call.sent == s.calls[o].sent
    ensures Log(Place(s, o, m, f))
  {
    var s' := Place(s, o, m, f);
    forall k | k in s.log ensures Logged(s', k) { LoggedKept(s, o, m, f, k); }
    forall p | p in s'.calls ensures !(Flying(s', p, s'.calls[p]) && Won(s', p, s'.calls[p])) {
      if p != o { OtherFlying(s, o, m, f, p); }
    }
  }

  lemma OtherFlying(s: State, o: nat, m: Move, f: Fresh, p: nat)
    requires o in s.calls && p in s.calls && p != o
    ensures var s', c := Place(s, o, m, f), s.calls[p];
      s'.calls[p] == c && (Flying(s', p, c) <==> Flying(s, p, c)) && (Won(s', p, c) <==> Won(s, p, c))
  {
  }

  lemma PlaceBase(s: State, o: nat, m: Move, f: Fresh)
    requires Base(s) && o in s.calls && Unused(s, f)
    ensures Base(Place(s, o, m, f))
  {
  }

  /** What a call is does not depend on the moves of other calls. */
  lemma FixedKept(s: State, o: nat, m: Move, f: Fresh, p: nat)
    requires o in s.calls && Unused(s, f) && p in s.calls && p != o && Fixed(s, p, s.calls[p])
    ensures var s' := Place(s, o, m, f); p in s'.calls && Fixed(s', p, s'.calls[p])
  {
  }

  lemma PlaceShapes(s: State, o: nat, m: Move, f: Fresh)
    requires Shapes(s) && o in s.calls && Unused(s, f) && Fixed(Place(s, o, m, f), o, Moved(m))
    ensures Shapes(Place(s, o, m, f))
  {
    var s' := Place(s, o, m, f);
    forall p | p in s'.calls ensures Fixed(s', p, s'.calls[p]) {
      if p != o { FixedKept(s, o, m, f, p); }
    }
  }

  lemma PlaceStore(s: State, o: nat, m: Move, f: Fresh)
    requires Records(s) && Lookups(s) && o in s.calls && Unused(s, f) && Steady(s.calls[o], Moved(m))
    ensures var s' := Place(s, o, m, f); Records(s') && Lookups(s')
  {
    KeepsMinted(s, o, m, f);
    KeepsWon(s, o, m, f);
  }

  lemma PlaceSlots(s: State, o: nat, m: Move, f: Fresh)
    requires Shapes(s) && Slots(s) && o in s.calls && Unused(s, f) && Steady(s.calls[o], Moved(m))
    ensures Slots(Place(s, o, m, f))
  {
    var s' := Place(s, o, m, f);
    KeepsMinted(s, o, m, f);
    KeepsWon(s, o, m, f);
    forall a | a in s.kv.slots && s.kv.slots[a].Revoked?
      ensures exists was :: Commit(a, was, s.kv.slots[a], s'.owner[s.kv.slots[a].revocation]) in s'.log
    {
      var was :| Commit(a, was, s.kv.slots[a], s.owner[s.kv.slots[a].revocation]) in s.log;
      assert Commit(a, was, s.kv.slots[a], s'.owner[s.kv.slots[a].revocation]) in s'.log;
    }
  }

  lemma PlaceBacked(s: State, o: nat, m: Move, f: Fresh, p: nat)
    requires Backing(s) && o in s.calls && Unused(s, f) && Steady(s.calls[o], Moved(m))
    requires p in s.calls && p != o && Live(Place(s, o, m, f), p, s.calls[p])
    ensures Backed(Place(s, o, m, f), s.calls[p])
  {
    OtherFlying(s, o, m, f, p);
    assert Backed(s, s.calls[p]);
    KeepsWon(s, o, m, f);
  }

  /** A removal that was in flight before the move still belongs to a call that proposes nothing. */
  lemma PlaceDropping(s: State, o: nat, m: Move, f: Fresh, r: Req)
    requires Flight(s) && Backing(s) && o in s.calls && r in s.flight && (r.w.DropRecord? || r.w.DropLookup?)
    requires var s', d := Place(s, o, m, f), Moved(m); Live(s', o, d) && !Live(s, o, s.calls[o]) ==> !Dropping(s, o)
    ensures var s' := Place(s, o, m, f); r.op in s'.calls && !Live(s', r.op, s'.calls[r.op])
  {
    assert Justified(s, r);
    if r.op == o { assert Dropping(s, o); } else { OtherFlying(s, o, m, f, r.op); }
  }

  lemma PlaceBacking(s: State, o: nat, m: Move, f: Fresh)
    requires Flight(s) && Backing(s) && o in s.calls && Unused(s, f) && Steady(s.calls[o], Moved(m)) && Safe(s, o, m, f)
    ensures Backing(Place(s, o, m, f))
  {
    var s' := Place(s, o, m, f);
    forall p | p in s'.calls && Live(s', p, s'.calls[p]) ensures Backed(s', s'.calls[p]) {
      if p != o { PlaceBacked(s, o, m, f, p); }
    }
    forall r | r in s'.flight && (r.w.DropRecord? || r.w.DropLookup?) && r.op in s'.calls
      ensures !Live(s', r.op, s'.calls[r.op])
    {
      if r in s.flight { PlaceDropping(s, o, m, f, r); }
    }
  }

  lemma PlaceForward(s: State, o: nat, m: Move, f: Fresh)
    requires Base(s) && o in s.calls && Unused(s, f) && Steady(s.calls[o], Moved(m))
    ensures Forward(s, Place(s, o, m, f))
  {
    var s' := Place(s, o, m, f);
    KeepsMinted(s, o, m, f);
    KeepsWon(s, o, m, f);
    forall d, id | Seen(s, d, id) ensures Seen(s', d, id) {
      assert Minted(s', id) ==> id !in s.base.lookups.Values;
    }
  }

  lemma PlaceUnmoved(s: State, o: nat, m: Move, f: Fresh, p: nat)
    requires o in s.calls && p in s.calls && p != o && Unused(s, f) && Steady(s.calls[o], Moved(m))
    ensures Unmoved(s, Place(s, o, m, f), p, s.calls[p])
  {
    KeepsMinted(s, o, m, f);
    KeepsWon(s, o, m, f);
    OtherFlying(s, o, m, f, p);
  }

  lemma PlaceCore(s: State, o: nat, m: Move, f: Fresh)
    requires Core(s) && o in s.calls && Unused(s, f) && Steady(s.calls[o], Moved(m)) && Safe(s, o, m, f)
    requires Fixed(Place(s, o, m, f), o, Moved(m))
    ensures Core(Place(s, o, m, f))
  {
    PlaceBase(s, o, m, f);
    PlaceShapes(s, o, m, f);
    PlaceStore(s, o, m, f);
    PlaceSlots(s, o, m, f);
    PlaceFlight(s, o, m, f);
    PlaceLog(s, o, m, f);
    PlaceBacking(s, o, m, f);
  }

  lemma PlacePositions(s: State, o: nat, m: Move, f: Fresh)
    requires Base(s) && Shapes(s) && Positions(s) && o in s.calls && Unused(s, f) && Steady(s.calls[o], Moved(m))
    requires Stands(Place(s, o, m, f), o, Moved(m))
    ensures Positions(Place(s, o, m, f))
  {
    var s' := Place(s, o, m, f);
    PlaceForward(s, o, m, f);
    forall p | p in s'.calls ensures Stands(s', p, s'.calls[p]) {
      if p != o {
        PlaceUnmoved(s, o, m, f, p);
        Shape(s, p);
        StandsOnward(s, s', p, s.calls[p]);
      }
    }
  }

  lemma PlaceInv(s: State, o: nat, m: Move, f: Fresh)
    requires Inv(s) && o in s.calls && Unused(s, f) && Legal(s, o, m, f)
    ensures Inv(Place(s, o, m, f))
  {
    PlaceCore(s, o, m, f);
    PlacePositions(s, o, m, f);
  }
}
