/**
 What every step of the token protocol keeps. The invariant is a conjunction of
 small families; each is preserved by landing a write and by moving one call,
 and every run starts inside it. A long conjunction is wrapped as `var holds := …;
 holds`, so that a lemma passes the predicate on as one fact; it means the
 conjunction.
 */
module TokenInvariant {
  import opened Options
  import opened TokenStore
  import opened TokenProtocol

  /* ---- Facts about one call ------------------------------------------------------------ */

  predicate Flying(s: State, o: nat, c: Call) {
    c.minted && c.cast.Some? && Req(o, c.cast.value, Proposal(c)) in s.flight
  }

  predicate Won(s: State, o: nat, c: Call) {
    c.minted && Win(c, o) in s.log
  }

  /** The call's issuing swap has taken effect or may still do so. */
  predicate Live(s: State, o: nat, c: Call) {
    Flying(s, o, c) || Won(s, o, c)
  }

  /** A removal of the call's own record or lookup is on its way. */
  ghost predicate Dropping(s: State, o: nat) {
    exists r :: r in s.flight && r.op == o && (r.w.DropRecord? || r.w.DropLookup?)
  }

  predicate Claimed(s: State, l: Record, a: Agent) {
    l.id in s.kv.claims && s.kv.claims[l.id] == a
  }

  predicate Minted(s: State, t: Id) {
    t in s.owner && s.owner[t] in s.calls && s.calls[s.owner[t]].minted && s.calls[s.owner[t]].mine.id == t
  }

  predicate MintedFor(s: State, t: Id, a: Agent) {
    Minted(s, t) && s.calls[s.owner[t]].mine.agent == Some(a)
  }

  /** The record `t` was committed to its agent's slot. */
  predicate WonBy(s: State, t: Id) {
    Minted(s, t) && Won(s, s.owner[t], s.calls[s.owner[t]])
  }

  /** The record `t` is the committed adoption of the legacy record `l`. */
  predicate Adopted(s: State, t: Id, l: Record) {
    WonBy(s, t) && s.calls[s.owner[t]].kind.Adopt? && s.calls[s.owner[t]].legacy == l
  }

  /** The lookup of a legacy digest still names the legacy record, or its one adoption. */
  predicate Tracked(s: State, l: Record) {
    l.hash in s.kv.lookups && (s.kv.lookups[l.hash] == l.id || Adopted(s, s.kv.lookups[l.hash], l))
  }

  predicate Legacy(s: State, l: Record) {
    l.id in s.base.records && s.base.records[l.id] == l
  }

  /** The stored facts a live proposal rests on. */
  predicate Backed(s: State, c: Call) {
    var holds :=
      && c.mine.id in s.kv.records && s.kv.records[c.mine.id] == c.mine
      && (c.kind.Rotate? ==> c.mine.hash in s.kv.lookups && s.kv.lookups[c.mine.hash] == c.mine.id)
      && (c.kind.Adopt? ==> Claimed(s, c.legacy, c.agent) && Tracked(s, c.legacy));
    holds
  }

  /** The record a call minted is its own, and it proposes it at most once. */
  predicate Owns(s: State, o: nat, c: Call) {
    && (c.cast.Some? ==> c.minted && c.cast.value < c.sent)
    && (c.minted ==> c.mine.id in s.owner && s.owner[c.mine.id] == o
                     && c.mine.agent == Some(c.agent) && !c.mine.human && !c.mine.retired)
  }

  /** What a call of each kind can be, wherever it stands. */
  predicate Fixed(s: State, o: nat, c: Call) {
    var holds :=
      match c.kind
      case Rotate =>
        && c.agent in s.order && Owns(s, o, c)
        && (c.minted ==> c.mine.hash in s.minter && s.minter[c.mine.hash] == o)
      case Adopt =>
        && c.agent in s.order && Owns(s, o, c)
        && (c.minted ==> c.mine.hash == c.legacy.hash && c.mine.prefix == c.legacy.prefix
                         && c.raw == None && Legacy(s, c.legacy))
      case Revoke => c.agent in s.order && c.cast == None && !c.minted
      case Authorize => c.cast == None && !c.minted;
    holds
  }

  /** The last write the call issued, if still in flight, is `w`. */
  ghost predicate Last(s: State, o: nat, c: Call, w: Write) {
    c.sent > 0 && forall r :: r in s.flight && r.op == o && r.n + 1 == c.sent ==> r.w == w
  }

  /** The last write the call issued, if still in flight, stores its revocation from whatever slot it read. */
  ghost predicate LastRevokes(s: State, o: nat, c: Call) {
    c.sent > 0 && forall r :: r in s.flight && r.op == o && r.n + 1 == c.sent ==>
      r.w.SwapSlot? && r.w.agent == c.agent && r.w.becomes == Revoked(c.at, c.rid)
  }

  predicate Revoking(s: State, o: nat, c: Call) {
    !c.minted && c.raw.Some? && c.raw.value.Issued? && c.rid in s.owner && s.owner[c.rid] == o
  }

  ghost predicate Building(s: State, o: nat, c: Call) {
    c.minted && c.cast == None && !Dropping(s, o)
  }

  predicate Dead(s: State, o: nat, c: Call) {
    c.minted && !Live(s, o, c)
  }

  /** What a finished or finishing call may report, given what it did. */
  predicate Honest(s: State, o: nat, c: Call, out: Outcome) {
    var holds :=
      match c.kind
      case Rotate =>
        (match out
         case Ok(v) => Won(s, o, c) && v == Some(Next(c))
         case Aborted => !Live(s, o, c) || (Won(s, o, c) && !Named(s.kv, c.agent, c.mine.id))
         case Unknown => true
         case Errored => true
         case _ => !Live(s, o, c))
      case Revoke =>
        !c.minted &&
        (match out
         case Ok(v) =>
           && (v.None? || v.value.Revoked?)
           && (c.raw.Some? && !c.demand.Unconditional? ==> v.Some? && Commit(c.agent, c.raw, v.value, o) in s.log)
         case Aborted => c.sent == 0
         case _ => true)
      case Adopt =>
        (match out
         case Ok(v) => v.Some? && v.value.Issued? && Adopted(s, v.value.token, c.legacy) && MintedFor(s, v.value.token, c.agent)
                       && c.legacy.hash in s.kv.lookups && s.kv.lookups[c.legacy.hash] == v.value.token
         case Unknown => true
         case Errored => true
         case _ => !Live(s, o, c))
      case Authorize =>
        !c.minted && (out.Refused? ==> c.denied);
    holds
  }

  /** The id a lookup read returned, and what it still says about the store. */
  predicate Seen(s: State, d: Digest, id: Id) {
    && ((d in s.base.lookups && s.base.lookups[d] == id) || (Minted(s, id) && s.calls[s.owner[id]].mine.hash == d))
    && (Minted(s, id) && s.calls[s.owner[id]].kind.Adopt? ==> d in s.kv.lookups && s.kv.lookups[d] == id)
  }

  /** The token admitted when its lookup was read, so its record and lookup cannot go away. */
  predicate Firm(s: State, tok: Token, id: Id) {
    WonBy(s, id) && Presentable(s.calls[s.owner[id]].mine, id, tok, s.order)
  }

  ghost predicate RotateStands(s: State, o: nat, c: Call) {
    var holds :=
      match c.pc
      case RRead => !c.minted && c.cast == None && c.sent == 0
      case RProbe => Building(s, o, c) && c.sent == 0
      case RRecW => Building(s, o, c) && Last(s, o, c, PutRecord(c.mine))
      case RLkW => Building(s, o, c) && Last(s, o, c, PutLookup(c.mine.hash, c.mine.id))
                   && c.mine.id in s.kv.records && s.kv.records[c.mine.id] == c.mine
      case RCommitW => c.minted && c.cast == Some(c.sent - 1) && Last(s, o, c, Proposal(c))
      case RNames => c.minted && c.cast.Some?
      case URead => Won(s, o, c) && c.rid in s.owner && s.owner[c.rid] == o
      case USwapW => Won(s, o, c) && c.rid in s.owner && s.owner[c.rid] == o
                     && Last(s, o, c, SwapSlot(c.agent, Some(Next(c)), Revoked(c.at, c.rid)))
      case DropLkW(next) => Dead(s, o, c) && AfterDrop(c, next)
      case DropRecW(next) => Dead(s, o, c) && AfterDrop(c, next)
      case Done(out) => Honest(s, o, c, out)
      case _ => false;
    holds
  }

  ghost predicate RevokeStands(s: State, o: nat, c: Call) {
    var holds :=
      match c.pc
      case VRead => !c.minted && c.raw == None && c.sent == 0
      case VSwapW => Revoking(s, o, c) && Last(s, o, c, SwapSlot(c.agent, c.raw, Revoked(c.at, c.rid)))
      case VLoop => Revoking(s, o, c) && c.demand.Unconditional?
      case VLoopW => Revoking(s, o, c) && c.demand.Unconditional? && LastRevokes(s, o, c)
      case VSettle => Revoking(s, o, c) && !c.demand.Unconditional?
      case VSettleW => Revoking(s, o, c) && !c.demand.Unconditional?
                       && Last(s, o, c, SwapSlot(c.agent, c.raw, Revoked(c.at, c.rid)))
      case Done(out) => Honest(s, o, c, out)
      case _ => false;
    holds
  }

  ghost predicate AdoptStands(s: State, o: nat, c: Call) {
    var holds :=
      match c.pc
      case ARead => !c.minted && c.cast == None && !c.held
      case AClaim => Adopting(s, c)
      case ASlot => Adopting(s, c)
      case AResume(t, _) => Adopting(s, c) && WonBy(s, t) && MintedFor(s, t, c.agent)
      case ALookup => Adopting(s, c) && c.raw == None
      case ACarry(_) => Adopting(s, c) && c.raw == None && Tracked(s, c.legacy)
      case ACarryRec(_, _) => Adopting(s, c) && c.raw == None && Tracked(s, c.legacy)
      case AClaimW => Adopting(s, c) && c.raw == None && Tracked(s, c.legacy)
                      && Last(s, o, c, Claim(c.legacy.id, c.agent))
      case AReclaim => Adopting(s, c) && c.raw == None && Tracked(s, c.legacy)
      case ARecW => Building(s, o, c) && Last(s, o, c, PutRecord(c.mine))
                    && Claimed(s, c.legacy, c.agent) && Tracked(s, c.legacy)
      case ACommitW => c.minted && c.cast == Some(c.sent - 1) && Last(s, o, c, Proposal(c))
      case ANames => c.minted && c.cast.Some?
      case AReread => Dead(s, o, c)
      case AReRec(t, _) => Dead(s, o, c) && WonBy(s, t) && MintedFor(s, t, c.agent)
      case AComplete(t, _) => Completing(s, c, t)
      case AMoveW(t, _) => Completing(s, c, t) && Last(s, o, c, MoveLookup(c.legacy.hash, c.legacy.id, t))
      case DropRecW(next) => Dead(s, o, c) && AfterDrop(c, next)
      case Done(out) => Honest(s, o, c, out)
      case _ => false;
    holds
  }

  predicate AuthorizeStands(s: State, o: nat, c: Call) {
    var holds :=
      match c.pc
      case ULook => !c.minted
      case URec(id) => !c.minted && Seen(s, c.tok.digest, id) && (c.denied || Firm(s, c.tok, id))
      case USlot(rec) => !c.minted && Seen(s, c.tok.digest, rec.id) && (c.denied || Firm(s, c.tok, rec.id))
                         && Minted(s, rec.id) && s.calls[s.owner[rec.id]].mine == rec
                         && Presentable(rec, rec.id, c.tok, s.order)
      case Done(out) => Honest(s, o, c, out)
      case _ => false;
    holds
  }

  /** Where a call stands and what it may rely on there. In particular no adoption finds its lookup taken. */
  ghost predicate Stands(s: State, o: nat, c: Call) {
    var stands :=
      match c.kind
      case Rotate => RotateStands(s, o, c)
      case Revoke => RevokeStands(s, o, c)
      case Adopt => AdoptStands(s, o, c)
      case Authorize => AuthorizeStands(s, o, c);
    stands
  }

  predicate Adopting(s: State, c: Call) {
    c.kind.Adopt? && !c.minted && c.cast == None && Legacy(s, c.legacy) && c.legacy.agent == None
    && (c.held ==> Claimed(s, c.legacy, c.agent))
  }

  predicate Completing(s: State, c: Call, t: Id) {
    c.kind.Adopt? && Legacy(s, c.legacy) && Adopted(s, t, c.legacy) && MintedFor(s, t, c.agent)
  }

  predicate AfterDrop(c: Call, next: Pc) {
    next.Quit? || (next.AReread? && c.kind.Adopt?) ||
    (next.Done? && next.out in {Conflict, SlotChanged, Aborted, Errored})
  }

  /* ---- The invariant ------------------------------------------------------------------- */

  ghost predicate Base(s: State) {
    var holds :=
      && LegacyStore(s.base)
      && (forall id :: id in s.base.records ==> id in s.kv.records && s.kv.records[id] == s.base.records[id])
      && (forall t :: t in s.owner ==> t !in s.base.records && t !in s.base.lookups.Values && s.owner[t] in s.calls)
      && (forall d :: d in s.minter ==> d !in s.base.lookups)
      && (forall d, id :: d in s.minter && id in s.base.records ==> s.base.records[id].hash != d);
    holds
  }

  ghost predicate Shapes(s: State) {
    forall o :: o in s.calls ==> Fixed(s, o, s.calls[o])
  }

  lemma Shape(s: State, o: nat)
    requires Shapes(s) && o in s.calls
    ensures Fixed(s, o, s.calls[o])
  {
  }

  ghost predicate Positions(s: State) {
    forall o :: o in s.calls ==> Stands(s, o, s.calls[o])
  }

  predicate RevokeOf(s: State, o: nat, c: Call, a: Agent, was: Option<Slot>, rid: Id) {
    var holds :=
      && a == c.agent && was.Some? && was.value.Issued?
      && rid == c.rid && rid in s.owner && s.owner[rid] == o
      && (c.kind.Rotate? || c.kind.Revoke?)
      && (c.kind.Rotate? ==> Won(s, o, c) && was == Some(Next(c)) && (c.pc.URead? || c.pc.USwapW? || c.pc.Done?))
      && (c.kind.Revoke? && !c.demand.Unconditional? ==> was == c.raw)
      && !c.pc.VRead?;
    holds
  }

  predicate Justified(s: State, r: Req) {
    && r.op in s.calls && r.n < s.calls[r.op].sent
    && var c := s.calls[r.op];
    match r.w
    case PutRecord(rec) => c.minted && rec == c.mine
    case DropRecord(rec) => c.minted && rec == c.mine
    case PutLookup(h, id) => c.minted && c.kind.Rotate? && h == c.mine.hash && id == c.mine.id
    case DropLookup(h, id) => c.minted && c.kind.Rotate? && h == c.mine.hash && id == c.mine.id
    case MoveLookup(h, source, target) =>
      source in s.base.records && s.base.records[source].hash == h && Adopted(s, target, s.base.records[source])
    case Claim(l, a) => c.kind.Adopt? && a == c.agent
    case SwapSlot(a, was, Issued(_, _)) => c.minted && c.cast == Some(r.n) && r.w == Proposal(c)
    case SwapSlot(a, was, Revoked(_, rid)) => RevokeOf(s, r.op, c, a, was, rid)
  }

  ghost predicate Flight(s: State) {
    forall r :: r in s.flight ==> Justified(s, r)
  }

  predicate Logged(s: State, k: Commit) {
    var holds :=
      && k.op in s.calls
      && (match k.becomes
          case Issued(_, _) => s.calls[k.op].cast.Some? && s.calls[k.op].minted && k == Win(s.calls[k.op], k.op)
          case Revoked(_, rid) => RevokeOf(s, k.op, s.calls[k.op], k.agent, k.was, rid))
      && (k.was.None? ==> k.agent in s.kv.slots)
      && (k.was.Some? && k.was.value.Issued? ==>
            WonBy(s, k.was.value.token) && !Named(s.kv, k.agent, k.was.value.token));
    holds
  }

  /** Two commits that left the same absent or issued slot value of one agent. */
  predicate SameStart(k: Commit, l: Commit) {
    k.agent == l.agent && k.was == l.was && (k.was.None? || k.was.value.Issued?)
  }

  /** A slot value that was absent or issued is left at most once. */
  ghost predicate Log(s: State) {
    var holds :=
      && (forall k :: k in s.log ==> Logged(s, k))
      && (forall k, l :: k in s.log && l in s.log && SameStart(k, l) ==> k == l)
      && (forall o :: o in s.calls ==> !(Flying(s, o, s.calls[o]) && Won(s, o, s.calls[o])));
    holds
  }

  ghost predicate Slots(s: State) {
    forall a :: a in s.kv.slots ==>
      match s.kv.slots[a]
      case Issued(t, at) => WonBy(s, t) && s.calls[s.owner[t]].agent == a && s.kv.slots[a] == Next(s.calls[s.owner[t]])
      case Revoked(at, rid) => rid in s.owner && exists was :: Commit(a, was, s.kv.slots[a], s.owner[rid]) in s.log
  }

  ghost predicate Records(s: State) {
    forall id :: id in s.kv.records ==>
      id in s.base.records || (Minted(s, id) && s.kv.records[id] == s.calls[s.owner[id]].mine)
  }

  ghost predicate Lookups(s: State) {
    forall d :: d in s.kv.lookups ==>
      || (d in s.base.lookups && s.kv.lookups[d] == s.base.lookups[d])
      || (Minted(s, s.kv.lookups[d]) && s.calls[s.owner[s.kv.lookups[d]]].mine.hash == d
          && (s.calls[s.owner[s.kv.lookups[d]]].kind.Adopt? ==> WonBy(s, s.kv.lookups[d])))
  }

  ghost predicate Backing(s: State) {
    var holds :=
      && (forall o :: o in s.calls && Live(s, o, s.calls[o]) ==> Backed(s, s.calls[o]))
      && (forall r :: r in s.flight && (r.w.DropRecord? || r.w.DropLookup?) && r.op in s.calls ==>
            !Live(s, r.op, s.calls[r.op]));
    holds
  }

  /** Everything but where each call stands. */
  ghost predicate Core(s: State) {
    var holds :=
      Base(s) && Shapes(s) && Flight(s) && Log(s) && Slots(s) && Records(s) && Lookups(s) && Backing(s);
    holds
  }

  ghost predicate Inv(s: State) {
    var holds :=
      Core(s) && Positions(s);
    holds
  }

  lemma InitInv(s: State)
    requires Init(s)
    ensures Inv(s)
  {
  }

  /* ---- Steps that leave one call alone -------------------------------------------------- */

  /** Facts about the store and the other calls that a step keeps. */
  ghost predicate Forward(s: State, s': State) {
    var holds :=
      && s'.base == s.base && s'.order == s.order
      && (forall t :: t in s.owner ==> t in s'.owner && s'.owner[t] == s.owner[t])
      && (forall l, a :: Claimed(s, l, a) ==> Claimed(s', l, a))
      && (forall t :: Minted(s, t) ==> Minted(s', t) && s'.calls[s.owner[t]].mine == s.calls[s.owner[t]].mine)
      && (forall t :: WonBy(s, t) ==> WonBy(s', t))
      && (forall t, l :: Adopted(s, t, l) ==> Adopted(s', t, l))
      && (forall l :: Legacy(s, l) && Tracked(s, l) ==> Tracked(s', l))
      && (forall d, id :: Seen(s, d, id) ==> Seen(s', d, id));
    holds
  }

  /** What a step leaves of the writes and the record of a call `o` it does not move. */
  ghost predicate Unmoved(s: State, s': State, o: nat, c: Call) {
    var holds :=
      && (forall r :: r in s'.flight && r.op == o ==> r in s.flight)
      && (Won(s, o, c) ==> Won(s', o, c))
      && (Live(s', o, c) ==> Live(s, o, c))
      && (c.minted && !Dropping(s, o) && c.mine.id in s.kv.records && s.kv.records[c.mine.id] == c.mine ==>
            c.mine.id in s'.kv.records && s'.kv.records[c.mine.id] == c.mine)
      && (forall out :: Honest(s, o, c, out) ==> Honest(s', o, c, out));
    holds
  }

  lemma RotateOnward(s: State, s': State, o: nat, c: Call)
    requires Forward(s, s') && Unmoved(s, s', o, c) && RotateStands(s, o, c)
    ensures RotateStands(s', o, c)
  {
    assert Dropping(s', o) ==> Dropping(s, o);
  }

  lemma EarlyOnward(s: State, s': State, o: nat, c: Call)
    requires Forward(s, s') && Unmoved(s, s', o, c) && AdoptStands(s, o, c)
    requires Early(c.pc) || c.pc.AClaimW?
    ensures AdoptStands(s', o, c)
  {
    assert Adopting(s, c) || c.pc.ARead?;
    assert Adopting(s, c) && Tracked(s, c.legacy) ==> Tracked(s', c.legacy);
    assert c.held && Claimed(s, c.legacy, c.agent) ==> Claimed(s', c.legacy, c.agent);
    if c.pc.AResume? { assert WonBy(s, c.pc.t); }
  }

  lemma CompletingOnward(s: State, s': State, c: Call, t: Id)
    requires Forward(s, s') && Completing(s, c, t)
    ensures Completing(s', c, t)
  {
    assert Adopted(s, t, c.legacy);
  }

  lemma LateOnward(s: State, s': State, o: nat, c: Call)
    requires Forward(s, s') && Unmoved(s, s', o, c) && AdoptStands(s, o, c) && Fixed(s, o, c) && c.kind.Adopt?
    requires !Early(c.pc) && !c.pc.AClaimW?
    ensures AdoptStands(s', o, c)
  {
    assert Dropping(s', o) ==> Dropping(s, o);
    match c.pc
    case ARecW =>
      assert Tracked(s, c.legacy) && Claimed(s, c.legacy, c.agent);
    case AComplete(t, _) => CompletingOnward(s, s', c, t);
    case AMoveW(t, _) => CompletingOnward(s, s', c, t);
    case AReRec(t, _) => assert WonBy(s, t);
    case Done(out) => assert Honest(s', o, c, out);
    case _ =>
  }

  lemma OtherOnward(s: State, s': State, o: nat, c: Call)
    requires Forward(s, s') && Unmoved(s, s', o, c) && Stands(s, o, c) && (c.kind.Revoke? || c.kind.Authorize?)
    ensures Stands(s', o, c)
  {
  }

  lemma StandsOnward(s: State, s': State, o: nat, c: Call)
    requires Forward(s, s') && Unmoved(s, s', o, c) && Stands(s, o, c) && Fixed(s, o, c)
    ensures Stands(s', o, c)
  {
    match c.kind
    case Rotate => RotateOnward(s, s', o, c);
    case Adopt => if Early(c.pc) || c.pc.AClaimW? { EarlyOnward(s, s', o, c); } else { LateOnward(s, s', o, c); }
    case _ => OtherOnward(s, s', o, c);
  }
}
