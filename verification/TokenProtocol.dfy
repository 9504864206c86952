/**
 The token operations of AccessTokenManager as an interleaved transition
 system. Every call is a small program over the store of module TokenStore;
 each step is one read, one issued write, or one answer. An issued write stays
 in `flight` until it lands or is lost, whether or not its caller still waits,
 so an unanswered compare-and-set may have landed, may never land, or may land
 after its caller has given up. Steps are labelled by events that carry every
 choice the environment makes: fresh identifiers, clock readings, storage
 failures, deadlines and request aborts.

 A write that is answered lands and is heard in one step, `Reply`. This loses no
 run: between the landing and the answer the waiting call does nothing, what it
 then does reads no store, and the write it issues next may land at any later
 time. So the answer, and an abort of the request before it, can be moved
 forward to the landing without any other call noticing. `Land` is the landing
 of a write whose answer never comes.
 */
module TokenProtocol {
  import opened Options
  import opened TokenStore

  /** The revision an operation is conditional on; revisions are injective in the stored slot. */
  datatype Demand = Unconditional | At(raw: Option<Slot>) | Nowhere

  datatype Outcome =
    | Ok(view: Option<Slot>)
    | Conflict
    | SlotChanged
    | NotAdoptable
    | Aborted
    | Unknown
    | Errored
    | Admitted(agent: Agent)
    | Refused

  datatype Kind = Rotate | Revoke | Adopt | Authorize

  /** Where a call stands. `…W` waits for the answer of the write it issued last. */
  datatype Pc =
    // rotate
    | RRead | RProbe | RRecW | RLkW | RCommitW | RNames | URead | USwapW
    // removing this call's own uncommitted record and lookup, then `next`
    | DropLkW(next: Pc) | DropRecW(next: Pc) | Quit
    // revoke
    | VRead | VSwapW | VLoop | VLoopW | VSettle | VSettleW
    // adopt
    | ARead | AClaim | ASlot | AResume(t: Id, since: Time) | ALookup | ACarry(i: nat) | ACarryRec(i: nat, t: Id)
    | AClaimW | AReclaim | ARecW | ACommitW | ANames | AReread | AReRec(t: Id, since: Time)
    | AComplete(t: Id, since: Time) | AMoveW(t: Id, since: Time) | ATaken
    // authorize
    | ULook | URec(id: Id) | USlot(rec: Record)
    | Done(out: Outcome)

  /**
   One operation. `gone` is its request's abort signal, `sent` numbers its
   writes, `cast` is the number of its one issuing slot swap, `mine` the record
   it minted, and `denied` remembers that one of its reads happened in a store
   that did not admit the presented token.
   */
  datatype Call = Call(kind: Kind, target: Id, tok: Token, agent: Agent, demand: Demand, gone: bool, sent: nat, cast: Option<nat>,
                       pc: Pc, raw: Option<Slot>, minted: bool, mine: Record, at: Time, rid: Id,
                       legacy: Record, held: bool, denied: bool)

  datatype Req = Req(op: nat, n: nat, w: Write)

  /** A slot swap that took effect. */
  datatype Commit = Commit(agent: Agent, was: Option<Slot>, becomes: Slot, op: nat)

  datatype State = State(base: Kv, order: seq<Agent>, kv: Kv, flight: set<Req>, calls: map<nat, Call>,
                         owner: map<Id, nat>, minter: map<Digest, nat>, log: set<Commit>)

  /** What the environment supplies to one step; `open` says the operation window has not closed. */
  datatype Fresh = Fresh(id: Id, digest: Digest, prefix: nat, now: Time, open: bool)

  datatype Event =
    | Begin(op: nat, call: Call)
    | Leave(op: nat)
    | Land(req: Req)
    | Lose(req: Req)
    | Step(op: nat, f: Fresh)
    | Reply(req: Req, f: Fresh)
    | Fail(op: nat, late: bool, f: Fresh)

  datatype Move = Go(call: Call) | Send(call: Call, w: Write)

  predicate Matches(e: Demand, raw: Option<Slot>) {
    match e case Unconditional => true case At(r) => r == raw case Nowhere => false
  }

  predicate Waiting(pc: Pc) {
    pc in {RRecW, RLkW, RCommitW, USwapW, VSwapW, VLoopW, VSettleW, AClaimW, ARecW, ACommitW}
    || pc.DropLkW? || pc.DropRecW? || pc.AMoveW?
  }

  function IssuedAt(c: Call): Time {
    if c.kind.Adopt? then c.legacy.created else c.mine.created
  }

  function Next(c: Call): Slot { Issued(c.mine.id, IssuedAt(c)) }

  function Proposal(c: Call): Write { SwapSlot(c.agent, c.raw, Next(c)) }

  function Win(c: Call, op: nat): Commit { Commit(c.agent, c.raw, Next(c), op) }

  function Over(c: Call, out: Outcome): Move { Go(c.(pc := Done(out))) }

  /** A result decided after the deadline is not reported as success. */
  function Settled(c: Call, view: Option<Slot>, f: Fresh): Move {
    Over(c, if f.open then Ok(view) else Unknown)
  }

  /** A deadline hit before anything could be published. */
  function CutShort(c: Call): Outcome { if c.gone then Aborted else Unknown }

  function Discard(c: Call, next: Pc): Move {
    if c.kind.Rotate?
    then Send(c.(pc := DropLkW(next)), DropLookup(c.mine.hash, c.mine.id))
    else Send(c.(pc := DropRecW(next)), DropRecord(c.mine))
  }

  function Discarded(c: Call, next: Pc): Move {
    if next.Quit? then Over(c, CutShort(c)) else Go(c.(pc := next))
  }

  function Cast(c: Call): Move {
    Send(c.(cast := Some(c.sent), pc := if c.kind.Adopt? then ACommitW else RCommitW), Proposal(c))
  }

  function MintAdoption(c: Call, f: Fresh): Move {
    var mine := Record(f.id, c.legacy.hash, c.legacy.prefix, f.now, Some(c.agent), false, false);
    Send(c.(minted := true, mine := mine, pc := ARecW), PutRecord(mine))
  }

  function RevokeSwap(c: Call, was: Option<Slot>, pc: Pc, f: Fresh): Move {
    Send(c.(at := f.now, pc := pc), SwapSlot(c.agent, was, Revoked(f.now, c.rid)))
  }

  function Committed(c: Call, f: Fresh): Move {
    if c.gone then Go(c.(rid := f.id, pc := URead)) else Settled(c, Some(Next(c)), f)
  }

  function HashAt(kv: Kv, id: Id): Option<Digest> {
    if id in kv.records && kv.records[id].id == id then Some(kv.records[id].hash) else None
  }

  /** One step that reads the store or decides locally. */
  function Proceed(c: Call, kv: Kv, order: seq<Agent>, f: Fresh): Move {
    match c.kind
    case Rotate => RotateStep(c, kv, f)
    case Revoke => RevokeStep(c, kv, f)
    case Adopt => if Early(c.pc) then AdoptStep(c, kv, order, f) else AdoptEnd(c, kv, f)
    case Authorize => Authorized(c, kv, order)
  }

  function RotateStep(c: Call, kv: Kv, f: Fresh): Move {
    var cur := SlotOf(kv, c.agent);
    match c.pc
    case RRead =>
      if !Matches(c.demand, cur) then Over(c, SlotChanged)
      else Go(c.(raw := cur, minted := true, pc := RProbe,
                 mine := Record(f.id, f.digest, f.prefix, f.now, Some(c.agent), false, false)))
    case RProbe =>
      if c.mine.hash in kv.lookups then Discard(c, Done(Conflict))
      else if c.gone then Discard(c, Done(Aborted))
      else Send(c.(pc := RRecW), PutRecord(c.mine))
    case RNames => if Named(kv, c.agent, c.mine.id) then Committed(c, f) else Over(c, Errored)
    case URead =>
      if Named(kv, c.agent, c.mine.id) then RevokeSwap(c, cur, USwapW, f) else Over(c, Aborted)
    case _ => Go(c)
  }

  function RevokeStep(c: Call, kv: Kv, f: Fresh): Move {
    var cur := SlotOf(kv, c.agent);
    match c.pc
    case VRead =>
      if !Matches(c.demand, cur) then Over(c, SlotChanged)
      else if cur.None? || cur.value.Revoked? then Settled(c, cur, f)
      else if c.gone then Over(c, Aborted)
      else RevokeSwap(c.(raw := cur, rid := f.id), cur, VSwapW, f)
    case VLoop =>
      if cur.None? || cur.value.Revoked? then Settled(c, cur, f) else RevokeSwap(c, cur, VLoopW, f)
    case VSettle =>
      if cur.Some? && cur.value.Revoked? && cur.value.revocation == c.rid then Settled(c, cur, f)
      else if cur != c.raw then Over(c, SlotChanged)
      else RevokeSwap(c, c.raw, VSettleW, f)
    case _ => Go(c)
  }

  /** An adoption before it has written anything but its claim. */
  predicate Early(pc: Pc) {
    pc.ARead? || pc.AClaim? || pc.ASlot? || pc.AResume? || pc.ALookup? || pc.ACarry? || pc.ACarryRec? || pc.AReclaim?
  }

  function AdoptStep(c: Call, kv: Kv, order: seq<Agent>, f: Fresh): Move {
    var cur := SlotOf(kv, c.agent);
    match c.pc
    case ARead =>
      var id := c.target;
      if id !in kv.records then Over(c, NotAdoptable)
      else if kv.records[id].id != id then Over(c, Errored)
      else if kv.records[id].agent.Some? || kv.records[id].human || kv.records[id].retired then Over(c, NotAdoptable)
      else Go(c.(legacy := kv.records[id], pc := AClaim))
    case AClaim =>
      if c.legacy.id in kv.claims && kv.claims[c.legacy.id] != c.agent then Over(c, NotAdoptable)
      else Go(c.(held := c.legacy.id in kv.claims, pc := ASlot))
    case ASlot =>
      if !Matches(c.demand, cur) then Over(c, SlotChanged)
      else if cur.None? then Go(c.(raw := cur, pc := ALookup))
      else if cur.value.Issued? then Go(c.(raw := cur, pc := AResume(cur.value.token, cur.value.at)))
      else Over(c, NotAdoptable)
    case AResume(t, since) =>
      if HashAt(kv, t) == Some(c.legacy.hash) then Go(c.(pc := AComplete(t, since))) else Over(c, NotAdoptable)
    case ALookup =>
      if c.legacy.hash !in kv.lookups || kv.lookups[c.legacy.hash] != c.legacy.id then Over(c, NotAdoptable)
      else Go(c.(pc := ACarry(0)))
    case ACarry(i) =>
      if i < |order| then
        var held := SlotOf(kv, order[i]);
        Go(c.(pc := if held.Some? && held.value.Issued? then ACarryRec(i, held.value.token) else ACarry(i + 1)))
      else if c.gone then Over(c, Aborted)
      else if c.held then MintAdoption(c, f)
      else Send(c.(pc := AClaimW), Claim(c.legacy.id, c.agent))
    case ACarryRec(i, t) =>
      if HashAt(kv, t) == Some(c.legacy.hash) then Over(c, NotAdoptable) else Go(c.(pc := ACarry(i + 1)))
    case AReclaim =>
      if c.legacy.id in kv.claims && kv.claims[c.legacy.id] == c.agent then MintAdoption(c, f)
      else Over(c, NotAdoptable)
    case _ => Go(c)
  }

  /** What a deadline inside completion reports: only an adoption that resumed has published nothing itself. */
  function Lapsed(c: Call): Outcome { if c.minted then Unknown else CutShort(c) }

  function Completed(c: Call, view: Slot, f: Fresh): Move {
    Over(c, if f.open then Ok(Some(view)) else Lapsed(c))
  }

  /** An adoption after its proposal, or resumed by an agent whose slot already names the digest. */
  function AdoptEnd(c: Call, kv: Kv, f: Fresh): Move {
    var cur := SlotOf(kv, c.agent);
    match c.pc
    case ANames => if Named(kv, c.agent, c.mine.id) then Go(c.(pc := AComplete(c.mine.id, IssuedAt(c)))) else Over(c, Errored)
    case AReread =>
      if cur.Some? && cur.value.Issued? then Go(c.(pc := AReRec(cur.value.token, cur.value.at))) else Over(c, Conflict)
    case AReRec(t, since) =>
      if HashAt(kv, t) == Some(c.legacy.hash) then Go(c.(pc := AComplete(t, since))) else Over(c, Conflict)
    case AComplete(t, since) =>
      if c.legacy.hash in kv.lookups && kv.lookups[c.legacy.hash] == t then Completed(c, Issued(t, since), f)
      else if c.legacy.hash !in kv.lookups || kv.lookups[c.legacy.hash] != c.legacy.id then Go(c.(pc := ATaken))
      else Send(c.(pc := AMoveW(t, since)), MoveLookup(c.legacy.hash, c.legacy.id, t))
    case _ => Go(c)
  }

  /** The three reads of an authorization: the lookup, the record it names, the slot of that record's agent. */
  function Authorized(c: Call, kv: Kv, order: seq<Agent>): Move {
    match c.pc
    case ULook =>
      if c.tok.digest !in kv.lookups then Over(c, Refused) else Go(c.(pc := URec(kv.lookups[c.tok.digest])))
    case URec(id) =>
      if id !in kv.records || !Presentable(kv.records[id], id, c.tok, order) then Over(c, Refused)
      else Go(c.(pc := USlot(kv.records[id])))
    case USlot(rec) =>
      if rec.agent.Some? && Named(kv, rec.agent.value, rec.id) then Over(c, Admitted(rec.agent.value))
      else Over(c, Refused)
    case _ => Go(c)
  }

  /** One step that hears the answer of the write it waited for. */
  function Answered(c: Call, won: bool, f: Fresh): Move {
    match c.kind
    case Rotate => RotateHears(c, won, f)
    case Revoke => RevokeHears(c, won, f)
    case Adopt => AdoptHears(c, won, f)
    case Authorize => Go(c)
  }

  function RotateHears(c: Call, won: bool, f: Fresh): Move {
    match c.pc
    case RRecW => Send(c.(pc := RLkW), PutLookup(c.mine.hash, c.mine.id))
    case RLkW => if c.gone then Discard(c, Done(Aborted)) else Cast(c)
    case RCommitW =>
      if won then Committed(c, f)
      else Discard(c, Done(if c.demand.Unconditional? then Conflict else SlotChanged))
    case USwapW => if won then Over(c, Aborted) else Go(c.(pc := URead))
    case DropLkW(next) => Send(c.(pc := DropRecW(next)), DropRecord(c.mine))
    case DropRecW(next) => Discarded(c, next)
    case _ => Go(c)
  }

  function RevokeHears(c: Call, won: bool, f: Fresh): Move {
    match c.pc
    case VSwapW =>
      if won then Settled(c, Some(Revoked(c.at, c.rid)), f)
      else if c.demand.Unconditional? then Go(c.(pc := VLoop)) else Over(c, SlotChanged)
    case VLoopW => if won then Settled(c, Some(Revoked(c.at, c.rid)), f) else Go(c.(pc := VLoop))
    case VSettleW => if won then Settled(c, Some(Revoked(c.at, c.rid)), f) else Go(c.(pc := VSettle))
    case _ => Go(c)
  }

  function AdoptHears(c: Call, won: bool, f: Fresh): Move {
    match c.pc
    case AClaimW => if won then MintAdoption(c, f) else Go(c.(pc := AReclaim))
    case ARecW => if c.gone then Discard(c, Done(Aborted)) else Cast(c)
    case ACommitW =>
      if won then Go(c.(pc := AComplete(c.mine.id, IssuedAt(c))))
      else Discard(c, if c.demand.Unconditional? then AReread else Done(SlotChanged))
    case AMoveW(t, since) => if won then Completed(c, Issued(t, since), f) else Go(c.(pc := AComplete(t, since)))
    case DropRecW(next) => Discarded(c, next)
    case _ => Go(c)
  }

  /** One await that ends in a storage error, or at the deadline when `late`. */
  function Failed(c: Call, late: bool): Move {
    match c.kind
    case Rotate => RotateFailed(c, late)
    case Revoke => RevokeFailed(c, late)
    case Adopt => AdoptFailed(c, late)
    case Authorize => Over(c, Errored)
  }

  function RotateFailed(c: Call, late: bool): Move {
    match c.pc
    case RRead => Over(c, if late then CutShort(c) else Errored)
    case RProbe | RRecW | RLkW => Discard(c, if late then Quit else Done(Errored))
    case DropLkW(next) => Send(c.(pc := DropRecW(next)), DropRecord(c.mine))
    case DropRecW(next) => Discarded(c, next)
    case RCommitW => if late then Over(c, Unknown) else Go(c.(pc := RNames))
    case RNames => if late then Over(c, Unknown) else Go(c)
    case URead | USwapW => if late then Over(c, Unknown) else Go(c.(pc := URead))
    case _ => Go(c)
  }

  function RevokeFailed(c: Call, late: bool): Move {
    match c.pc
    case VRead => Over(c, if late then CutShort(c) else Errored)
    case VSwapW =>
      if late then Over(c, Unknown) else Go(c.(pc := if c.demand.Unconditional? then VLoop else VSettle))
    case VLoop | VLoopW => if late then Over(c, Unknown) else Go(c.(pc := VLoop))
    case VSettle | VSettleW => if late then Over(c, Unknown) else Go(c.(pc := VSettle))
    case _ => Go(c)
  }

  function AdoptFailed(c: Call, late: bool): Move {
    match c.pc
    case ARead | AClaim | ASlot | AResume(_, _) | ALookup | ACarry(_) | ACarryRec(_, _) =>
      Over(c, if late then CutShort(c) else Errored)
    case ARecW => Discard(c, if late then Quit else Done(Errored))
    case DropRecW(next) => Discarded(c, next)
    case ACommitW => if late then Over(c, Unknown) else Go(c.(pc := ANames))
    case ANames => if late then Over(c, Unknown) else Go(c)
    case AClaimW | AReclaim | AReread | AReRec(_, _) => Over(c, if late then Unknown else Errored)
    case AComplete(t, since) => if late then Over(c, Lapsed(c)) else Go(c)
    case AMoveW(t, since) => if late then Over(c, Lapsed(c)) else Go(c.(pc := AComplete(t, since)))
    case _ => Go(c)
  }

  function Start(k: Kind): Pc {
    match k case Rotate => RRead case Revoke => VRead case Adopt => ARead case Authorize => ULook
  }

  predicate Newborn(c: Call, order: seq<Agent>) {
    && c.pc == Start(c.kind) && c.sent == 0 && c.cast == None && c.raw == None && !c.minted && !c.held && !c.denied
    && (c.kind.Authorize? || c.agent in order)
  }

  predicate Unused(s: State, f: Fresh) {
    && f.id !in s.owner && f.id !in s.base.records && f.id !in s.base.lookups.Values
    && f.digest !in s.minter && f.digest !in s.base.lookups
    && forall id :: id in s.base.records ==> s.base.records[id].hash != f.digest
  }

  predicate Enabled(s: State, e: Event) {
    var holds :=
      match e
      case Begin(op, c) => op !in s.calls && Newborn(c, s.order)
      case Leave(op) => op in s.calls
      case Land(r) => r in s.flight
      case Lose(r) => r in s.flight
      case Step(op, f) => op in s.calls && !Waiting(s.calls[op].pc) && !s.calls[op].pc.Done? && Unused(s, f)
      case Reply(r, f) =>
        r in s.flight && r.op in s.calls && Waiting(s.calls[r.op].pc) && r.n + 1 == s.calls[r.op].sent && Unused(s, f)
      case Fail(op, _, f) => op in s.calls && !s.calls[op].pc.Done? && Unused(s, f);
    holds
  }

  /** The call's own view of whether its token fails to admit in the store it reads. */
  function Observe(c: Call, kv: Kv, order: seq<Agent>): Call {
    if c.kind.Authorize? && !Admitting(kv, order, c.tok) then c.(denied := true) else c
  }

  /** Executable form of AdmitsAny: the record named by the lookup decides which agent. */
  predicate Admitting(kv: Kv, order: seq<Agent>, tok: Token) {
    && tok.digest in kv.lookups
    && kv.lookups[tok.digest] in kv.records
    && kv.records[kv.lookups[tok.digest]].agent.Some?
    && Admits(kv, order, tok, kv.records[kv.lookups[tok.digest]].agent.value)
  }

  function Place(s: State, op: nat, m: Move, f: Fresh): State {
    var s1 := s.(owner := s.owner[f.id := op], minter := s.minter[f.digest := op]);
    match m
    case Go(c) => s1.(calls := s.calls[op := c])
    case Send(c, w) => s1.(calls := s.calls[op := c.(sent := c.sent + 1)], flight := s.flight + {Req(op, c.sent, w)})
  }

  function Deliver(s: State, r: Req): State {
    var took := r.w.SwapSlot? && Takes(s.kv, r.w);
    s.(kv := Landed(s.kv, r.w), flight := s.flight - {r},
       log := if took then s.log + {Commit(r.w.agent, r.w.was, r.w.becomes, r.op)} else s.log)
  }

  function Apply(s: State, e: Event): State
    requires Enabled(s, e)
  {
    match e
    case Begin(op, c) => s.(calls := s.calls[op := c])
    case Leave(op) => s.(calls := s.calls[op := s.calls[op].(gone := true)])
    case Land(r) => Deliver(s, r)
    case Lose(r) => s.(flight := s.flight - {r})
    case Step(op, f) => Place(s, op, Proceed(Observe(s.calls[op], s.kv, s.order), s.kv, s.order, f), f)
    case Reply(r, f) => Place(Deliver(s, r), r.op, Answered(s.calls[r.op], Takes(s.kv, r.w), f), f)
    case Fail(op, late, f) => Place(s, op, Failed(s.calls[op], late), f)
  }

  /** A store from before agents: legacy records only, filed under their ids, with distinct digests. */
  ghost predicate LegacyStore(kv: Kv) {
    && kv.slots == map[] && kv.claims == map[]
    && (forall id :: id in kv.records ==> kv.records[id].id == id && kv.records[id].agent == None)
    && (forall i, j :: i in kv.records && j in kv.records && kv.records[i].hash == kv.records[j].hash ==> i == j)
  }

  ghost predicate Init(s: State) {
    && LegacyStore(s.base) && s.kv == s.base && s.flight == {} && s.calls == map[]
    && s.owner == map[] && s.minter == map[] && s.log == {}
  }

  datatype Run = Run(states: seq<State>, events: seq<Event>)

  predicate Stepped(s: State, e: Event, t: State) {
    var stepped := Enabled(s, e) && t == Apply(s, e);
    stepped
  }

  ghost predicate ValidRun(run: Run) {
    var holds :=
      && |run.states| == |run.events| + 1
      && Init(run.states[0])
      && (forall i {:trigger run.events[i]} :: 0 <= i < |run.events| ==>
            Stepped(run.states[i], run.events[i], run.states[i + 1]));
    holds
  }
}
