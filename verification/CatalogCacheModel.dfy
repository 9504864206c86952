/**
 * The shared catalog cache of one connector: values in chunks behind a manifest that is
 * swapped atomically, a generation that invalidation replaces, and fences that a refused
 * credential leaves beside the entries. Calls interleave, may end at any step, and may leave
 * writes behind that land later or never; stored entries may expire at any time.
 */
module CatalogCacheModel {
  import opened Options

  /* ---- The store ------------------------------------------------------------------------- */

  /** An entry's address names the generation it was written under. */
  datatype Root = Root(gen: nat, slot: nat)

  datatype ChunkKey = ChunkKey(root: Root, revision: nat, index: nat)

  /** The fingerprint stands for the value it was taken of. */
  datatype Manifest = Manifest(revision: nat, count: nat, fingerprint: string, stamp: nat, expiresAt: nat)

  datatype Kv = Kv(
    gen: Option<nat>, manifests: map<Root, Manifest>, chunks: map<ChunkKey, string>, fences: map<Root, nat>)

  datatype Write =
    | PutChunk(key: ChunkKey, text: string)
    | DropChunk(key: ChunkKey)
    | Publish(root: Root, was: Option<Manifest>, m: Manifest)
    | DropEntry(root: Root)
    | Claim(gen: nat)
    | Replace(gen: nat)
    | PutFence(at: Root, mark: nat)
    | LiftFence(at: Root, mark: nat)

  function ManifestAt(kv: Kv, root: Root): Option<Manifest> {
    if root in kv.manifests then Some(kv.manifests[root]) else None
  }

  function FenceAt(kv: Kv, at: Root): Option<nat> {
    if at in kv.fences then Some(kv.fences[at]) else None
  }

  /** Whether a compare-and-set finds what it compares with. */
  predicate Takes(kv: Kv, w: Write) {
    match w
    case Publish(root, was, _) => ManifestAt(kv, root) == was
    case Claim(_) => kv.gen == None
    case LiftFence(at, mark) => FenceAt(kv, at) == Some(mark)
    case _ => true
  }

  function Landed(kv: Kv, w: Write): Kv {
    if !Takes(kv, w) then kv
    else
      match w
      case PutChunk(key, text) => kv.(chunks := kv.chunks[key := text])
      case DropChunk(key) => kv.(chunks := kv.chunks - {key})
      case Publish(root, _, m) => kv.(manifests := kv.manifests[root := m])
      case DropEntry(root) => kv.(manifests := kv.manifests - {root})
      case Claim(gen) => kv.(gen := Some(gen))
      case Replace(gen) => kv.(gen := Some(gen))
      case PutFence(at, mark) => kv.(fences := kv.fences[at := mark])
      case LiftFence(at, _) => kv.(fences := kv.fences - {at})
  }

  /* ---- Calls ----------------------------------------------------------------------------- */

  datatype Kind = Set | Get | Remove | Invalidate | Refuse | Stale

  datatype Outcome = Hit(value: string) | Miss | Stood(value: string) | Over

  datatype Pc =
    // set: write the chunks, check the generation, read the entry, swap it, drop what it replaced, lift the fence
    | SChunk(i: nat) | SChunkW(i: nat) | SCheck | SClaimW | SRead | SPublishW(was: Option<Manifest>, m: Manifest)
    | SClean(m: Manifest, i: nat) | SCleanW(m: Manifest, i: nat) | SLift | SLiftW
    // set of a catalog that refuses reuse: delete the entry instead, unless the generation has moved on
    | ZCheck | ZClaimW | ZDrop | ZDropW
    // get: read the manifest, its chunks, and check the generation afresh
    | GRead | GChunk(m: Manifest, read: seq<string>) | GCheck(m: Manifest, read: seq<string>)
    | GClaimW(m: Manifest, read: seq<string>)
    // delete an entry; replace the generation
    | RDrop | RDropW | IReplace | IReplaceW
    // record a refusal: find the generation if the attempt had none stored, then write the fence
    | FFind | FPut(gen: nat) | FPutW
    // an expired catalog, read like a get, stands in: check the generation again, then the fence
    | TCheck(m: Manifest, read: seq<string>) | TClaimW(m: Manifest, read: seq<string>)
    | TFence(m: Manifest, read: seq<string>)
    | Done(out: Outcome)

  /** `captured` is the fence this call's listing read before it dispatched, the only one it may lift. */
  datatype Call = Call(
    kind: Kind, root: Root, fence: Root, captured: Option<nat>, chunks: seq<string>, revision: nat, stored: bool,
    pc: Pc, sent: nat, cast: Option<nat>)

  datatype Req = Req(op: nat, n: nat, w: Write)

  /**
   * `bound` holds the generations a call may be bound to: ever stored, or drawn by a listing that found none.
   * `used` holds every id ever drawn, `owner` the call each revision belongs to. The rest is history:
   * `past` the generations stored so far in order, `shown` the revisions ever published, `replaced` those
   * swapped out again, and `expired` the chunks that ran out of time.
   */
  datatype State = State(
    kv: Kv, calls: map<nat, Call>, flight: set<Req>, bound: set<nat>, used: set<nat>, owner: map<nat, nat>,
    past: seq<nat>, shown: set<nat>, replaced: set<nat>, expired: set<ChunkKey>)

  function Concat(chunks: seq<string>): string {
    if chunks == [] then "" else Concat(chunks[..|chunks| - 1]) + chunks[|chunks| - 1]
  }

  /** What a step draws or reads besides the store: a new id and the time. */
  datatype Fresh = Fresh(id: nat, now: nat, expiresAt: nat)

  datatype Move = Go(call: Call) | Send(call: Call, w: Write)

  function At(c: Call, pc: Pc): Move { Go(c.(pc := pc)) }

  function End(c: Call, out: Outcome): Move { Go(c.(pc := Done(out))) }

  predicate Waiting(pc: Pc) {
    || pc.SChunkW? || pc.SClaimW? || pc.SPublishW? || pc.SCleanW? || pc.SLiftW? || pc.GClaimW?
    || pc.ZClaimW? || pc.ZDropW?
    || pc.RDropW? || pc.IReplaceW? || pc.FPutW? || pc.TClaimW?
  }

  /** The generation check: go on when it is the call's own, claim it when none is stored, and end otherwise. */
  function Check(c: Call, kv: Kv, next: Pc, claim: Pc): Move {
    if kv.gen == Some(c.root.gen) then At(c, next)
    else if kv.gen == None then Send(c.(pc := claim), Claim(c.root.gen))
    else End(c, Miss)
  }

  function NextStamp(was: Option<Manifest>, now: nat): nat {
    if was.Some? && was.value.stamp >= now then was.value.stamp + 1 else now
  }

  function Publication(c: Call, was: Option<Manifest>, f: Fresh): Manifest {
    Manifest(c.revision, |c.chunks|, Concat(c.chunks), NextStamp(was, f.now), f.expiresAt)
  }

  /** Once its chunks are stored a set publishes them, against the entry it has just read. */
  function SetStep(c: Call, kv: Kv, f: Fresh): Move {
    match c.pc
    case SChunk(i) =>
      if i < |c.chunks| then Send(c.(pc := SChunkW(i)), PutChunk(ChunkKey(c.root, c.revision, i), c.chunks[i]))
      else At(c, SCheck)
    case SCheck => Check(c, kv, SRead, SClaimW)
    case SRead =>
      var was := ManifestAt(kv, c.root);
      var m := Publication(c, was, f);
      Send(c.(pc := SPublishW(was, m), cast := Some(c.sent)), Publish(c.root, was, m))
    case SClean(m, i) =>
      if i < m.count then Send(c.(pc := SCleanW(m, i)), DropChunk(ChunkKey(c.root, m.revision, i)))
      else At(c, SLift)
    case SLift =>
      if c.captured.Some? then Send(c.(pc := SLiftW), LiftFence(c.fence, c.captured.value)) else End(c, Over)
    case ZCheck =>
      if kv.gen == Some(c.root.gen) then At(c, ZDrop)
      else if kv.gen == None then Send(c.(pc := ZClaimW), Claim(c.root.gen))
      else At(c, SLift)
    case ZDrop => Send(c.(pc := ZDropW), DropEntry(c.root))
    case _ => Go(c)
  }

  /** What was read whole under the call's own generation is served, or asks whether it may stand in. */
  function Accepted(c: Call, m: Manifest, read: seq<string>): Move {
    if c.kind == Stale then At(c, TCheck(m, read)) else End(c, Hit(Concat(read)))
  }

  /** A get serves only what it read whole, and only if the generation is still the one it was addressed by. */
  function GetStep(c: Call, kv: Kv): Move {
    match c.pc
    case GRead =>
      (match ManifestAt(kv, c.root)
       case None => End(c, Miss)
       case Some(m) => At(c, GChunk(m, [])))
    case GChunk(m, read) =>
      if |read| >= m.count then
        if Concat(read) == m.fingerprint then At(c, GCheck(m, read)) else End(c, Miss)
      else
        var key := ChunkKey(c.root, m.revision, |read|);
        if key in kv.chunks then At(c, GChunk(m, read + [kv.chunks[key]])) else End(c, Miss)
    case GCheck(m, read) =>
      if kv.gen == Some(c.root.gen) then Accepted(c, m, read)
      else if kv.gen == None then Send(c.(pc := GClaimW(m, read)), Claim(c.root.gen))
      else End(c, Miss)
    case TCheck(m, read) => Check(c, kv, TFence(m, read), TClaimW(m, read))
    case TFence(m, read) => End(c, if FenceAt(kv, c.fence) == None then Stood(Concat(read)) else Miss)
    case _ => Go(c)
  }

  function OtherStep(c: Call, kv: Kv, f: Fresh): Move {
    match c.pc
    case RDrop => Send(c.(pc := RDropW), DropEntry(c.root))
    case IReplace => Send(c.(pc := IReplaceW), Replace(f.id))
    case FFind =>
      if c.stored then At(c, FPut(c.root.gen)) else if kv.gen.Some? then At(c, FPut(kv.gen.value)) else End(c, Over)
    case FPut(gen) => Send(c.(pc := FPutW), PutFence(Root(gen, c.fence.slot), f.id))
    case _ => Go(c)
  }

  function Proceed(c: Call, kv: Kv, f: Fresh): Move {
    match c.kind
    case Set => SetStep(c, kv, f)
    case Get => GetStep(c, kv)
    case Stale => GetStep(c, kv)
    case _ => OtherStep(c, kv, f)
  }

  /** What a call does with the answer to its write: `won` is what a compare-and-set returned. */
  function Answered(c: Call, won: bool): Move {
    match c.pc
    case SChunkW(i) => At(c, SChunk(i + 1))
    case SClaimW => At(c, if won then SRead else SCheck)
    case SPublishW(was, _) =>
      if !won then At(c, SCheck)
      else if was.Some? && was.value.revision != c.revision then At(c, SClean(was.value, 0))
      else At(c, SLift)
    case SCleanW(m, i) => At(c, SClean(m, i + 1))
    case ZClaimW => At(c, if won then ZDrop else ZCheck)
    case ZDropW => At(c, SLift)
    case SLiftW => End(c, Over)
    case GClaimW(m, read) => if won then Accepted(c, m, read) else At(c, GCheck(m, read))
    case TClaimW(m, read) => At(c, if won then TFence(m, read) else TCheck(m, read))
    case _ => End(c, Over)
  }

  /* ---- Events ---------------------------------------------------------------------------- */

  /** `Quit` ends a call anywhere; `Trip` is a cleanup that fails, after which the set goes on. */
  datatype Event =
    | Begin(op: nat, c: Call)
    | Step(op: nat, f: Fresh)
    | Reply(req: Req)
    | Land(req: Req)
    | Lose(req: Req)
    | Quit(op: nat)
    | Trip(op: nat)
    | ExpireEntry(root: Root)
    | ExpireChunk(key: ChunkKey)
    | ExpireFence(at: Root)

  function FirstPc(kind: Kind): Pc {
    match kind
    case Set => SChunk(0) case Get => GRead case Remove => RDrop
    case Invalidate => IReplace case Refuse => FFind case Stale => GRead
  }

  /** A call starts with its listing's generation, and with the fence that listing captured, if any. */
  predicate Newborn(s: State, c: Call) {
    && (c.pc == FirstPc(c.kind) || (c.kind == Set && c.pc == ZCheck)) && c.sent == 0 && c.cast == None && c.fence.gen == c.root.gen
    && (c.root.gen in s.bound || c.root.gen !in s.used)
    && (c.captured.Some? ==> FenceAt(s.kv, c.fence) == c.captured)
    && c.revision !in s.used && c.revision != c.root.gen
  }

  predicate Enabled(s: State, e: Event) {
    var enabled :=
      match e
      case Begin(op, c) => op !in s.calls && Newborn(s, c)
      case Step(op, f) => op in s.calls && !Waiting(s.calls[op].pc) && !s.calls[op].pc.Done? && f.id !in s.used
      case Reply(r) => r in s.flight && r.op in s.calls && Waiting(s.calls[r.op].pc) && r.n + 1 == s.calls[r.op].sent
      case Land(r) => r in s.flight
      case Lose(r) => r in s.flight
      case Quit(op) => op in s.calls && !s.calls[op].pc.Done?
      case Trip(op) => op in s.calls && (s.calls[op].pc.SClean? || s.calls[op].pc.SCleanW?)
      case ExpireEntry(root) => root in s.kv.manifests
      case ExpireChunk(key) => key in s.kv.chunks
      case ExpireFence(at) => at in s.kv.fences;
    enabled
  }

  function Started(s: State, op: nat, c: Call): State {
    s.(calls := s.calls[op := c], bound := s.bound + {c.root.gen}, used := s.used + {c.root.gen, c.revision},
       owner := s.owner[c.revision := op])
  }

  /** The call moves on; `id` is the id it drew, or one of its own. */
  function Place(s: State, op: nat, m: Move, id: nat): State {
    match m
    case Go(c) => s.(calls := s.calls[op := c], used := s.used + {id})
    case Send(c, w) =>
      s.(calls := s.calls[op := c.(sent := c.sent + 1)], flight := s.flight + {Req(op, c.sent, w)}, used := s.used + {id})
  }

  /** The write reaches the store, and history records what it did there. */
  function Deliver(s: State, r: Req): State {
    var t := s.(kv := Landed(s.kv, r.w), flight := s.flight - {r});
    if !Takes(s.kv, r.w) then t
    else
      match r.w
      case Publish(_, was, m) =>
        t.(shown := s.shown + {m.revision},
           replaced := if was.Some? && was.value.revision != m.revision then s.replaced + {was.value.revision} else s.replaced)
      case Claim(gen) => t.(past := s.past + [gen], bound := s.bound + {gen})
      case Replace(gen) => t.(past := s.past + [gen], bound := s.bound + {gen})
      case _ => t
  }

  function Answer(s: State, r: Req): State
    requires r.op in s.calls
  {
    Place(Deliver(s, r), r.op, Answered(s.calls[r.op], Takes(s.kv, r.w)), s.calls[r.op].revision)
  }

  function Apply(s: State, e: Event): State
    requires Enabled(s, e)
  {
    match e
    case Begin(op, c) => Started(s, op, c)
    case Step(op, f) => Place(s, op, Proceed(s.calls[op], s.kv, f), f.id)
    case Reply(r) => Answer(s, r)
    case Land(r) => Deliver(s, r)
    case Lose(r) => s.(flight := s.flight - {r})
    case Quit(op) => Place(s, op, End(s.calls[op], Over), s.calls[op].revision)
    case Trip(op) => Place(s, op, At(s.calls[op], SLift), s.calls[op].revision)
    case ExpireEntry(root) => s.(kv := s.kv.(manifests := s.kv.manifests - {root}))
    case ExpireChunk(key) => s.(kv := s.kv.(chunks := s.kv.chunks - {key}), expired := s.expired + {key})
    case ExpireFence(at) => s.(kv := s.kv.(fences := s.kv.fences - {at}))
  }

  const Initial: State :=
    State(Kv(None, map[], map[], map[]), map[], {}, {}, {}, map[], [], {}, {}, {})

  datatype Run = Run(states: seq<State>, events: seq<Event>)

  predicate Stepped(s: State, e: Event, t: State) {
    var stepped := Enabled(s, e) && t == Apply(s, e);
    stepped
  }

  ghost predicate ValidRun(run: Run) {
    var valid :=
      && |run.states| == |run.events| + 1 && run.states[0] == Initial
      && (forall i {:trigger run.events[i]} :: 0 <= i < |run.events| ==>
            Stepped(run.states[i], run.events[i], run.states[i + 1]));
    valid
  }
}
