/** What every step of the catalog cache keeps. */
module CatalogCacheInvariant {
  import opened Options
  import opened CatalogCacheModel

  /* ---- Where values come from ------------------------------------------------------------ */

  /** The revision is that of a call, which wrote it for this entry. */
  predicate Written(s: State, revision: nat, root: Root) {
    revision in s.owner && s.owner[revision] in s.calls && s.calls[s.owner[revision]].root == root
  }

  function Parts(s: State, revision: nat): seq<string>
    requires revision in s.owner && s.owner[revision] in s.calls
  {
    s.calls[s.owner[revision]].chunks
  }

  /** The manifest describes exactly the value its revision's call was given. */
  predicate Genuine(s: State, m: Manifest, root: Root) {
    && Written(s, m.revision, root)
    && m.count == |Parts(s, m.revision)| && m.fingerprint == Concat(Parts(s, m.revision))
  }

  /** The first chunks of a revision are stored, or were until they expired. */
  predicate Stored(s: State, root: Root, revision: nat, n: nat) {
    forall i :: 0 <= i < n ==> ChunkKey(root, revision, i) in s.kv.chunks || ChunkKey(root, revision, i) in s.expired
  }

  /* ---- Calls ----------------------------------------------------------------------------- */

  ghost predicate Last(s: State, o: nat, c: Call, w: Write) {
    c.sent > 0 && forall r :: r in s.flight && r.op == o && r.n + 1 == c.sent ==> r.w == w
  }

  /** The call has not published, and nothing it sent still could. */
  ghost predicate Unpublished(s: State, o: nat, c: Call) {
    c.revision !in s.shown && forall r :: r in s.flight && r.op == o ==> !r.w.Publish?
  }

  ghost predicate SetStands(s: State, o: nat, c: Call) {
    var stands :=
      match c.pc
      case SChunk(i) => i <= |c.chunks| && Stored(s, c.root, c.revision, i) && Unpublished(s, o, c)
      case SChunkW(i) =>
        && i < |c.chunks| && Stored(s, c.root, c.revision, i) && Unpublished(s, o, c)
        && Last(s, o, c, PutChunk(ChunkKey(c.root, c.revision, i), c.chunks[i]))
      case SCheck => Stored(s, c.root, c.revision, |c.chunks|) && Unpublished(s, o, c)
      case SClaimW =>
        Stored(s, c.root, c.revision, |c.chunks|) && Unpublished(s, o, c) && Last(s, o, c, Claim(c.root.gen))
      case SRead => Stored(s, c.root, c.revision, |c.chunks|) && Unpublished(s, o, c)
      case SPublishW(was, m) =>
        c.cast == Some(c.sent - 1) && Last(s, o, c, Publish(c.root, was, m)) && m.revision == c.revision
      case SClean(m, _) => m.revision in s.replaced
      case SCleanW(m, _) => m.revision in s.replaced
      case SLift => true
      case SLiftW => c.captured.Some? && Last(s, o, c, LiftFence(c.fence, c.captured.value))
      case ZCheck => true
      case ZClaimW => true
      case ZDrop => true
      case ZDropW => Last(s, o, c, DropEntry(c.root))
      case Done(out) => !out.Hit? && !out.Stood?
      case _ => false;
    stands
  }

  /**
   * What a get has read so far is the beginning of one published value, whose chunks are gone only by expiry
   * unless it has been swapped out meanwhile.
   */
  predicate Reading(s: State, c: Call, m: Manifest, read: seq<string>) {
    && Genuine(s, m, c.root) && m.revision in s.shown && read <= Parts(s, m.revision)
    && (m.revision in s.replaced || Stored(s, c.root, m.revision, m.count))
  }

  predicate Whole(s: State, c: Call, m: Manifest, read: seq<string>) {
    Reading(s, c, m, read) && |read| == m.count
  }

  /** The value is the whole value of one set, published at this entry. */
  ghost predicate Served(s: State, root: Root, value: string) {
    exists revision :: revision in s.shown && Written(s, revision, root) && value == Concat(Parts(s, revision))
  }

  predicate Reads(c: Call) { c.kind == Get || c.kind == Stale }

  ghost predicate GetStands(s: State, o: nat, c: Call) {
    var stands :=
      match c.pc
      case GRead => true
      case GChunk(m, read) => Reading(s, c, m, read)
      case GCheck(m, read) => Whole(s, c, m, read)
      case GClaimW(m, read) => Whole(s, c, m, read) && Last(s, o, c, Claim(c.root.gen))
      case TCheck(m, read) => c.kind == Stale && Whole(s, c, m, read)
      case TClaimW(m, read) => c.kind == Stale && Whole(s, c, m, read) && Last(s, o, c, Claim(c.root.gen))
      case TFence(m, read) => c.kind == Stale && Whole(s, c, m, read)
      case Done(out) =>
        && (out.Hit? ==> c.kind == Get && Served(s, c.root, out.value))
        && (out.Stood? ==> c.kind == Stale && Served(s, c.root, out.value))
      case _ => false;
    stands
  }

  ghost predicate OtherStands(s: State, o: nat, c: Call) {
    match c.pc
    case RDrop => c.kind == Remove
    case RDropW => c.kind == Remove
    case IReplace => c.kind == Invalidate
    case IReplaceW => c.kind == Invalidate
    case FFind => c.kind == Refuse
    case FPut(_) => c.kind == Refuse
    case FPutW => c.kind == Refuse
    case Done(out) => !out.Hit? && !out.Stood?
    case _ => false
  }

  ghost predicate Stands(s: State, o: nat, c: Call) {
    match c.kind
    case Set => SetStands(s, o, c)
    case Get => GetStands(s, o, c)
    case Stale => GetStands(s, o, c)
    case _ => OtherStands(s, o, c)
  }

  /* ---- The invariant ---------------------------------------------------------------------- */

  predicate Known(s: State, o: nat, c: Call) {
    var known :=
      && c.revision in s.owner && s.owner[c.revision] == o && c.root.gen in s.bound && c.fence.gen == c.root.gen
      && (c.captured.Some? ==> c.captured.value in s.used) && (c.cast.Some? ==> c.cast.value < c.sent);
    known
  }

  /** The generation key holds the newest of the generations stored so far, none of which ever comes back. */
  predicate Generations(s: State) {
    var generations :=
      && s.kv.gen == (if s.past == [] then None else Some(s.past[|s.past| - 1]))
      && (forall i, j :: 0 <= i < j < |s.past| ==> s.past[i] != s.past[j])
      && (forall i :: 0 <= i < |s.past| ==> s.past[i] in s.bound) && s.bound <= s.used;
    generations
  }

  ghost predicate Records(s: State) {
    var records :=
      && (forall v :: v in s.owner ==> v in s.used && s.owner[v] in s.calls)
      && (forall v :: v in s.shown ==> v in s.owner) && s.replaced <= s.shown
      && (forall at :: at in s.kv.fences ==> s.kv.fences[at] in s.used)
      && (forall o :: o in s.calls ==> Known(s, o, s.calls[o]));
    records
  }

  /** A stored chunk is the part its key says of the value its revision's call was given. */
  predicate ChunkOk(s: State, k: ChunkKey, text: string) {
    Written(s, k.revision, k.root) && k.index < |Parts(s, k.revision)| && text == Parts(s, k.revision)[k.index]
  }

  predicate Chunks(s: State) {
    forall k :: k in s.kv.chunks ==> ChunkOk(s, k, s.kv.chunks[k])
  }

  /** A current manifest is genuine, was not swapped out, and its chunks are gone only by expiry. */
  predicate EntryOk(s: State, root: Root, m: Manifest) {
    var ok := Genuine(s, m, root) && m.revision in s.shown && m.revision !in s.replaced && Stored(s, root, m.revision, m.count);
    ok
  }

  predicate Entries(s: State) {
    forall root :: root in s.kv.manifests ==> EntryOk(s, root, s.kv.manifests[root])
  }

  predicate Justified(s: State, r: Req) {
    && r.op in s.calls && r.n < s.calls[r.op].sent
    && var c := s.calls[r.op];
    var justified :=
      match r.w
      case PutChunk(k, text) => k.root == c.root && k.revision == c.revision && k.index < |c.chunks| && text == c.chunks[k.index]
      case DropChunk(k) => k.revision in s.replaced
      case Publish(root, was, m) =>
        && c.cast == Some(r.n) && root == c.root && m.revision == c.revision && m.revision !in s.shown
        && m.count == |c.chunks| && m.fingerprint == Concat(c.chunks) && Stored(s, root, m.revision, m.count)
        && (was.Some? ==> m.stamp > was.value.stamp)
      case DropEntry(_) => true
      case Claim(gen) => gen == c.root.gen
      case Replace(gen) => gen in s.used && gen !in s.bound
      case PutFence(_, mark) => mark in s.used
      case LiftFence(at, mark) => c.kind == Set && at == c.fence && c.captured == Some(mark);
    justified
  }

  predicate SameReplacement(v: Write, w: Write) { v.Replace? && w == v }

  ghost predicate Flight(s: State) {
    var flight :=
      && (forall r :: r in s.flight ==> Justified(s, r))
      && (forall q, r :: q in s.flight && r in s.flight && q.op == r.op && q.n == r.n ==> q == r)
      && (forall q, r :: q in s.flight && r in s.flight && SameReplacement(q.w, r.w) ==> q == r);
    flight
  }

  /** A mark that has not been written yet is nobody's: no fence carries it and no listing captured it. */
  predicate Unseen(s: State, mark: nat) {
    && (forall at :: at in s.kv.fences ==> s.kv.fences[at] != mark)
    && (forall o :: o in s.calls ==> s.calls[o].captured != Some(mark))
  }

  predicate SameMark(v: Write, w: Write) { v.PutFence? && w.PutFence? && v.mark == w.mark }

  /** Every refusal writes a mark of its own. */
  ghost predicate Marks(s: State) {
    var marks :=
      && (forall r :: r in s.flight && r.w.PutFence? ==> Unseen(s, r.w.mark))
      && (forall q, r :: q in s.flight && r in s.flight && SameMark(q.w, r.w) ==> q == r);
    marks
  }

  ghost predicate Positions(s: State) {
    forall o :: o in s.calls ==> Stands(s, o, s.calls[o])
  }

  ghost predicate Inv(s: State) {
    var inv := Generations(s) && Records(s) && Chunks(s) && Entries(s) && Flight(s) && Marks(s) && Positions(s);
    inv
  }

  lemma InitialInv()
    ensures Inv(Initial)
  {
  }

  /* ---- What only grows -------------------------------------------------------------------- */

  /** Nothing a reader or writer relies on is taken back. */
  ghost predicate Onward(s: State, t: State) {
    var onward :=
      && s.shown <= t.shown && s.replaced <= t.replaced && s.bound <= t.bound && s.used <= t.used && s.past <= t.past
      && (forall v :: v in s.owner ==> v in t.owner && t.owner[v] == s.owner[v])
      && (forall o :: o in s.calls ==>
            && o in t.calls && t.calls[o].kind == s.calls[o].kind && t.calls[o].root == s.calls[o].root
            && t.calls[o].chunks == s.calls[o].chunks && t.calls[o].revision == s.calls[o].revision
            && t.calls[o].fence == s.calls[o].fence && t.calls[o].captured == s.calls[o].captured
            && t.calls[o].stored == s.calls[o].stored && s.calls[o].sent <= t.calls[o].sent);
    onward
  }

  lemma WrittenOnward(s: State, t: State, revision: nat, root: Root)
    requires Onward(s, t) && Written(s, revision, root)
    ensures Written(t, revision, root) && Parts(t, revision) == Parts(s, revision)
  {
  }

  lemma ReadingOnward(s: State, t: State, c: Call, m: Manifest, read: seq<string>)
    requires Onward(s, t) && Lasting(s, t) && Reading(s, c, m, read)
    ensures Reading(t, c, m, read)
  {
    WrittenOnward(s, t, m.revision, c.root);
    if m.revision !in t.replaced { StoredOnward(s, t, c.root, m.revision, m.count); }
  }

  lemma GetOnward(s: State, t: State, o: nat, c: Call)
    requires Onward(s, t) && Lasting(s, t) && GetStands(s, o, c) && forall r :: r in t.flight && r.op == o ==> r in s.flight
    ensures GetStands(t, o, c)
  {
    if c.pc.GChunk? || c.pc.GCheck? || c.pc.GClaimW? || c.pc.TCheck? || c.pc.TClaimW? || c.pc.TFence? {
      ReadingOnward(s, t, c, c.pc.m, c.pc.read);
    } else if c.pc.Done? && (c.pc.out.Hit? || c.pc.out.Stood?) {
      ServedOnward(s, t, c.root, c.pc.out.value);
    }
  }

  lemma OtherOnward(s: State, t: State, o: nat, c: Call)
    requires OtherStands(s, o, c) && forall r :: r in t.flight && r.op == o ==> r in s.flight
    ensures OtherStands(t, o, c)
  {
  }

  lemma ServedOnward(s: State, t: State, root: Root, value: string)
    requires Onward(s, t) && Served(s, root, value)
    ensures Served(t, root, value)
  {
    var v :| v in s.shown && Written(s, v, root) && value == Concat(Parts(s, v));
    WrittenOnward(s, t, v, root);
  }

  /** Chunks disappear only by expiry, unless their revision has been swapped out. */
  ghost predicate Lasting(s: State, t: State) {
    var lasting :=
      && s.expired <= t.expired
      && (forall k :: k in s.kv.chunks && k.revision !in t.replaced ==> k in t.kv.chunks || k in t.expired);
    lasting
  }

  lemma StoredOnward(s: State, t: State, root: Root, revision: nat, n: nat)
    requires Lasting(s, t) && Stored(s, root, revision, n) && revision !in t.replaced
    ensures Stored(t, root, revision, n)
  {
  }

  /** No new publication by this call is shown or in flight. */
  ghost predicate Silent(s: State, t: State, o: nat, c: Call) {
    var silent :=
      && (c.revision !in s.shown ==> c.revision !in t.shown || exists r :: r in s.flight && r.op == o && r.w.Publish?)
      && (forall r :: r in t.flight && r.op == o ==> r in s.flight);
    silent
  }

  lemma SetOnward(s: State, t: State, o: nat, c: Call)
    requires Onward(s, t) && Lasting(s, t) && Silent(s, t, o, c) && SetStands(s, o, c)
    requires c.revision in t.replaced ==> c.revision in t.shown
    ensures SetStands(t, o, c)
  {
    if c.pc.SChunk? || c.pc.SChunkW? {
      StoredOnward(s, t, c.root, c.revision, c.pc.i);
    } else if c.pc.SCheck? || c.pc.SClaimW? || c.pc.SRead? {
      StoredOnward(s, t, c.root, c.revision, |c.chunks|);
    }
  }
}
