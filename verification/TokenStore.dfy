/**
 The deployment's key-value store as the agent token manager uses it: four key
 families (token records, digest lookups, one slot per agent, write-once
 adoption claims) and the conditional writes the manager issues on them. A
 write is atomic when it lands; stored JSON is modelled by the typed value it
 encodes, so two raw values are equal exactly when the typed values are.
 */
module TokenStore {
  import opened Options

  type Id = nat
  type Digest = nat
  type Agent = nat
  type Time = nat

  /** The only authority admission consults. `revocation` is random per revoking call. */
  datatype Slot =
    | Issued(token: Id, at: Time)
    | Revoked(at: Time, revocation: Id)

  /** `human` stands for a bound principal and `retired` for a legacy revocation time. */
  datatype Record = Record(id: Id, hash: Digest, prefix: nat, created: Time,
                           agent: Option<Agent>, human: bool, retired: bool)

  datatype Kv = Kv(records: map<Id, Record>, lookups: map<Digest, Id>,
                   slots: map<Agent, Slot>, claims: map<Id, Agent>)

  /** A presented bearer secret: its digest and its first twelve characters. */
  datatype Token = Token(digest: Digest, prefix: nat)

  datatype Write =
    | PutRecord(rec: Record)
    | DropRecord(rec: Record)
    | PutLookup(hash: Digest, id: Id)
    | DropLookup(hash: Digest, id: Id)
    | MoveLookup(hash: Digest, source: Id, target: Id)
    | Claim(legacy: Id, agent: Agent)
    | SwapSlot(agent: Agent, was: Option<Slot>, becomes: Slot)

  function SlotOf(kv: Kv, a: Agent): Option<Slot> {
    if a in kv.slots then Some(kv.slots[a]) else None
  }

  predicate Named(kv: Kv, a: Agent, id: Id) {
    a in kv.slots && kv.slots[a].Issued? && kv.slots[a].token == id
  }

  /** Whether the write takes effect: a plain set always does, a compare-and-set when the key holds what it names. */
  predicate Takes(kv: Kv, w: Write) {
    match w
    case PutRecord(_) => true
    case DropRecord(rec) => rec.id in kv.records && kv.records[rec.id] == rec
    case PutLookup(_, _) => true
    case DropLookup(hash, id) => hash in kv.lookups && kv.lookups[hash] == id
    case MoveLookup(hash, source, _) => hash in kv.lookups && kv.lookups[hash] == source
    case Claim(legacy, _) => legacy !in kv.claims
    case SwapSlot(a, was, _) => SlotOf(kv, a) == was
  }

  function Landed(kv: Kv, w: Write): Kv {
    if !Takes(kv, w) then kv else
    match w
    case PutRecord(rec) => kv.(records := kv.records[rec.id := rec])
    case DropRecord(rec) => kv.(records := kv.records - {rec.id})
    case PutLookup(hash, id) => kv.(lookups := kv.lookups[hash := id])
    case DropLookup(hash, _) => kv.(lookups := kv.lookups - {hash})
    case MoveLookup(hash, _, target) => kv.(lookups := kv.lookups[hash := target])
    case Claim(legacy, a) => kv.(claims := kv.claims[legacy := a])
    case SwapSlot(a, _, becomes) => kv.(slots := kv.slots[a := becomes])
  }

  /** The facts one record must show before its slot is consulted for `tok`. */
  predicate Presentable(r: Record, id: Id, tok: Token, order: seq<Agent>) {
    && r.id == id && !r.retired && r.hash == tok.digest && r.prefix == tok.prefix
    && !r.human && r.agent.Some? && r.agent.value in order
  }

  /** The token admits as agent `a` in one store: lookup, record and slot all agree. */
  predicate Admits(kv: Kv, order: seq<Agent>, tok: Token, a: Agent) {
    && tok.digest in kv.lookups
    && var id := kv.lookups[tok.digest];
    && id in kv.records
    && Presentable(kv.records[id], id, tok, order)
    && kv.records[id].agent == Some(a)
    && Named(kv, a, id)
  }

  ghost predicate AdmitsAny(kv: Kv, order: seq<Agent>, tok: Token) {
    exists a :: Admits(kv, order, tok, a)
  }
}
