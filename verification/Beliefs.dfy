/**
The belief store's tables and what each statement does to them
(crates/bastion-memory/src/sqlite.rs). An operation is described row by row:
which row its WHERE clause selects, and what its SET clause makes of it.
Weights are reals; times are parameters.
*/
module Beliefs {
  import opened Events

  datatype Kind = Factual | Procedural

  datatype Privacy = CloudOk | LocalOnly

  datatype Feedback = Helpful | Harmful | Neutral

  datatype Row = Row(
    owner: string,
    persona: Option<string>,
    content: string,
    weight: real,
    revoked: bool,
    revokedAt: Option<int>,
    isCore: bool,
    tier: Option<Privacy>,
    kind: Kind,
    keywords: seq<string>,
    issue: Option<string>,
    helpful: nat,
    harmful: nat,
    neutral: nat,
    validFrom: Option<int>,
    validUntil: Option<int>,
    supersededBy: Option<int>,
    supersedesAt: Option<int>,
    createdAt: int)

  datatype Provenance = Provenance(belief: nat, session: string, source: string)

  datatype Correction = Correction(id: nat, belief: nat, owner: string, tier: Option<Privacy>, createdAt: int)

  /** The three tables, each with the next id it will give out. */
  datatype Db = Db(
    beliefs: map<nat, Row>,
    nextBelief: nat,
    provenance: seq<Provenance>,
    queue: seq<Correction>,
    nextItem: nat)

  function Empty(): Db {
    Db(map[], 1, [], [], 1)
  }

  /** The operations that write. */
  datatype Op =
    | StoreBelief(owner: string, persona: Option<string>, content: string, session: string, source: string,
                  isCore: bool, tier: Option<Privacy>, now: int)
    | StoreProcedural(owner: string, persona: Option<string>, content: string, session: string, source: string,
                      tier: Option<Privacy>, keywords: seq<string>, issue: Option<string>, now: int)
    | Revoke(owner: string, id: nat, now: int)
    | Supersede(owner: string, id: nat, newId: nat, now: int)
    | Reinforce(owner: string, id: nat, delta: real)
    | ReinforcePersona(owner: string, id: nat, delta: real)
    | WeakenPersona(owner: string, id: nat, delta: real)
    | Evaporate(owner: string, factor: real, floor: real)
    | RecordOutcome(owner: string, id: nat, feedback: Feedback)
    | RecordCorrection(owner: string, id: nat, tier: Option<Privacy>, now: int)
    | TakeCorrections(owner: string)

  const CAP: real := 100.0

  function Min(a: real, b: real): real { if a <= b then a else b }

  function Max(a: real, b: real): real { if a >= b then a else b }

  /** A product kept apart, so that proofs reason about it by its few laws. */
  function Times(a: real, b: real): real { a * b }

  // ---- one row

  /** A row the global playbook operations select. */
  predicate Trail(r: Row) {
    !r.revoked && r.kind == Procedural && r.persona.None?
  }

  /** A row the persona playbook operations select. */
  predicate PersonaTrail(r: Row) {
    !r.revoked && r.kind == Procedural && r.persona.Some?
  }

  predicate ValidDecay(factor: real, floor: real) {
    0.0 <= factor <= 1.0 && floor >= 0.0
  }

  predicate Decays(r: Row) {
    Trail(r) && r.weight > 0.0
  }

  /** What `op` makes of row `r` stored under `id`. */
  function RowAfter(op: Op, id: nat, r: Row): Row {
    if op.owner != r.owner then r else
    match op
    case Revoke(_, target, now) =>
      if id == target then r.(weight := 0.0, revoked := true, revokedAt := Some(now)) else r
    case Supersede(_, target, newId, now) =>
      if id == target then r.(supersededBy := Some(newId), supersedesAt := Some(now)) else r
    case Reinforce(_, target, delta) =>
      if id == target && delta >= 0.0 && Trail(r) then r.(weight := Min(r.weight + delta, CAP)) else r
    case ReinforcePersona(_, target, delta) =>
      if id == target && delta >= 0.0 && PersonaTrail(r) then r.(weight := Min(r.weight + delta, CAP)) else r
    case WeakenPersona(_, target, delta) =>
      if id == target && delta >= 0.0 && PersonaTrail(r) then r.(weight := Max(r.weight - delta, 0.0)) else r
    case Evaporate(_, factor, floor) =>
      if ValidDecay(factor, floor) && Decays(r) then r.(weight := Max(floor, Times(r.weight, factor))) else r
    case RecordOutcome(_, target, feedback) =>
      if id != target then r else Counted(r, feedback)
    case _ => r
  }

  function Counted(r: Row, feedback: Feedback): Row {
    match feedback
    case Helpful => r.(helpful := r.helpful + 1)
    case Harmful => r.(harmful := r.harmful + 1)
    case Neutral => r.(neutral := r.neutral + 1)
  }

  /** The row a store operation inserts. */
  function NewRow(op: Op): Row
    requires op.StoreBelief? || op.StoreProcedural?
  {
    match op
    case StoreBelief(owner, persona, content, _, _, isCore, tier, now) =>
      Row(owner, persona, content, 1.0, false, None, isCore, tier, Factual, [], None, 0, 0, 0,
          None, None, None, None, now)
    case StoreProcedural(owner, persona, content, _, _, tier, keywords, issue, now) =>
      Row(owner, persona, content, 1.0, false, None, false, tier, Procedural, keywords, issue, 0, 0, 0,
          None, None, None, None, now)
  }

  // ---- the tables

  predicate Owns(db: Db, owner: string, id: nat) {
    id in db.beliefs && db.beliefs[id].owner == owner
  }

  function Updated(db: Db, op: Op): map<nat, Row> {
    map id | id in db.beliefs :: RowAfter(op, id, db.beliefs[id])
  }

  /** The queued corrections of `owner`, in table order. */
  function Queued(queue: seq<Correction>, owner: string): seq<Correction> {
    if queue == [] then []
    else if queue[0].owner == owner then [queue[0]] + Queued(queue[1..], owner)
    else Queued(queue[1..], owner)
  }

  function Others(queue: seq<Correction>, owner: string): seq<Correction> {
    if queue == [] then []
    else if queue[0].owner != owner then [queue[0]] + Others(queue[1..], owner)
    else Others(queue[1..], owner)
  }

  function NextItem(db: Db, op: Op): Correction
    requires op.RecordCorrection?
  {
    Correction(db.nextItem, op.id, op.owner, op.tier, op.now)
  }

  function Apply(db: Db, op: Op): Db {
    match op
    case StoreBelief(_, _, _, session, source, _, _, _) =>
      db.(beliefs := db.beliefs[db.nextBelief := NewRow(op)], nextBelief := db.nextBelief + 1,
          provenance := db.provenance + [Provenance(db.nextBelief, session, source)])
    case StoreProcedural(_, _, _, session, source, _, _, _, _) =>
      db.(beliefs := db.beliefs[db.nextBelief := NewRow(op)], nextBelief := db.nextBelief + 1,
          provenance := db.provenance + [Provenance(db.nextBelief, session, source)])
    case RecordCorrection(owner, id, _, _) =>
      if Owns(db, owner, id)
      then db.(queue := db.queue + [NextItem(db, op)], nextItem := db.nextItem + 1)
      else db
    case TakeCorrections(owner) => db.(queue := Others(db.queue, owner))
    case _ => db.(beliefs := Updated(db, op))
  }

  // ---- reading

  predicate InWindow(r: Row, now: int) {
    (r.validFrom.None? || r.validFrom.value <= now) && (r.validUntil.None? || r.validUntil.value >= now)
  }

  /** retrieve_tagged's WHERE clause. An untagged query matches untagged rows only. */
  predicate MatchesTagged(r: Row, owner: string, persona: Option<string>, now: int) {
    && r.owner == owner && (r.persona.None? || (persona.Some? && r.persona == persona))
    && !r.revoked && r.weight > 0.0 && InWindow(r, now)
  }

  predicate MatchesCore(r: Row, owner: string) {
    r.owner == owner && r.isCore && !r.revoked
  }

  predicate MatchesAll(r: Row, owner: string) {
    r.owner == owner && !r.revoked && r.weight > 0.0
  }

  /** The provenance rows of one belief. */
  function RowsOf(provenance: seq<Provenance>, id: nat): seq<(string, string)> {
    if provenance == [] then []
    else
      var rest, last := RowsOf(provenance[..|provenance| - 1], id), provenance[|provenance| - 1];
      if last.belief == id then rest + [(last.session, last.source)] else rest
  }

  function ProvenanceFor(db: Db, owner: string, id: nat): seq<(string, string)> {
    if Owns(db, owner, id) then RowsOf(db.provenance, id) else []
  }

  // ---- runs

  function Run(db: Db, ops: seq<Op>): Db
    decreases |ops|
  {
    if ops == [] then db else Run(Apply(db, ops[0]), ops[1..])
  }

  lemma {:induction false} RunAppend(db: Db, a: seq<Op>, b: seq<Op>)
    ensures Run(db, a + b) == Run(Run(db, a), b)
    decreases |a|
  {
    if a == [] {
      assert a + b == b;
    } else {
      RunAppend(Apply(db, a[0]), a[1..], b);
      assert (a + b)[1..] == a[1..] + b;
    }
  }
}
