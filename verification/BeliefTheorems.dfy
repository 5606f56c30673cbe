/** What every sequence of belief-store operations keeps. */
module BeliefTheorems {
  import opened Events
  import opened Beliefs

  // ---- rows

  ghost predicate RowOk(r: Row) {
    && r.weight >= 0.0
    && (r.revoked ==> r.weight == 0.0)
    && (r.isCore ==> r.kind == Factual)
    && (!r.revoked && r.kind == Factual ==> r.weight == 1.0)
    && r.validFrom.None? && r.validUntil.None?
  }

  lemma RowStep(op: Op, id: nat, r: Row)
    requires RowOk(r)
    ensures RowOk(RowAfter(op, id, r))
    ensures r.revoked ==> RowAfter(op, id, r).revoked
    ensures Fixed(r, RowAfter(op, id, r))
  {
    if op.Evaporate? && ValidDecay(op.factor, op.floor) {
      Scaled(r.weight, op.factor);
    }
  }

  /** What a row keeps for ever: everything but weight, revocation, counters and supersession. */
  ghost predicate Fixed(a: Row, b: Row) {
    && a.owner == b.owner && a.persona == b.persona && a.content == b.content && a.isCore == b.isCore
    && a.kind == b.kind && a.tier == b.tier && a.keywords == b.keywords && a.issue == b.issue
    && a.createdAt == b.createdAt && a.validFrom == b.validFrom && a.validUntil == b.validUntil
  }

  // ---- the store invariant

  ghost predicate Safe(db: Db) {
    && (forall id :: id in db.beliefs ==> id < db.nextBelief && RowOk(db.beliefs[id]))
    && (forall id :: |RowsOf(db.provenance, id)| == if id in db.beliefs then 1 else 0)
    && QueueOk(db)
  }

  ghost predicate QueueOk(db: Db) {
    && (forall i :: 0 <= i < |db.queue| ==> db.queue[i].id < db.nextItem)
    && (forall i :: 0 <= i < |db.queue| ==> Owns(db, db.queue[i].owner, db.queue[i].belief))
    && DistinctIds(db.queue)
  }

  lemma EmptySafe()
    ensures Safe(Empty())
  {
  }

  lemma {:induction false} OthersKeep(queue: seq<Correction>, owner: string)
    ensures forall c :: c in Others(queue, owner) <==> c in queue && c.owner != owner
  {
    if queue != [] {
      OthersKeep(queue[1..], owner);
      assert queue == [queue[0]] + queue[1..];
    }
  }

  ghost predicate DistinctIds(queue: seq<Correction>) {
    forall i, j :: 0 <= i < j < |queue| ==> queue[i].id != queue[j].id
  }

  lemma {:induction false} OthersDistinct(queue: seq<Correction>, owner: string)
    requires DistinctIds(queue)
    ensures DistinctIds(Others(queue, owner))
  {
    if queue != [] {
      OthersDistinct(queue[1..], owner);
      OthersKeep(queue[1..], owner);
      var rest := Others(queue[1..], owner);
      forall k | 0 <= k < |rest|
        ensures rest[k].id != queue[0].id
      {
        assert rest[k] in queue[1..];
      }
    }
  }

  lemma TakeStep(db: Db, owner: string)
    requires Safe(db)
    ensures Safe(Apply(db, TakeCorrections(owner)))
  {
    OthersKeep(db.queue, owner);
    OthersDistinct(db.queue, owner);
    var rest := Others(db.queue, owner);
    forall i | 0 <= i < |rest|
      ensures rest[i].id < db.nextItem && Owns(db, rest[i].owner, rest[i].belief)
    {
      assert rest[i] in db.queue;
    }
  }

  lemma StoreStep(db: Db, op: Op)
    requires Safe(db) && (op.StoreBelief? || op.StoreProcedural?)
    ensures Safe(Apply(db, op))
  {
    var after := Apply(db, op);
    forall id: nat
      ensures |RowsOf(after.provenance, id)| == if id in after.beliefs then 1 else 0
    {
      assert after.provenance[..|after.provenance| - 1] == db.provenance;
      assert |RowsOf(db.provenance, id)| == if id in db.beliefs then 1 else 0;
    }
  }

  lemma SafeStep(db: Db, op: Op)
    requires Safe(db)
    ensures Safe(Apply(db, op))
  {
    match op
    case StoreBelief(_, _, _, _, _, _, _, _) => StoreStep(db, op);
    case StoreProcedural(_, _, _, _, _, _, _, _, _) => StoreStep(db, op);
    case RecordCorrection(_, _, _, _) =>
    case TakeCorrections(owner) => TakeStep(db, owner);
    case _ => UpdateStep(db, op);
  }

  lemma UpdateStep(db: Db, op: Op)
    requires Safe(db)
    requires !op.StoreBelief? && !op.StoreProcedural? && !op.RecordCorrection? && !op.TakeCorrections?
    ensures Safe(Apply(db, op))
  {
    hide RowOk, RowAfter;
    forall id | id in db.beliefs
      ensures RowOk(RowAfter(op, id, db.beliefs[id])) && RowAfter(op, id, db.beliefs[id]).owner == db.beliefs[id].owner
    {
      RowStep(op, id, db.beliefs[id]);
    }
  }

  /**
  Over every run: a revoked row has weight 0, an unrevoked factual row weight
  1, each belief exactly one provenance row, and each queued correction names
  an existing belief of its own owner.
  */
  lemma {:induction false} SafeRun(db: Db, ops: seq<Op>)
    requires Safe(db)
    ensures Safe(Run(db, ops))
    decreases |ops|
  {
    if ops != [] {
      SafeStep(db, ops[0]);
      SafeRun(Apply(db, ops[0]), ops[1..]);
    }
  }

  // ---- rows are for ever

  /** `later` still has every row of `db`, with its fixed part, revoked if it was. */
  ghost predicate Extends(db: Db, later: Db) {
    forall id :: id in db.beliefs ==>
      && id in later.beliefs && Fixed(db.beliefs[id], later.beliefs[id])
      && (db.beliefs[id].revoked ==> later.beliefs[id].revoked)
      && RowsOf(later.provenance, id) == RowsOf(db.provenance, id)
  }

  lemma ExtendsStep(db: Db, op: Op)
    requires Safe(db)
    ensures Extends(db, Apply(db, op))
  {
    var after := Apply(db, op);
    forall id | id in db.beliefs
      ensures id in after.beliefs && Fixed(db.beliefs[id], after.beliefs[id])
      ensures db.beliefs[id].revoked ==> after.beliefs[id].revoked
      ensures RowsOf(after.provenance, id) == RowsOf(db.provenance, id)
    {
      RowStep(op, id, db.beliefs[id]);
      if op.StoreBelief? || op.StoreProcedural? {
        assert after.provenance[..|after.provenance| - 1] == db.provenance;
      }
    }
  }

  /** No row is ever removed or rewritten, and no revocation undone. */
  lemma {:induction false} RowsRemain(db: Db, ops: seq<Op>)
    requires Safe(db)
    ensures Extends(db, Run(db, ops))
    decreases |ops|
  {
    if ops != [] {
      hide Safe, Fixed;
      var next := Apply(db, ops[0]);
      ExtendsStep(db, ops[0]);
      SafeStep(db, ops[0]);
      RowsRemain(next, ops[1..]);
      var last := Run(next, ops[1..]);
      forall id | id in db.beliefs
        ensures Fixed(db.beliefs[id], last.beliefs[id])
      {
        FixedTrans(db.beliefs[id], next.beliefs[id], last.beliefs[id]);
      }
    } else {
      assert forall id :: id in db.beliefs ==> Fixed(db.beliefs[id], db.beliefs[id]);
    }
  }

  lemma FixedTrans(a: Row, b: Row, c: Row)
    requires Fixed(a, b) && Fixed(b, c)
    ensures Fixed(a, c)
  {
  }

  /** A belief revoked by its owner has weight 0 and is in no retrieval, ever after. */
  lemma RevokedForEver(db: Db, owner: string, id: nat, at: int, ops: seq<Op>, reader: string,
                       persona: Option<string>, now: int)
    requires Safe(db) && Owns(db, owner, id)
    ensures var later := Run(Apply(db, Revoke(owner, id, at)), ops);
      && Owns(later, owner, id) && later.beliefs[id].revoked && later.beliefs[id].weight == 0.0
      && !MatchesTagged(later.beliefs[id], reader, persona, now)
      && !MatchesCore(later.beliefs[id], reader) && !MatchesAll(later.beliefs[id], reader)
  {
    var revoked := Apply(db, Revoke(owner, id, at));
    SafeStep(db, Revoke(owner, id, at));
    assert revoked.beliefs[id].revoked;
    RowsRemain(revoked, ops);
    SafeRun(revoked, ops);
    assert RowOk(Run(revoked, ops).beliefs[id]);
  }

  /**
  load_core does not ask for a positive weight and retrieve_tagged has a
  validity window; neither makes a difference on a reachable store.
  */
  lemma GuardsRedundant(ops: seq<Op>, id: nat, owner: string, persona: Option<string>, now: int)
    requires id in Run(Empty(), ops).beliefs
    ensures var r := Run(Empty(), ops).beliefs[id];
      && (MatchesCore(r, owner) ==> MatchesAll(r, owner) && r.weight == 1.0)
      && (MatchesTagged(r, owner, persona, now) <==>
            MatchesAll(r, owner) && (r.persona.None? || r.persona == persona))
  {
    EmptySafe();
    SafeRun(Empty(), ops);
    assert RowOk(Run(Empty(), ops).beliefs[id]);
  }

  /** The owner's own revocation of `id` is among the operations. */
  ghost predicate RevokedIn(ops: seq<Op>, owner: string, id: nat) {
    exists i :: 0 <= i < |ops| && ops[i].Revoke? && ops[i].owner == owner && ops[i].id == id
  }

  lemma RevokedInCons(ops: seq<Op>, owner: string, id: nat)
    requires ops != []
    ensures RevokedIn(ops, owner, id) <==>
      (ops[0].Revoke? && ops[0].owner == owner && ops[0].id == id) || RevokedIn(ops[1..], owner, id)
  {
    assert forall i :: 0 < i < |ops| ==> ops[1..][i - 1] == ops[i];
  }

  /** A row is revoked later exactly when its owner revoked it in between. */
  lemma {:induction false} RevokedExactly(db: Db, ops: seq<Op>, owner: string, id: nat)
    requires Safe(db) && Owns(db, owner, id) && !db.beliefs[id].revoked
    ensures Owns(Run(db, ops), owner, id)
    ensures Run(db, ops).beliefs[id].revoked <==> RevokedIn(ops, owner, id)
    decreases |ops|
  {
    if ops != [] {
      hide Safe, RevokedIn;
      var next := Apply(db, ops[0]);
      SafeStep(db, ops[0]);
      RevokedInCons(ops, owner, id);
      RevokedStep(db, ops[0], owner, id);
      if next.beliefs[id].revoked {
        RowsRemain(next, ops[1..]);
      } else {
        RevokedExactly(next, ops[1..], owner, id);
      }
    }
  }

  lemma RevokedStep(db: Db, op: Op, owner: string, id: nat)
    requires Safe(db) && Owns(db, owner, id) && !db.beliefs[id].revoked
    ensures Owns(Apply(db, op), owner, id)
    ensures Apply(db, op).beliefs[id].revoked <==> op.Revoke? && op.owner == owner && op.id == id
  {
  }

  // ---- what was stored is what is read

  /** Row `r` says what was given to the store operation. */
  ghost predicate AsStored(r: Row, op: Op)
    requires op.StoreBelief? || op.StoreProcedural?
  {
    && r.owner == op.owner && r.persona == op.persona && r.content == op.content
    && r.tier == op.tier && r.createdAt == op.now
    && (op.StoreBelief? ==> r.kind == Factual && r.isCore == op.isCore)
    && (op.StoreProcedural? ==> r.kind == Procedural && !r.isCore && r.keywords == op.keywords && r.issue == op.issue)
  }

  /** A belief starts with weight 1, unrevoked, unrated and not superseded. */
  ghost predicate Fresh(r: Row) {
    && r.weight == 1.0 && !r.revoked && r.revokedAt.None?
    && r.helpful == 0 && r.harmful == 0 && r.neutral == 0 && r.supersededBy.None? && r.supersedesAt.None?
  }

  /** A belief reads as it was stored, over every continuation. */
  lemma StoredAsGiven(db: Db, op: Op, ops: seq<Op>)
    requires Safe(db) && (op.StoreBelief? || op.StoreProcedural?)
    ensures db.nextBelief !in db.beliefs
    ensures db.nextBelief in Apply(db, op).beliefs && Fresh(Apply(db, op).beliefs[db.nextBelief])
    ensures var later := Run(Apply(db, op), ops);
      db.nextBelief in later.beliefs && AsStored(later.beliefs[db.nextBelief], op)
  {
    var after := Apply(db, op);
    assert AsStored(after.beliefs[db.nextBelief], op);
    SafeStep(db, op);
    RowsRemain(after, ops);
    hide Safe, Apply;
  }

  // ---- what is retrieved

  /**
  retrieve_all_beliefs returns a stored factual belief to its owner, and to
  nobody else, until the owner revokes it.
  */
  lemma FactRetrieved(db: Db, op: Op, ops: seq<Op>, reader: string)
    requires Safe(db) && op.StoreBelief?
    ensures var later := Run(Apply(db, op), ops);
      && db.nextBelief in later.beliefs && AsStored(later.beliefs[db.nextBelief], op)
      && (MatchesAll(later.beliefs[db.nextBelief], reader) <==>
            reader == op.owner && !RevokedIn(ops, op.owner, db.nextBelief))
  {
    StoredAsGiven(db, op, ops);
    FactLater(db, op, ops);
  }

  lemma FactLater(db: Db, op: Op, ops: seq<Op>)
    requires Safe(db) && op.StoreBelief?
    ensures var later := Run(Apply(db, op), ops);
      && Owns(later, op.owner, db.nextBelief) && RowOk(later.beliefs[db.nextBelief])
      && Fixed(NewRow(op), later.beliefs[db.nextBelief])
      && (later.beliefs[db.nextBelief].revoked <==> RevokedIn(ops, op.owner, db.nextBelief))
  {
    var after := Apply(db, op);
    SafeStep(db, op);
    hide RevokedIn;
    RevokedExactly(after, ops, op.owner, db.nextBelief);
    RowsRemain(after, ops);
    SafeRun(after, ops);
  }

  /** load_core returns it until then exactly when it was stored as a core belief. */
  lemma CoreFactLoaded(db: Db, op: Op, ops: seq<Op>, reader: string)
    requires Safe(db) && op.StoreBelief?
    ensures var later := Run(Apply(db, op), ops);
      && db.nextBelief in later.beliefs && AsStored(later.beliefs[db.nextBelief], op)
      && (MatchesCore(later.beliefs[db.nextBelief], reader) <==>
            reader == op.owner && op.isCore && !RevokedIn(ops, op.owner, db.nextBelief))
  {
    StoredAsGiven(db, op, ops);
    FactLater(db, op, ops);
  }

  /**
  retrieve_tagged returns it until then, at any time, exactly when it was
  stored without a persona or with the one asked for.
  */
  lemma TaggedFactRetrieved(db: Db, op: Op, ops: seq<Op>, reader: string, persona: Option<string>, now: int)
    requires Safe(db) && op.StoreBelief?
    ensures var later := Run(Apply(db, op), ops);
      && db.nextBelief in later.beliefs && AsStored(later.beliefs[db.nextBelief], op)
      && (MatchesTagged(later.beliefs[db.nextBelief], reader, persona, now) <==>
            && reader == op.owner && (op.persona.None? || op.persona == persona)
            && !RevokedIn(ops, op.owner, db.nextBelief))
  {
    StoredAsGiven(db, op, ops);
    FactLater(db, op, ops);
  }

  /**
  A stored trail of the global playbook is retrieved until its owner revokes
  it, if every evaporation has a positive floor.
  */
  lemma TrailRetrieved(db: Db, op: Op, ops: seq<Op>, reader: string)
    requires Safe(db) && Alive(db) && op.StoreProcedural? && op.persona.None?
    requires forall i :: 0 <= i < |ops| ==> Floored(ops[i])
    ensures var later := Run(Apply(db, op), ops);
      && db.nextBelief in later.beliefs && AsStored(later.beliefs[db.nextBelief], op)
      && (MatchesAll(later.beliefs[db.nextBelief], reader) <==>
            reader == op.owner && !RevokedIn(ops, op.owner, db.nextBelief))
  {
    StoredAsGiven(db, op, ops);
    var after := Apply(db, op);
    SafeStep(db, op);
    TrailsStayAlive(after, ops);
    hide RevokedIn, Floored;
    RevokedExactly(after, ops, op.owner, db.nextBelief);
    RowsRemain(after, ops);
  }

  /** Each belief has the one provenance row stored with it; other owners see none. */
  lemma ProvenanceKept(db: Db, op: Op, ops: seq<Op>, reader: string)
    requires Safe(db) && (op.StoreBelief? || op.StoreProcedural?)
    ensures ProvenanceFor(Run(Apply(db, op), ops), reader, db.nextBelief) ==
      if reader == op.owner then [(op.session, op.source)] else []
  {
    var after := Apply(db, op);
    SafeStep(db, op);
    RowsRemain(after, ops);
    assert after.provenance[..|after.provenance| - 1] == db.provenance;
    assert |RowsOf(db.provenance, db.nextBelief)| == 0;
    assert RowsOf(after.provenance, db.nextBelief) == [(op.session, op.source)];
  }

  // ---- owners

  /** Everything in the store that belongs to one owner. */
  ghost predicate SameFor(owner: string, a: Db, b: Db) {
    && (forall id :: Owns(a, owner, id) <==> Owns(b, owner, id))
    && (forall id :: Owns(a, owner, id) ==>
          a.beliefs[id] == b.beliefs[id] && RowsOf(a.provenance, id) == RowsOf(b.provenance, id))
    && Queued(a.queue, owner) == Queued(b.queue, owner)
  }

  lemma {:induction false} QueuedAppend(queue: seq<Correction>, c: Correction, owner: string)
    ensures Queued(queue + [c], owner) == Queued(queue, owner) + if c.owner == owner then [c] else []
  {
    if queue == [] {
      assert queue + [c] == [c] && [c][1..] == [];
    } else {
      QueuedAppend(queue[1..], c, owner);
      assert (queue + [c])[1..] == queue[1..] + [c];
    }
  }

  lemma {:induction false} QueuedOthers(queue: seq<Correction>, taker: string, owner: string)
    ensures Queued(Others(queue, taker), owner) == if owner == taker then [] else Queued(queue, owner)
  {
    if queue != [] {
      QueuedOthers(queue[1..], taker, owner);
      if queue[0].owner != taker {
        assert Others(queue, taker)[1..] == Others(queue[1..], taker);
      }
    }
  }

  lemma IsolationStep(db: Db, op: Op, owner: string)
    requires Safe(db) && op.owner != owner
    ensures SameFor(owner, db, Apply(db, op))
  {
    OwnRowsStay(db, op, owner);
    OwnQueueStays(db, op, owner);
    hide Safe, Apply, Queued;
  }

  lemma OwnRowsStay(db: Db, op: Op, owner: string)
    requires Safe(db) && op.owner != owner
    ensures forall id :: Owns(db, owner, id) <==> Owns(Apply(db, op), owner, id)
    ensures forall id :: Owns(db, owner, id) ==>
      && Apply(db, op).beliefs[id] == db.beliefs[id]
      && RowsOf(Apply(db, op).provenance, id) == RowsOf(db.provenance, id)
  {
    ExtendsStep(db, op);
    OwnRowsKept(db, op, owner);
    hide Safe, Apply, RowsOf, Fixed;
  }

  lemma OwnRowsKept(db: Db, op: Op, owner: string)
    requires op.owner != owner && forall id :: id in db.beliefs ==> id < db.nextBelief
    ensures forall id :: Owns(db, owner, id) <==> Owns(Apply(db, op), owner, id)
    ensures forall id :: Owns(db, owner, id) ==> Apply(db, op).beliefs[id] == db.beliefs[id]
  {
    hide Others, RowAfter;
    forall id | id in db.beliefs
      ensures db.beliefs[id].owner == owner ==> RowAfter(op, id, db.beliefs[id]) == db.beliefs[id]
      ensures RowAfter(op, id, db.beliefs[id]).owner == db.beliefs[id].owner
    {
      OwnerKept(op, id, db.beliefs[id]);
    }
  }

  /** An operation changes no owner, and only rows of its own. */
  lemma OwnerKept(op: Op, id: nat, r: Row)
    ensures RowAfter(op, id, r).owner == r.owner
    ensures op.owner != r.owner ==> RowAfter(op, id, r) == r
  {
  }

  lemma OwnQueueStays(db: Db, op: Op, owner: string)
    requires op.owner != owner
    ensures Queued(Apply(db, op).queue, owner) == Queued(db.queue, owner)
  {
    QueueStep(db, op, owner);
    hide Apply, Queued;
  }

  /** Whatever other owners do, an owner's beliefs, provenance and queue stay as they are. */
  lemma {:induction false} OwnerIsolation(db: Db, ops: seq<Op>, owner: string)
    requires Safe(db) && forall i :: 0 <= i < |ops| ==> ops[i].owner != owner
    ensures SameFor(owner, db, Run(db, ops))
    decreases |ops|
  {
    if ops != [] {
      hide Safe;
      IsolationStep(db, ops[0], owner);
      SafeStep(db, ops[0]);
      OwnerIsolation(Apply(db, ops[0]), ops[1..], owner);
    }
  }

  // ---- the correction queue

  /** The corrections `owner` recorded over a run. */
  ghost function Recorded(db: Db, ops: seq<Op>, owner: string): multiset<Correction>
    decreases |ops|
  {
    if ops == [] then multiset{}
    else
      var rest := Recorded(Apply(db, ops[0]), ops[1..], owner);
      if ops[0].RecordCorrection? && ops[0].owner == owner && Owns(db, owner, ops[0].id)
      then multiset{Correction(db.nextItem, ops[0].id, owner, ops[0].tier, ops[0].now)} + rest
      else rest
  }

  /** The corrections the takes by `owner` returned over a run. */
  ghost function Delivered(db: Db, ops: seq<Op>, owner: string): multiset<Correction>
    decreases |ops|
  {
    if ops == [] then multiset{}
    else
      var rest := Delivered(Apply(db, ops[0]), ops[1..], owner);
      if ops[0] == TakeCorrections(owner) then multiset(Queued(db.queue, owner)) + rest else rest
  }

  /** What was queued and recorded is what was delivered and is still queued. */
  lemma {:induction false} QueueConserved(db: Db, ops: seq<Op>, owner: string)
    ensures multiset(Queued(db.queue, owner)) + Recorded(db, ops, owner) ==
      Delivered(db, ops, owner) + multiset(Queued(Run(db, ops).queue, owner))
    decreases |ops|
  {
    if ops == [] {
      assert Run(db, ops) == db;
    } else {
      var op, next := ops[0], Apply(db, ops[0]);
      QueueConserved(next, ops[1..], owner);
      QueueStep(db, op, owner);
      hide Queued, Apply, Owns;
      var before := Queued(db.queue, owner);
      var recorded, delivered := Recorded(next, ops[1..], owner), Delivered(next, ops[1..], owner);
      var left := multiset(Queued(Run(next, ops[1..]).queue, owner));
      assert multiset(Queued(next.queue, owner)) + recorded == delivered + left;
      if op == TakeCorrections(owner) {
        assert multiset(Queued(next.queue, owner)) == multiset{};
        assert Recorded(db, ops, owner) == recorded;
        assert Delivered(db, ops, owner) == multiset(before) + delivered;
        assert recorded == delivered + left;
      } else if op.RecordCorrection? && op.owner == owner && Owns(db, owner, op.id) {
        assert multiset(before + [NextItem(db, op)]) == multiset(before) + multiset{NextItem(db, op)};
      }
    }
  }

  lemma QueueStep(db: Db, op: Op, owner: string)
    ensures Queued(Apply(db, op).queue, owner) ==
      if op == TakeCorrections(owner) then []
      else if op.RecordCorrection? && op.owner == owner && Owns(db, owner, op.id)
      then Queued(db.queue, owner) + [NextItem(db, op)]
      else Queued(db.queue, owner)
  {
    if op.TakeCorrections? {
      QueuedOthers(db.queue, op.owner, owner);
    } else if op.RecordCorrection? && Owns(db, op.owner, op.id) {
      QueuedAppend(db.queue, NextItem(db, op), owner);
    }
  }

  lemma {:induction false} RecordedIds(db: Db, ops: seq<Op>, owner: string)
    ensures forall c :: c in Recorded(db, ops, owner) ==> c.id >= db.nextItem && c.owner == owner
    ensures forall c :: Recorded(db, ops, owner)[c] <= 1
    decreases |ops|
  {
    if ops != [] {
      RecordedIds(Apply(db, ops[0]), ops[1..], owner);
    }
  }

  /** From an empty store every correction is delivered at most once, to its owner, and none is made up. */
  lemma DeliveredOnce(ops: seq<Op>, owner: string)
    ensures forall c :: c in Delivered(Empty(), ops, owner) ==>
      && c.owner == owner && c in Recorded(Empty(), ops, owner)
      && Delivered(Empty(), ops, owner)[c] == 1 && c !in Queued(Run(Empty(), ops).queue, owner)
  {
    QueueConserved(Empty(), ops, owner);
    RecordedIds(Empty(), ops, owner);
    var delivered, left := Delivered(Empty(), ops, owner), Queued(Run(Empty(), ops).queue, owner);
    assert multiset(Queued(Empty().queue, owner)) == multiset{};
    var recorded := Recorded(Empty(), ops, owner);
    assert recorded == delivered + multiset(left);
    forall c | c in delivered
      ensures delivered[c] == 1 && c !in left && c in recorded
    {
      assert recorded[c] == delivered[c] + multiset(left)[c];
    }
  }

  // ---- weights

  function Power(x: real, k: nat): real {
    if k == 0 then 1.0 else Times(x, Power(x, k - 1))
  }

  function Repeat(op: Op, k: nat): seq<Op> {
    seq(k, _ => op)
  }

  lemma Scaled(a: real, b: real)
    requires 0.0 <= a && 0.0 <= b <= 1.0
    ensures 0.0 <= Times(a, b) <= a && Times(b, a) == Times(a, b)
    ensures Times(a, b) == 0.0 <==> a == 0.0 || b == 0.0
  {
    Monotone(b, 1.0, a);
    Monotone(0.0, b, a);
    if a > 0.0 && b > 0.0 {
      assert a * b > 0.0;
    }
  }

  lemma Associate(a: real, b: real, c: real)
    ensures Times(a, Times(c, b)) == Times(Times(a, b), c)
  {
  }

  lemma Monotone(a: real, b: real, c: real)
    requires a <= b && c >= 0.0
    ensures Times(a, c) <= Times(b, c)
  {
  }

  lemma Unit(a: real)
    ensures Times(a, 1.0) == a
  {
  }

  lemma {:induction false} PowerBounds(x: real, k: nat)
    requires 0.0 <= x <= 1.0
    ensures 0.0 <= Power(x, k) <= 1.0
    ensures Power(x, k) == 0.0 <==> x == 0.0 && k > 0
  {
    hide Times;
    if k > 0 {
      PowerBounds(x, k - 1);
      Scaled(Power(x, k - 1), x);
    }
  }

  /** What k evaporations are to make of a positive weight. */
  function Decayed(w: real, factor: real, floor: real, k: nat): real {
    Max(floor, Times(w, Power(factor, k)))
  }

  /** Only a zero factor with a zero floor reaches zero. */
  lemma DecayedToZero(w: real, factor: real, floor: real, k: nat)
    requires w > 0.0 && ValidDecay(factor, floor) && k > 0
    ensures Decayed(w, factor, floor, k) >= 0.0
    ensures Decayed(w, factor, floor, k) == 0.0 <==> factor == 0.0 && floor == 0.0
  {
    hide Power, Times;
    PowerBounds(factor, k);
    Scaled(w, Power(factor, k));
  }

  /** Evaporating once more: the floor commutes with the factor. */
  lemma DecayedStep(w: real, factor: real, floor: real, k: nat)
    requires w > 0.0 && ValidDecay(factor, floor)
    ensures Decayed(w, factor, floor, k + 1) == Max(floor, Times(Decayed(w, factor, floor, k), factor))
    ensures Decayed(w, factor, floor, 1) == Max(floor, Times(w, factor))
  {
    hide Times;
    var p := Power(factor, k);
    Associate(w, p, factor);
    Scaled(floor, factor);
    if Times(w, p) <= floor {
      Monotone(Times(w, p), floor, factor);
    }
    assert Power(factor, 1) == Times(factor, Power(factor, 0));
    Unit(factor);
  }

  /** k evaporations turn a trail's weight w into max(floor, w * factor^k), and nothing else. */
  lemma {:induction false} EvaporationClosedForm(db: Db, id: nat, factor: real, floor: real, k: nat)
    requires id in db.beliefs && Decays(db.beliefs[id]) && ValidDecay(factor, floor) && k > 0
    ensures var later := Run(db, Repeat(Evaporate(db.beliefs[id].owner, factor, floor), k));
      && id in later.beliefs
      && later.beliefs[id] == db.beliefs[id].(weight := Decayed(db.beliefs[id].weight, factor, floor, k))
  {
    hide Decayed, Max, Times;
    var r := db.beliefs[id];
    var op := Evaporate(r.owner, factor, floor);
    var before := Repeat(op, k - 1);
    assert Repeat(op, k) == before + [op];
    RunAppend(db, before, [op]);
    var mid := Run(db, before);
    assert Run(mid, [op]) == Apply(mid, op) by {
      assert [op][1..] == [];
    }
    DecayedStep(r.weight, factor, floor, k - 1);
    if k > 1 {
      EvaporationClosedForm(db, id, factor, floor, k - 1);
      DecayedToZero(r.weight, factor, floor, k - 1);
      DecayedToZero(r.weight, factor, floor, k);
    } else {
      assert before == [];
    }
    assert Apply(mid, op).beliefs[id] == RowAfter(op, id, mid.beliefs[id]);
  }

  ghost predicate Alive(db: Db) {
    forall id :: id in db.beliefs && Trail(db.beliefs[id]) ==> db.beliefs[id].weight > 0.0
  }

  /** An accepted evaporation has a positive floor. */
  ghost predicate Floored(op: Op) {
    op.Evaporate? && ValidDecay(op.factor, op.floor) ==> op.floor > 0.0
  }

  /** No trail dies but by revocation, if every evaporation has a positive floor. */
  lemma TrailsStayAlive(db: Db, ops: seq<Op>)
    requires Alive(db) && forall i :: 0 <= i < |ops| ==> Floored(ops[i])
    ensures Alive(Run(db, ops))
  {
    TrailsStayAliveOverReals(db, ops);
  }

  /** An evaporation that takes no positive real to zero. */
  ghost predicate Gentle(op: Op) {
    op.Evaporate? && ValidDecay(op.factor, op.floor) ==> op.floor > 0.0 || op.factor > 0.0
  }

  /** Over the reals a positive factor does as well. */
  lemma {:induction false} TrailsStayAliveOverReals(db: Db, ops: seq<Op>)
    requires Alive(db) && forall i :: 0 <= i < |ops| ==> Gentle(ops[i])
    ensures Alive(Run(db, ops))
    decreases |ops|
  {
    if ops != [] {
      var op, next := ops[0], Apply(db, ops[0]);
      forall id | id in next.beliefs && Trail(next.beliefs[id])
        ensures next.beliefs[id].weight > 0.0
      {
        if id in db.beliefs && op.Evaporate? && ValidDecay(op.factor, op.floor) && Trail(db.beliefs[id]) {
          Scaled(db.beliefs[id].weight, op.factor);
        }
      }
      TrailsStayAliveOverReals(next, ops[1..]);
    }
  }

  /** One accepted evaporation that is not gentle takes every live trail of its owner to zero. */
  lemma HarshEvaporationKills(db: Db, op: Op, id: nat)
    requires op.Evaporate? && ValidDecay(op.factor, op.floor) && !Gentle(op)
    requires Owns(db, op.owner, id) && Decays(db.beliefs[id])
    ensures !Alive(Apply(db, op))
    ensures Apply(db, op).beliefs[id].weight == 0.0
  {
    var after := Apply(db, op);
    assert after.beliefs[id] == RowAfter(op, id, db.beliefs[id]);
    assert Trail(after.beliefs[id]);
  }

  // ---- evaporation in floating point

  /** The floating-point numbers, their multiplication, and the smallest positive one. */
  datatype Floats = Floats(number: real -> bool, product: (real, real) -> real, smallest: real)

  function Units(n: nat, unit: real): real { Times(n as real, unit) }

  ghost predicate Multiple(x: real, unit: real) {
    exists n: nat :: x == Units(n, unit)
  }

  /**
  What is used of IEEE 754 binary numbers, rounding to nearest with ties to
  even: numbers are multiples of the smallest one; a product underflows to zero
  exactly when its exact value is at most half the smallest number; and a number
  times at most one half is at most its half, rounded up by half the smallest.
  */
  ghost predicate Ieee(f: Floats) {
    && f.smallest > 0.0 && f.number(f.smallest)
    && (forall w: real :: f.number(w) && w >= 0.0 ==> Multiple(w, f.smallest))
    && (forall w: real, factor: real :: f.number(w) && w >= 0.0 && 0.0 <= factor <= 1.0 ==> Rounds(f, w, factor))
  }

  ghost predicate Rounds(f: Floats, w: real, factor: real) {
    && f.number(f.product(w, factor))
    && (if Times(w, factor) <= f.smallest / 2.0 then f.product(w, factor) == 0.0
        else f.product(w, factor) >= f.smallest)
    && (factor <= 0.5 ==> f.product(w, factor) <= w / 2.0 + f.smallest / 2.0)
  }

  /** The weight after k evaporations with that multiplication; a zero weight is not selected. */
  function RoundedDecay(f: Floats, w: real, factor: real, floor: real, k: nat): real {
    if k == 0 then w else RoundedStep(f, RoundedDecay(f, w, factor, floor, k - 1), factor, floor)
  }

  function RoundedStep(f: Floats, w: real, factor: real, floor: real): real {
    if w > 0.0 then Max(floor, f.product(w, factor)) else w
  }

  /**
  In floating point, for every positive weight: no number of evaporations takes
  it to zero exactly when the floor is positive or the factor exceeds one half.
  */
  lemma FloatingDecayExactly(f: Floats, w: real, factor: real, floor: real)
    requires Ieee(f) && f.number(w) && w > 0.0 && ValidDecay(factor, floor)
    ensures (forall k: nat :: RoundedDecay(f, w, factor, floor, k) > 0.0) <==> floor > 0.0 || factor > 0.5
  {
    var n := UnitsOf(f, w);
    if floor > 0.0 || factor > 0.5 {
      AtLeastSmallest(f.smallest, n);
      forall k: nat
        ensures RoundedDecay(f, w, factor, floor, k) > 0.0
      {
        FloatingDecayPositive(f, w, factor, floor, k);
      }
    } else {
      var k := FloatingDecayReaches(f, n, w, factor);
    }
  }

  lemma AtLeastSmallest(smallest: real, n: nat)
    requires smallest > 0.0
    ensures Units(n, smallest) > 0.0 ==> n > 0 && Units(n, smallest) >= smallest
  {
    if n > 0 {
      Monotone(1.0, n as real, smallest);
    }
  }

  lemma SmallestHalved(smallest: real, factor: real)
    requires smallest > 0.0 && factor >= 0.0
    ensures Times(smallest, factor) <= smallest / 2.0 <==> factor <= 0.5
  {
    if factor <= 0.5 {
      assert smallest * factor <= smallest * 0.5;
    } else {
      assert smallest * factor > smallest * 0.5;
    }
  }

  lemma {:induction false} FloatingDecayPositive(f: Floats, w: real, factor: real, floor: real, k: nat)
    requires Ieee(f) && ValidDecay(factor, floor) && f.number(w) && w >= f.smallest
    requires floor > 0.0 || factor > 0.5
    ensures RoundedDecay(f, w, factor, floor, k) > 0.0
    ensures floor == 0.0 ==>
      RoundedDecay(f, w, factor, floor, k) >= f.smallest && f.number(RoundedDecay(f, w, factor, floor, k))
  {
    hide Times, Multiple;
    if k > 0 {
      FloatingDecayPositive(f, w, factor, floor, k - 1);
      var before := RoundedDecay(f, w, factor, floor, k - 1);
      if floor == 0.0 {
        assert Rounds(f, before, factor);
        SmallestHalved(f.smallest, factor);
        Monotone(f.smallest, before, factor);
      }
    }
  }

  /** With a zero floor and a factor of at most one half, n units reach zero: each step loses one at least. */
  lemma {:induction false} FloatingDecayReaches(f: Floats, n: nat, w: real, factor: real) returns (k: nat)
    requires Ieee(f) && f.number(w) && w > 0.0 && w == Units(n, f.smallest) && 0.0 <= factor <= 0.5
    ensures RoundedDecay(f, w, factor, 0.0, k) == 0.0
    decreases n
  {
    hide Times, Multiple, Ieee;
    var p := f.product(w, factor);
    assert Rounds(f, w, factor) && f.smallest > 0.0 by {
      RoundsAt(f, w, factor);
    }
    RoundedOnce(f, w, factor);
    if p == 0.0 {
      k := 1;
    } else {
      var m := UnitsOf(f, p);
      SmallestHalved(f.smallest, factor);
      FewUnits(f.smallest, n);
      FewerUnits(f.smallest, n, m);
      var rest := FloatingDecayReaches(f, m, p, factor);
      RoundedFront(f, w, factor, rest);
      k := rest + 1;
    }
  }

  lemma RoundsAt(f: Floats, w: real, factor: real)
    requires Ieee(f) && f.number(w) && w >= 0.0 && 0.0 <= factor <= 1.0
    ensures Rounds(f, w, factor) && f.smallest > 0.0
  {
  }

  lemma UnitsOf(f: Floats, w: real) returns (n: nat)
    requires Ieee(f) && f.number(w) && w >= 0.0
    ensures w == Units(n, f.smallest)
  {
    hide Units;
    assert Multiple(w, f.smallest);
    n :| w == Units(n, f.smallest);
  }

  lemma FewUnits(smallest: real, n: nat)
    ensures Units(0, smallest) == 0.0 && Units(1, smallest) == smallest
  {
  }

  lemma FewerUnits(smallest: real, n: nat, m: nat)
    requires smallest > 0.0 && n > 1
    requires Units(m, smallest) <= Units(n, smallest) / 2.0 + smallest / 2.0
    ensures m < n
  {
    Monotone(2.0, n as real, smallest);
    if m >= n {
      Monotone(n as real, m as real, smallest);
      TwoUnits(smallest);
      hide Times;
    }
  }

  lemma TwoUnits(smallest: real)
    ensures Times(2.0, smallest) == smallest + smallest
  {
  }

  lemma RoundedOnce(f: Floats, w: real, factor: real)
    requires w > 0.0 && f.product(w, factor) >= 0.0
    ensures RoundedDecay(f, w, factor, 0.0, 1) == f.product(w, factor)
  {
    assert RoundedDecay(f, w, factor, 0.0, 0) == w;
  }

  /** Evaporating k + 1 times is evaporating k times what one evaporation leaves. */
  lemma {:induction false} RoundedFront(f: Floats, w: real, factor: real, k: nat)
    requires w > 0.0 && f.product(w, factor) >= 0.0
    ensures RoundedDecay(f, w, factor, 0.0, k + 1) == RoundedDecay(f, f.product(w, factor), factor, 0.0, k)
  {
    if k == 0 {
      RoundedOnce(f, w, factor);
    } else {
      RoundedFront(f, w, factor, k - 1);
    }
  }

  ghost predicate Bounded(db: Db, floor: real) {
    forall id :: id in db.beliefs ==> 0.0 <= db.beliefs[id].weight <= Max(CAP, floor)
  }

  /** Weights stay within [0, max(100, F)] when no floor in the run exceeds F. */
  lemma {:induction false} WeightsBounded(db: Db, ops: seq<Op>, floor: real)
    requires Bounded(db, floor)
    requires forall i :: 0 <= i < |ops| && ops[i].Evaporate? ==> ops[i].floor <= floor
    ensures Bounded(Run(db, ops), floor)
    decreases |ops|
  {
    if ops != [] {
      var op, next := ops[0], Apply(db, ops[0]);
      forall id | id in next.beliefs
        ensures 0.0 <= next.beliefs[id].weight <= Max(CAP, floor)
      {
        if id in db.beliefs && op.Evaporate? && ValidDecay(op.factor, op.floor) {
          Scaled(db.beliefs[id].weight, op.factor);
        }
      }
      WeightsBounded(next, ops[1..], floor);
    }
  }
}
