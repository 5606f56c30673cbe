/**
What the changing columns of a belief hold, said from the operations of a run
(crates/bastion-memory/src/sqlite.rs): the counters, the supersession and the
revocation time, and what reinforcing and weakening do to a weight.
*/
module BeliefHistory {
  import opened Events
  import opened Beliefs
  import opened BeliefTheorems

  /** How often `owner` rated `id` with `feedback`. */
  ghost function Ratings(ops: seq<Op>, owner: string, id: nat, feedback: Feedback): nat {
    if ops == [] then 0
    else
      Ratings(ops[1..], owner, id, feedback) +
      if ops[0] == RecordOutcome(owner, id, feedback) then 1 else 0
  }

  /** The last operation of `owner` on `id` that is a supersession, or a revocation. */
  ghost predicate LastOn(ops: seq<Op>, k: int, owner: string, id: nat, revocation: bool) {
    && 0 <= k < |ops| && Touches(ops[k], owner, id, revocation)
    && forall j :: k < j < |ops| ==> !Touches(ops[j], owner, id, revocation)
  }

  ghost predicate Touches(op: Op, owner: string, id: nat, revocation: bool) {
    (if revocation then op.Revoke? else op.Supersede?) && op.owner == owner && op.id == id
  }

  ghost predicate NoneOn(ops: seq<Op>, owner: string, id: nat, revocation: bool) {
    forall j :: 0 <= j < |ops| ==> !Touches(ops[j], owner, id, revocation)
  }

  lemma RowNext(db: Db, op: Op, id: nat)
    requires Safe(db) && id in db.beliefs
    ensures id in Apply(db, op).beliefs && Apply(db, op).beliefs[id] == RowAfter(op, id, db.beliefs[id])
  {
    hide RowAfter, NewRow;
    if op.StoreBelief? || op.StoreProcedural? || op.RecordCorrection? || op.TakeCorrections? {
      OtherOpsKeep(op, id, db.beliefs[id]);
    }
  }

  lemma OtherOpsKeep(op: Op, id: nat, r: Row)
    requires op.StoreBelief? || op.StoreProcedural? || op.RecordCorrection? || op.TakeCorrections?
    ensures RowAfter(op, id, r) == r
  {
  }

  // ---- counters

  /** Each counter grew by exactly the owner's ratings of that kind. */
  lemma {:induction false} CountersExact(db: Db, ops: seq<Op>, owner: string, id: nat)
    requires Safe(db) && Owns(db, owner, id)
    ensures Owns(Run(db, ops), owner, id)
    ensures var before, after := db.beliefs[id], Run(db, ops).beliefs[id];
      && after.helpful == before.helpful + Ratings(ops, owner, id, Helpful)
      && after.harmful == before.harmful + Ratings(ops, owner, id, Harmful)
      && after.neutral == before.neutral + Ratings(ops, owner, id, Neutral)
    decreases |ops|
  {
    if ops != [] {
      hide Safe, RowAfter;
      SafeStep(db, ops[0]);
      RowNext(db, ops[0], id);
      CountersNext(ops[0], id, db.beliefs[id]);
      CountersExact(Apply(db, ops[0]), ops[1..], owner, id);
    }
  }

  lemma CountersNext(op: Op, id: nat, r: Row)
    ensures var after := RowAfter(op, id, r);
      && after.owner == r.owner
      && after.helpful == r.helpful + (if op == RecordOutcome(r.owner, id, Helpful) then 1 else 0)
      && after.harmful == r.harmful + (if op == RecordOutcome(r.owner, id, Harmful) then 1 else 0)
      && after.neutral == r.neutral + (if op == RecordOutcome(r.owner, id, Neutral) then 1 else 0)
  {
  }

  // ---- supersession and revocation

  ghost predicate Superseded(r: Row, op: Op)
    requires op.Supersede?
  {
    r.supersededBy == Some(op.newId) && r.supersedesAt == Some(op.now)
  }

  /** A row is superseded by what its owner's last supersession of it says, and revoked since his last revocation. */
  lemma {:induction false} LastWordHolds(db: Db, ops: seq<Op>, owner: string, id: nat)
    requires Safe(db) && Owns(db, owner, id)
    ensures Owns(Run(db, ops), owner, id)
    ensures var r := Run(db, ops).beliefs[id];
      && (forall k :: LastOn(ops, k, owner, id, false) ==> Superseded(r, ops[k]))
      && (forall k :: LastOn(ops, k, owner, id, true) ==> r.revokedAt == Some(ops[k].now))
      && (NoneOn(ops, owner, id, false) ==>
            r.supersededBy == db.beliefs[id].supersededBy && r.supersedesAt == db.beliefs[id].supersedesAt)
      && (NoneOn(ops, owner, id, true) ==> r.revokedAt == db.beliefs[id].revokedAt)
    decreases |ops|
  {
    if ops != [] {
      hide Safe, RowAfter;
      var op, next := ops[0], Apply(db, ops[0]);
      SafeStep(db, op);
      RowNext(db, op, id);
      LastWordNext(op, id, db.beliefs[id]);
      LastWordHolds(next, ops[1..], owner, id);
      LastOnCons(ops, owner, id, false);
      LastOnCons(ops, owner, id, true);
      hide LastOn, NoneOn, Touches;
      forall k, revocation | LastOn(ops, k, owner, id, revocation)
        ensures k > 0 ==> LastOn(ops[1..], k - 1, owner, id, revocation) && ops[1..][k - 1] == ops[k]
      {
        LastOnInside(ops, k, owner, id, revocation);
      }
    }
  }

  lemma LastWordNext(op: Op, id: nat, r: Row)
    ensures var after := RowAfter(op, id, r);
      && after.owner == r.owner
      && (Touches(op, r.owner, id, false) ==> Superseded(after, op))
      && (!Touches(op, r.owner, id, false) ==>
            after.supersededBy == r.supersededBy && after.supersedesAt == r.supersedesAt)
      && (Touches(op, r.owner, id, true) ==> after.revokedAt == Some(op.now))
      && (!Touches(op, r.owner, id, true) ==> after.revokedAt == r.revokedAt)
  {
  }

  lemma LastOnInside(ops: seq<Op>, k: int, owner: string, id: nat, revocation: bool)
    requires LastOn(ops, k, owner, id, revocation)
    ensures 0 <= k < |ops|
    ensures k > 0 ==> LastOn(ops[1..], k - 1, owner, id, revocation) && ops[1..][k - 1] == ops[k]
  {
    hide Touches;
    assert forall j :: 0 < j < |ops| ==> ops[1..][j - 1] == ops[j];
  }

  lemma LastOnCons(ops: seq<Op>, owner: string, id: nat, revocation: bool)
    requires ops != []
    ensures NoneOn(ops, owner, id, revocation) <==>
      !Touches(ops[0], owner, id, revocation) && NoneOn(ops[1..], owner, id, revocation)
    ensures forall k :: k > 0 ==>
      (LastOn(ops, k, owner, id, revocation) <==> LastOn(ops[1..], k - 1, owner, id, revocation))
    ensures LastOn(ops, 0, owner, id, revocation) <==>
      Touches(ops[0], owner, id, revocation) && NoneOn(ops[1..], owner, id, revocation)
  {
    hide Touches;
    assert forall j :: 0 < j < |ops| ==> ops[1..][j - 1] == ops[j];
  }

  // ---- weights

  /** Only the rows an operation is for change their weight; a refused one changes nothing. */
  lemma WeightOnlyWhenSelected(op: Op, id: nat, r: Row)
    requires RowAfter(op, id, r).weight != r.weight
    ensures op.owner == r.owner
    ensures op.Revoke? || (!r.revoked && r.kind == Procedural)
    ensures op.Reinforce? || op.Evaporate? ==> r.persona.None?
    ensures op.ReinforcePersona? || op.WeakenPersona? ==> r.persona.Some?
    ensures op.Reinforce? || op.ReinforcePersona? || op.WeakenPersona? ==> op.id == id && op.delta >= 0.0
    ensures op.Evaporate? ==> 0.0 <= op.factor <= 1.0 && op.floor >= 0.0 && r.weight > 0.0
  {
  }

  /** Which operation adds to this playbook row. */
  ghost function Reinforcing(r: Row, id: nat, delta: real): Op {
    if r.persona.None? then Reinforce(r.owner, id, delta) else ReinforcePersona(r.owner, id, delta)
  }

  function Multiple(delta: real, k: nat): real {
    if k == 0 then 0.0 else Multiple(delta, k - 1) + delta
  }

  lemma {:induction false} MultiplePositive(delta: real, k: nat)
    requires delta >= 0.0
    ensures Multiple(delta, k) >= 0.0
  {
    if k > 0 {
      MultiplePositive(delta, k - 1);
    }
  }

  ghost predicate Playbook(r: Row) {
    !r.revoked && r.kind == Procedural
  }

  /** k reinforcements add k deltas, up to 100, and change nothing else. */
  lemma {:induction false} ReinforcementClosedForm(db: Db, id: nat, delta: real, k: nat)
    requires id in db.beliefs && Playbook(db.beliefs[id]) && delta >= 0.0 && k > 0
    ensures var r := db.beliefs[id];
      Run(db, Repeat(Reinforcing(r, id, delta), k)).beliefs ==
        db.beliefs[id := r.(weight := if r.weight + Multiple(delta, k) <= 100.0 then r.weight + Multiple(delta, k)
                                      else 100.0)]
  {
    var r := db.beliefs[id];
    var op := Reinforcing(r, id, delta);
    var mid := Run(db, Repeat(op, k - 1));
    RepeatLast(db, op, k);
    MultiplePositive(delta, k - 1);
    if k > 1 {
      ReinforcementClosedForm(db, id, delta, k - 1);
    } else {
      assert Repeat(op, 0) == [];
      assert db.beliefs[id := r] == db.beliefs;
      assert Multiple(delta, 1) == Multiple(delta, 0) + delta;
    }
    OneRowUpdated(mid, op, id);
  }

  /** k weakenings take k deltas from a persona's row, down to 0, and change nothing else. */
  lemma {:induction false} WeakeningClosedForm(db: Db, id: nat, delta: real, k: nat)
    requires id in db.beliefs && Playbook(db.beliefs[id]) && db.beliefs[id].persona.Some?
    requires delta >= 0.0 && k > 0
    ensures var r := db.beliefs[id];
      Run(db, Repeat(WeakenPersona(r.owner, id, delta), k)).beliefs ==
        db.beliefs[id := r.(weight := if r.weight - Multiple(delta, k) >= 0.0 then r.weight - Multiple(delta, k)
                                      else 0.0)]
  {
    var r := db.beliefs[id];
    var op := WeakenPersona(r.owner, id, delta);
    var mid := Run(db, Repeat(op, k - 1));
    RepeatLast(db, op, k);
    MultiplePositive(delta, k - 1);
    if k > 1 {
      WeakeningClosedForm(db, id, delta, k - 1);
    } else {
      assert Repeat(op, 0) == [];
      assert db.beliefs[id := r] == db.beliefs;
      assert Multiple(delta, 1) == Multiple(delta, 0) + delta;
    }
    OneRowUpdated(mid, op, id);
  }

  lemma RepeatLast(db: Db, op: Op, k: nat)
    requires k > 0
    ensures Run(db, Repeat(op, k)) == Apply(Run(db, Repeat(op, k - 1)), op)
  {
    hide Apply;
    assert Repeat(op, k) == Repeat(op, k - 1) + [op];
    RunAppend(db, Repeat(op, k - 1), [op]);
    assert [op][1..] == [];
    var mid := Run(db, Repeat(op, k - 1));
    assert Run(mid, [op]) == Run(Apply(mid, op), []);
  }

  lemma OneRowUpdated(db: Db, op: Op, id: nat)
    requires (op.Reinforce? || op.ReinforcePersona? || op.WeakenPersona?) && op.id == id && id in db.beliefs
    ensures Apply(db, op).beliefs == db.beliefs[id := RowAfter(op, id, db.beliefs[id])]
  {
    hide Trail, PersonaTrail;
  }

  lemma RowUndone(id: nat, r: Row, delta: real)
    requires Playbook(r) && r.persona.Some? && delta >= 0.0 && 0.0 <= r.weight <= 100.0
    ensures RowAfter(WeakenPersona(r.owner, id, delta), id, RowAfter(ReinforcePersona(r.owner, id, delta), id, r)) == r
      <==> r.weight + delta <= 100.0 || r.weight == 0.0
  {
  }

  /** Weakening by what was added undoes it exactly when the cap was not met, or the row was at zero. */
  lemma WeakeningUndoes(db: Db, id: nat, delta: real)
    requires id in db.beliefs && Playbook(db.beliefs[id]) && db.beliefs[id].persona.Some?
    requires delta >= 0.0 && 0.0 <= db.beliefs[id].weight <= 100.0
    ensures var r := db.beliefs[id];
      Apply(Apply(db, ReinforcePersona(r.owner, id, delta)), WeakenPersona(r.owner, id, delta)).beliefs == db.beliefs
      <==> r.weight + delta <= 100.0 || r.weight == 0.0
  {
    var r := db.beliefs[id];
    var up, down := ReinforcePersona(r.owner, id, delta), WeakenPersona(r.owner, id, delta);
    OneRowUpdated(db, up, id);
    OneRowUpdated(Apply(db, up), down, id);
    RowUndone(id, r, delta);
    hide Apply, RowAfter, Playbook;
    var last := RowAfter(down, id, RowAfter(up, id, r));
    assert db.beliefs[id := RowAfter(up, id, r)][id := last] == db.beliefs[id := last];
    if last == r {
      assert db.beliefs[id := last] == db.beliefs;
    } else {
      assert db.beliefs[id := last][id] != db.beliefs[id];
    }
  }
}
