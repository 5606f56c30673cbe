/**
The `Memory` operations as they run, statement by statement, on tables that
they change in place (crates/bastion-memory/src/sqlite.rs). Each leaves the
tables as `Beliefs.Apply` says, and each reads what it should.
*/
module BeliefStore {
  import opened Events
  import opened Beliefs
  import BeliefTheorems

  /** An operation on one row: what `op` does when `id` is the only row it may select. */
  ghost predicate OneRow(op: Op) {
    op.Revoke? || op.Supersede? || op.Reinforce? || op.ReinforcePersona? || op.WeakenPersona? || op.RecordOutcome?
  }

  lemma OnlyItsRow(db: Db, op: Op)
    requires OneRow(op)
    ensures Updated(db, op) ==
      if Owns(db, op.owner, op.id) then db.beliefs[op.id := RowAfter(op, op.id, db.beliefs[op.id])] else db.beliefs
  {
  }

  /** The rows one evaporation changes. */
  ghost function Selected(beliefs: map<nat, Row>, owner: string): set<nat> {
    set id | id in beliefs && beliefs[id].owner == owner && Decays(beliefs[id])
  }

  function DecayedRow(op: Op, r: Row): Row
    requires op.Evaporate?
  {
    if r.owner == op.owner && Decays(r) then r.(weight := Max(op.floor, Times(r.weight, op.factor))) else r
  }

  lemma EvaporatesTo(op: Op, id: nat, r: Row)
    requires op.Evaporate? && ValidDecay(op.factor, op.floor)
    ensures RowAfter(op, id, r) == DecayedRow(op, r)
  {
  }

  /** The update has been through every row but those in `todo`, and changed `count` of them. */
  ghost predicate Halfway(op: Op, before: map<nat, Row>, rows: map<nat, Row>, todo: set<nat>, count: nat) {
    && op.Evaporate? && todo <= rows.Keys == before.Keys
    && (forall id :: id in before ==> rows[id] == if id in todo then before[id] else DecayedRow(op, before[id]))
    && count == |Selected(before, op.owner) - todo|
  }

  lemma HalfwayStart(op: Op, before: map<nat, Row>)
    requires op.Evaporate?
    ensures Halfway(op, before, before, before.Keys, 0)
  {
    hide Decays;
    assert Selected(before, op.owner) - before.Keys == {};
  }

  lemma HalfwayStep(op: Op, before: map<nat, Row>, rows: map<nat, Row>, todo: set<nat>, count: nat, id: nat, row: Row)
    requires Halfway(op, before, rows, todo, count) && id in todo
    requires row == DecayedRow(op, rows[id])
    ensures id in rows
    ensures Halfway(op, before, rows[id := row], todo - {id},
                    if rows[id].owner == op.owner && Decays(rows[id]) then count + 1 else count)
  {
    hide Decays;
    var all := Selected(before, op.owner);
    if id in all {
      assert all - (todo - {id}) == (all - todo) + {id};
    } else {
      assert all - (todo - {id}) == all - todo;
    }
  }

  lemma HalfwayDone(db: Db, op: Op, rows: map<nat, Row>, count: nat)
    requires Halfway(op, db.beliefs, rows, {}, count) && ValidDecay(op.factor, op.floor)
    ensures rows == Updated(db, op) && count == |Selected(db.beliefs, op.owner)|
  {
    hide Decays, RowAfter;
    forall id | id in db.beliefs
      ensures rows[id] == RowAfter(op, id, db.beliefs[id])
    {
      EvaporatesTo(op, id, db.beliefs[id]);
    }
    assert Selected(db.beliefs, op.owner) - {} == Selected(db.beliefs, op.owner);
  }

  /** A row its reader may be given. */
  ghost predicate OwnLive(r: Row, owner: string) {
    r.owner == owner && !r.revoked && r.weight > 0.0
  }

  class SqliteMemory {
    var beliefs: map<nat, Row>
    var nextBelief: nat
    var provenance: seq<Provenance>
    var queue: seq<Correction>
    var nextItem: nat

    ghost function Contents(): Db
      reads this
    {
      Db(beliefs, nextBelief, provenance, queue, nextItem)
    }

    constructor ()
      ensures Contents() == Empty()
    {
      beliefs, nextBelief, provenance, queue, nextItem := map[], 1, [], [], 1;
    }

    /** One transaction: the belief, then its provenance row. */
    method StoreBelief(owner: string, persona: Option<string>, content: string, session: string, source: string,
                       isCore: bool, tier: Option<Privacy>, now: int) returns (id: nat)
      modifies this
      ensures Contents() ==
        Apply(old(Contents()), Op.StoreBelief(owner, persona, content, session, source, isCore, tier, now))
      ensures id == old(nextBelief) && id in beliefs && BeliefTheorems.Fresh(beliefs[id])
      ensures BeliefTheorems.AsStored(beliefs[id],
                                      Op.StoreBelief(owner, persona, content, session, source, isCore, tier, now))
    {
      id := nextBelief;
      nextBelief := nextBelief + 1;
      beliefs := beliefs[id := Row(owner, persona, content, 1.0, false, None, isCore, tier, Factual, [], None,
                                   0, 0, 0, None, None, None, None, now)];
      provenance := provenance + [Provenance(id, session, source)];
    }

    method StoreProceduralBelief(owner: string, persona: Option<string>, content: string, session: string,
                                 source: string, tier: Option<Privacy>, keywords: seq<string>,
                                 issue: Option<string>, now: int) returns (id: nat)
      modifies this
      ensures Contents() ==
        Apply(old(Contents()),
              Op.StoreProcedural(owner, persona, content, session, source, tier, keywords, issue, now))
      ensures id == old(nextBelief) && id in beliefs && BeliefTheorems.Fresh(beliefs[id])
      ensures BeliefTheorems.AsStored(
        beliefs[id], Op.StoreProcedural(owner, persona, content, session, source, tier, keywords, issue, now))
    {
      id := nextBelief;
      nextBelief := nextBelief + 1;
      beliefs := beliefs[id := Row(owner, persona, content, 1.0, false, None, false, tier, Procedural, keywords, issue,
                                   0, 0, 0, None, None, None, None, now)];
      provenance := provenance + [Provenance(id, session, source)];
    }

    /** `false`: no row matched, and the source reports an error. */
    method RevokeBelief(owner: string, id: nat, now: int) returns (ok: bool)
      modifies this
      ensures Contents() == Apply(old(Contents()), Op.Revoke(owner, id, now))
      ensures ok <==> Owns(old(Contents()), owner, id)
    {
      OnlyItsRow(Contents(), Op.Revoke(owner, id, now));
      ok := id in beliefs && beliefs[id].owner == owner;
      if ok {
        beliefs := beliefs[id := beliefs[id].(weight := 0.0, revoked := true, revokedAt := Some(now))];
      }
    }

    method SupersedeBelief(owner: string, oldId: nat, newId: nat, now: int) returns (ok: bool)
      modifies this
      ensures Contents() == Apply(old(Contents()), Op.Supersede(owner, oldId, newId, now))
      ensures ok <==> Owns(old(Contents()), owner, oldId)
    {
      OnlyItsRow(Contents(), Op.Supersede(owner, oldId, newId, now));
      ok := oldId in beliefs && beliefs[oldId].owner == owner;
      if ok {
        beliefs := beliefs[oldId := beliefs[oldId].(supersededBy := Some(newId), supersedesAt := Some(now))];
      }
    }

    /** `false`: the delta is refused; a row that does not match is left alone silently. */
    method ReinforceBelief(owner: string, id: nat, delta: real) returns (ok: bool)
      modifies this
      ensures Contents() == Apply(old(Contents()), Op.Reinforce(owner, id, delta))
      ensures ok <==> delta >= 0.0
    {
      OnlyItsRow(Contents(), Op.Reinforce(owner, id, delta));
      if delta < 0.0 {
        return false;
      }
      if id in beliefs && beliefs[id].owner == owner && Trail(beliefs[id]) {
        beliefs := beliefs[id := beliefs[id].(weight := Min(beliefs[id].weight + delta, CAP))];
      }
      ok := true;
    }

    method ReinforcePersonaBelief(owner: string, id: nat, delta: real) returns (ok: bool)
      modifies this
      ensures Contents() == Apply(old(Contents()), Op.ReinforcePersona(owner, id, delta))
      ensures ok <==> delta >= 0.0
    {
      OnlyItsRow(Contents(), Op.ReinforcePersona(owner, id, delta));
      if delta < 0.0 {
        return false;
      }
      if id in beliefs && beliefs[id].owner == owner && PersonaTrail(beliefs[id]) {
        beliefs := beliefs[id := beliefs[id].(weight := Min(beliefs[id].weight + delta, CAP))];
      }
      ok := true;
    }

    method WeakenPersonaBelief(owner: string, id: nat, delta: real) returns (ok: bool)
      modifies this
      ensures Contents() == Apply(old(Contents()), Op.WeakenPersona(owner, id, delta))
      ensures ok <==> delta >= 0.0
    {
      OnlyItsRow(Contents(), Op.WeakenPersona(owner, id, delta));
      if delta < 0.0 {
        return false;
      }
      if id in beliefs && beliefs[id].owner == owner && PersonaTrail(beliefs[id]) {
        beliefs := beliefs[id := beliefs[id].(weight := Max(beliefs[id].weight - delta, 0.0))];
      }
      ok := true;
    }

    /** One UPDATE over the rows it selects, in whatever order; returns how many. */
    method EvaporateBeliefs(owner: string, factor: real, floor: real) returns (changed: Option<nat>)
      modifies this
      ensures Contents() == Apply(old(Contents()), Op.Evaporate(owner, factor, floor))
      ensures changed.Some? <==> ValidDecay(factor, floor)
      ensures changed.Some? ==> changed.value == |Selected(old(beliefs), owner)|
    {
      ghost var op := Op.Evaporate(owner, factor, floor);
      if !(0.0 <= factor <= 1.0) || floor < 0.0 {
        assert Updated(Contents(), op) == beliefs;
        return None;
      }
      var rows, count := UpdateDecaying(owner, factor, floor, beliefs);
      HalfwayDone(Contents(), op, rows, count);
      beliefs := rows;
      changed := Some(count);
    }

    /** The UPDATE statement: every row it selects, once each. */
    static method UpdateDecaying(owner: string, factor: real, floor: real, before: map<nat, Row>)
      returns (rows: map<nat, Row>, count: nat)
      ensures Halfway(Op.Evaporate(owner, factor, floor), before, rows, {}, count)
    {
      hide Halfway, Decays, DecayedRow;
      ghost var op := Op.Evaporate(owner, factor, floor);
      rows, count := before, 0;
      var todo := rows.Keys;
      HalfwayStart(op, before);
      while todo != {}
        invariant todo <= rows.Keys && Halfway(op, before, rows, todo, count)
        decreases |todo|
      {
        var id :| id in todo;
        var updated, row := UpdateRow(owner, factor, floor, rows[id]);
        HalfwayStep(op, before, rows, todo, count, id, row);
        rows := rows[id := row];
        todo := todo - {id};
        if updated {
          count := count + 1;
        }
      }
    }

    /** WHERE and SET on one row. */
    static method UpdateRow(owner: string, factor: real, floor: real, r: Row) returns (updated: bool, row: Row)
      ensures row == DecayedRow(Op.Evaporate(owner, factor, floor), r)
      ensures updated <==> r.owner == owner && Decays(r)
    {
      updated := r.owner == owner && Decays(r);
      row := if updated then r.(weight := Max(floor, Times(r.weight, factor))) else r;
    }

    method RecordBeliefOutcome(owner: string, id: nat, feedback: Feedback) returns (ok: bool)
      modifies this
      ensures Contents() == Apply(old(Contents()), Op.RecordOutcome(owner, id, feedback))
      ensures ok <==> Owns(old(Contents()), owner, id)
    {
      OnlyItsRow(Contents(), Op.RecordOutcome(owner, id, feedback));
      ok := id in beliefs && beliefs[id].owner == owner;
      if ok {
        match feedback {
          case Helpful => beliefs := beliefs[id := beliefs[id].(helpful := beliefs[id].helpful + 1)];
          case Harmful => beliefs := beliefs[id := beliefs[id].(harmful := beliefs[id].harmful + 1)];
          case Neutral => beliefs := beliefs[id := beliefs[id].(neutral := beliefs[id].neutral + 1)];
        }
      }
    }

    /** Queues a correction of a belief its caller owns; `None` is the source's error. */
    method RecordPendingCorrection(owner: string, id: nat, tier: Option<Privacy>, now: int) returns (item: Option<nat>)
      modifies this
      ensures Contents() == Apply(old(Contents()), Op.RecordCorrection(owner, id, tier, now))
      ensures item == if Owns(old(Contents()), owner, id) then Some(old(nextItem)) else None
    {
      if id !in beliefs || beliefs[id].owner != owner {
        return None;
      }
      item := Some(nextItem);
      queue := queue + [Correction(nextItem, id, owner, tier, now)];
      nextItem := nextItem + 1;
    }

    /** One transaction: reads the owner's rows, then deletes them. */
    method TakePendingCorrections(owner: string) returns (taken: seq<Correction>)
      modifies this
      ensures Contents() == Apply(old(Contents()), Op.TakeCorrections(owner))
      ensures taken == Queued(old(queue), owner)
    {
      ghost var before := queue;
      taken := [];
      var left: seq<Correction> := [];
      for i := 0 to |queue|
        invariant queue == before && Contents() == old(Contents())
        invariant taken + Queued(queue[i..], owner) == Queued(queue, owner)
        invariant left + Others(queue[i..], owner) == Others(queue, owner)
      {
        assert queue[i..][0] == queue[i] && queue[i..][1..] == queue[i + 1..];
        if queue[i].owner == owner {
          taken := taken + [queue[i]];
        } else {
          left := left + [queue[i]];
        }
      }
      queue := left;
    }

    // ---- reading

    /** The rows a WHERE clause selects, collected one by one. */
    static method Select(rows: map<nat, Row>, where: Row -> bool) returns (found: map<nat, Row>)
      ensures forall id :: id in found <==> id in rows && where(rows[id])
      ensures forall id :: id in found ==> found[id] == rows[id]
    {
      found := map[];
      var todo := rows.Keys;
      while todo != {}
        invariant todo <= rows.Keys
        invariant forall id :: id in found <==> id in rows && id !in todo && where(rows[id])
        invariant forall id :: id in found ==> found[id] == rows[id]
        decreases |todo|
      {
        var id :| id in todo;
        todo := todo - {id};
        if where(rows[id]) {
          found := found[id := rows[id]];
        }
      }
    }

    method RetrieveTagged(owner: string, persona: Option<string>, now: int) returns (found: map<nat, Row>)
      ensures forall id :: id in found <==> id in beliefs && MatchesTagged(beliefs[id], owner, persona, now)
      ensures forall id :: id in found ==> found[id] == beliefs[id]
      ensures forall id :: id in found ==> OwnLive(found[id], owner)
      ensures BeliefTheorems.Safe(Contents()) ==> forall id :: id in found <==>
        id in beliefs && MatchesAll(beliefs[id], owner) && (beliefs[id].persona.None? || beliefs[id].persona == persona)
    {
      found := Select(beliefs, r => MatchesTagged(r, owner, persona, now));
    }

    method LoadCore(owner: string) returns (found: map<nat, Row>)
      ensures forall id :: id in found <==> id in beliefs && MatchesCore(beliefs[id], owner)
      ensures forall id :: id in found ==> found[id] == beliefs[id]
      ensures BeliefTheorems.Safe(Contents()) ==> forall id :: id in found ==>
        OwnLive(found[id], owner) && found[id].weight == 1.0 && MatchesAll(beliefs[id], owner)
    {
      found := Select(beliefs, r => MatchesCore(r, owner));
    }

    method RetrieveAllBeliefs(owner: string) returns (found: map<nat, Row>)
      ensures forall id :: id in found <==> id in beliefs && MatchesAll(beliefs[id], owner)
      ensures forall id :: id in found ==> found[id] == beliefs[id]
      ensures forall id :: id in found ==> OwnLive(found[id], owner)
      ensures BeliefTheorems.Safe(Contents()) ==> forall id ::
        Owns(Contents(), owner, id) && !beliefs[id].revoked && beliefs[id].kind == Factual ==> id in found
    {
      found := Select(beliefs, r => MatchesAll(r, owner));
    }

    /** The join of the two tables, over the provenance rows in order. */
    method ProvenanceFor(owner: string, id: nat) returns (rows: seq<(string, string)>)
      ensures rows == Beliefs.ProvenanceFor(Contents(), owner, id)
    {
      rows := [];
      if id in beliefs && beliefs[id].owner == owner {
        for i := 0 to |provenance|
          invariant rows == RowsOf(provenance[..i], id)
        {
          assert provenance[..i + 1][..i] == provenance[..i];
          if provenance[i].belief == id {
            rows := rows + [(provenance[i].session, provenance[i].source)];
          }
        }
        assert provenance[..|provenance|] == provenance;
      }
    }
  }
}
