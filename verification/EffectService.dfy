/** The refund and credit services as objects: each request one transaction, proved to do what
    its uninterrupted begin and commit do in Stores. */
module EffectService {
  import opened Base
  import opened Stores

  datatype CreateAnswer = Rejected | Ok(id: nat, replayed: bool)

  /** Alone, a transaction never loses a unique-constraint race. */
  lemma AloneNeverLoses(s: Store, c: string)
    requires Inv(s)
    ensures !SequenceTaken(s.log, c, NextSequence(s.log, c))
  {
    GapFreeMax(s.log, c);
    FreeSequenceIsNext(s.log, c, NextSequence(s.log, c));
  }

  lemma CreateAlone(s: Store, c: string, key: string, amount: int)
    requires Inv(s) && s.open == map[] && FindKey(s.rows, key).None? && amount > 0
    ensures Apply(Apply(s, CreateBegin(0, c, key, amount)), Commit(0))
         == Inserted(s, c, key, amount, NextSequence(s.log, c))
    ensures Inv(Inserted(s, c, key, amount, NextSequence(s.log, c)))
  {
    AloneNeverLoses(s, c);
    ApplyKeeps(s, CreateBegin(0, c, key, amount));
    ApplyKeeps(Apply(s, CreateBegin(0, c, key, amount)), Commit(0));
    assert map[0 := Creating(c, key, amount, NextSequence(s.log, c))] - {0} == map[];
  }

  /** A create that is refused or replayed writes nothing. */
  lemma CreateIdle(s: Store, c: string, key: string, amount: int)
    requires s.open == map[] && (amount <= 0 || FindKey(s.rows, key).Some?)
    ensures Apply(Apply(s, CreateBegin(0, c, key, amount)), Commit(0)) == s
  {
  }

  /** A transaction that rolls back leaves neither its effect nor its event. */
  lemma RollbackLeavesNothing(s: Store, t: nat, c: string, key: string, amount: int, id: nat)
    requires t !in s.open
    ensures Apply(Apply(s, CreateBegin(t, c, key, amount)), Rollback(t)) == s
    ensures Apply(Apply(s, VoidBegin(t, id)), Rollback(t)) == s
  {
    assert s.open - {t} == s.open;
    assert s.open[t := Creating(c, key, amount, NextSequence(s.log, c))] - {t} == s.open;
    if id < |s.rows| {
      assert s.open[t := Voiding(id, NextSequence(s.log, s.rows[id].caseId))] - {t} == s.open;
    }
  }

  /** Two creates that both began before either committed: of different cases and keys both land; of one
      case or under one key the second loses and writes nothing. */
  lemma CreatesSideBySide(s: Store, c: string, d: string, key: string, other: string, amount: int, more: int)
    requires Inv(s) && s.open == map[] && amount > 0 && more > 0
    requires FindKey(s.rows, key).None? && FindKey(s.rows, other).None?
    ensures var both := Apply(Apply(s, CreateBegin(0, c, key, amount)), CreateBegin(1, d, other, more));
            var first := Apply(both, Commit(0));
            && first.rows == s.rows + [Effect(c, key, amount, COMMITTED)]
            && Apply(first, Commit(1)).rows
               == first.rows + if c != d && key != other then [Effect(d, other, more, COMMITTED)] else []
  {
    var both := Apply(Apply(s, CreateBegin(0, c, key, amount)), CreateBegin(1, d, other, more));
    var first := Apply(both, Commit(0));
    AloneNeverLoses(s, c);
    AloneNeverLoses(s, d);
    assert first.rows == s.rows + [Effect(c, key, amount, COMMITTED)];
    assert first.log[|s.log|].caseId == c && first.log[|s.log|].sequence == NextSequence(s.log, c);
    if key == other {
      assert first.rows[|s.rows|].key == other;
    }
    if c != d {
      assert !SequenceTaken(first.log, d, NextSequence(s.log, d));
    }
  }

  lemma VoidAlone(s: Store, id: nat)
    requires Inv(s) && s.open == map[] && id < |s.rows|
    ensures Apply(Apply(s, VoidBegin(0, id)), Commit(0)) == Voided(s, id, NextSequence(s.log, s.rows[id].caseId))
    ensures Inv(Voided(s, id, NextSequence(s.log, s.rows[id].caseId)))
  {
    AloneNeverLoses(s, s.rows[id].caseId);
    ApplyKeeps(s, VoidBegin(0, id));
    ApplyKeeps(Apply(s, VoidBegin(0, id)), Commit(0));
    assert map[0 := Voiding(id, NextSequence(s.log, s.rows[id].caseId))] - {0} == map[];
  }

  lemma ExecTwo(s: Store, es: seq<Event>, a: Event, b: Event, mid: Store, end: Store)
    requires Exec(s, es) == mid && Apply(Apply(mid, a), b) == end
    ensures Exec(s, es + [a, b]) == end
  {
    assert (es + [a, b])[..|es| + 1] == es + [a];
    assert (es + [a])[..|es|] == es;
  }

  lemma ThenVoided(es: seq<Event>, s: Store, id: nat)
    requires Exec(Empty, es) == s && s.open == map[] && id < |s.rows|
    ensures Exec(Empty, es + [VoidBegin(0, id), Commit(0)]) == Voided(s, id, NextSequence(s.log, s.rows[id].caseId))
  {
    RunKeeps(es);
    VoidAlone(s, id);
    ExecTwo(Empty, es, VoidBegin(0, id), Commit(0), s, Voided(s, id, NextSequence(s.log, s.rows[id].caseId)));
  }

  function VoidOf(id: nat): seq<Event> { [VoidBegin(0, id), Commit(0)] }

  /** The misreport is reachable at every effect of every store: voiding it twice logs that it was
      COMMITTED when it was VOIDED. */
  lemma DoubleVoidMisreports(es: seq<Event>, id: nat)
    requires Exec(Empty, es).open == map[] && id < |Exec(Empty, es).rows|
    ensures var log := Exec(Empty, es + VoidOf(id) + VoidOf(id)).log;
            && |log| == |Exec(Empty, es).log| + 2 && log[|log| - 1].entity == id
            && log[|log| - 1].fromState == Some(COMMITTED) && VoidedIn(log[..|log| - 1], id)
            && !FromStateTrue(log, |log| - 1)
  {
    var s := Exec(Empty, es);
    ThenVoided(es, s, id);
    var once := Voided(s, id, NextSequence(s.log, s.rows[id].caseId));
    ThenVoided(es + VoidOf(id), once, id);
    var log := Exec(Empty, es + VoidOf(id) + VoidOf(id)).log;
    assert log[..|log| - 1] == once.log;
    assert once.log[|s.log|].toState.VOIDED? && once.log[|s.log|].entity == id;
    FromStateTrueIffNotVoidedTwice(es + VoidOf(id) + VoidOf(id), |log| - 1);
  }

  class Service {
    var rows: seq<Effect>
    var log: seq<LogRow>
    var outbox: seq<OutboxRow>

    ghost function State(): Store
      reads this
    {
      Store(rows, log, outbox, map[])
    }

    ghost predicate Valid()
      reads this
    {
      Inv(State())
    }

    constructor ()
      ensures Valid() && State() == Empty
    {
      rows, log, outbox := [], [], [];
    }

    method AppendDecision(caseId: string, entity: nat, fromState: Option<EffectState>, toState: EffectState,
                          amount: int)
      modifies this`log
      ensures log == old(log) + [LogRow(caseId, NextSequence(old(log), caseId), entity, fromState, toState, amount)]
    {
      var sequence := NextSequence(log, caseId);
      log := log + [LogRow(caseId, sequence, entity, fromState, toState, amount)];
    }

    method Publish(caseId: string, entity: nat, amount: int)
      modifies this`outbox
      ensures outbox == old(outbox) + [OutboxRow(caseId, entity, amount, false)]
    {
      outbox := outbox + [OutboxRow(caseId, entity, amount, false)];
    }

    /** A keyed retry gives one effect: whatever was sent before, afterwards exactly one row bears
        the key, and a replay writes nothing. */
    method Create(caseId: string, key: string, amount: int) returns (r: CreateAnswer)
      requires Valid()
      modifies this
      ensures Valid()
      ensures State() == Apply(Apply(old(State()), CreateBegin(0, caseId, key, amount)), Commit(0))
      ensures r.Rejected? <==> amount <= 0
      ensures r.Ok? ==> r.id < |rows| && rows[r.id].key == key
                        && forall i: nat :: i < |rows| && rows[i].key == key ==> i == r.id
      ensures r.Rejected? || r.replayed ==> State() == old(State())
      ensures r.Ok? && !r.replayed ==>
                && rows == old(rows) + [Effect(caseId, key, amount, COMMITTED)] && r.id == |old(rows)|
                && outbox == old(outbox) + [OutboxRow(caseId, r.id, amount, false)]
    {
      if amount <= 0 {
        CreateIdle(State(), caseId, key, amount);
        return Rejected;
      }
      var existing := FindKey(rows, key);
      if existing.Some? {
        CreateIdle(State(), caseId, key, amount);
        return Ok(existing.value, true);
      }
      CreateAlone(State(), caseId, key, amount);
      var id := |rows|;
      rows := rows + [Effect(caseId, key, amount, COMMITTED)];
      AppendDecision(caseId, id, None, COMMITTED, amount);
      Publish(caseId, id, amount);
      r := Ok(id, false);
    }

    /** False is 404. No event is published, and a row already VOIDED is voided, and logged, again. */
    method Void(id: nat) returns (found: bool)
      requires Valid()
      modifies this
      ensures Valid() && (found <==> id < |old(rows)|)
      ensures State() == Apply(Apply(old(State()), VoidBegin(0, id)), Commit(0))
      ensures outbox == old(outbox)
      ensures found ==>
                && rows == old(rows)[id := old(rows)[id].(state := VOIDED)] && |log| == |old(log)| + 1
                && log[..|old(log)|] == old(log) && log[|old(log)|].entity == id && log[|old(log)|].toState == VOIDED
                && log[|old(log)|].caseId == rows[id].caseId && log[|old(log)|].amount == rows[id].amount
      ensures !found ==> rows == old(rows) && log == old(log)
    {
      if id >= |rows| {
        assert State().open - {0} == map[];
        return false;
      }
      ghost var before := State();
      var row := rows[id];
      VoidAlone(before, id);
      rows := rows[id := row.(state := VOIDED)];
      AppendDecision(row.caseId, id, Some(COMMITTED), VOIDED, row.amount);
      return true;
    }

    /** GET /refunds and GET /credits: the rows of the case by id, and its committed total, which is
        the one the log tells. */
    method ListEffects(caseId: string) returns (ids: seq<nat>, total: int)
      requires Valid()
      ensures forall id: nat :: id in ids <==> id < |rows| && rows[id].caseId == caseId
      ensures forall i, j :: 0 <= i < j < |ids| ==> ids[i] < ids[j]
      ensures total == CommittedTotal(State(), caseId) == Sum(Rebuild(log), CommittedInLog(caseId))
    {
      ids := [];
      for id := 0 to |rows|
        invariant forall k: nat :: k in ids <==> k < id && rows[k].caseId == caseId
        invariant forall i, j :: 0 <= i < j < |ids| ==> ids[i] < ids[j]
      {
        if rows[id].caseId == caseId {
          assert forall i :: 0 <= i < |ids| ==> ids[i] in ids;
          ids := ids + [id];
        }
      }
      total := Sum(rows, Committed(caseId));
      SumEq(rows, Committed(caseId), Summarise(rows), CommittedInLog(caseId));
    }

    /** The outbox rows not applied yet, of one case if one is given, in id order. */
    method ListUnapplied(caseId: Option<string>) returns (events: seq<nat>)
      ensures events == Unapplied(outbox, caseId)
    {
      events := Unapplied(outbox, caseId);
    }

    method MarkApplied(id: nat) returns (found: bool)
      modifies this`outbox
      ensures old(Valid()) ==> Valid()
      ensures found <==> id < |old(outbox)|
      ensures State() == Apply(old(State()), Stores.MarkApplied(id))
      ensures outbox == if found then old(outbox)[id := old(outbox)[id].(applied := true)] else old(outbox)
    {
      found := id < |outbox|;
      if found {
        outbox := outbox[id := outbox[id].(applied := true)];
      }
    }

    method RedeliverEvents(caseId: string) returns (ids: set<nat>)
      modifies this`outbox
      ensures old(Valid()) ==> Valid()
      ensures State() == Apply(old(State()), Redeliver(caseId))
      ensures |outbox| == |old(outbox)|
      ensures forall i: nat :: i < |outbox| ==>
                outbox[i] == if old(outbox)[i].caseId == caseId then old(outbox)[i].(applied := false)
                             else old(outbox)[i]
      ensures ids == set i: nat | i < |old(outbox)| && old(outbox)[i].caseId == caseId && old(outbox)[i].applied
    {
      ids := set i: nat | i < |outbox| && outbox[i].caseId == caseId && outbox[i].applied;
      outbox := Redelivered(outbox, caseId);
    }
  }
}
