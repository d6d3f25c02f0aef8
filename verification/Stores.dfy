/** apps/billing/main.py and apps/ledger/main.py with libs/service_common.py and libs/outbox.py.
    The two services run the same code over separate databases; a Store is one of them. */
module Stores {
  import opened Base

  datatype EffectState = PENDING | COMMITTED | SETTLED | VOIDED
  datatype Effect = Effect(caseId: string, key: string, amount: int, state: EffectState)
  datatype LogRow = LogRow(caseId: string, sequence: int, entity: nat,
                           fromState: Option<EffectState>, toState: EffectState, amount: int)
  datatype OutboxRow = OutboxRow(caseId: string, entity: nat, amount: int, applied: bool)

  /** A transaction between its reads and its commit: the sequence number was read from the log. */
  datatype Txn = Creating(caseId: string, key: string, amount: int, sequence: int) | Voiding(id: nat, sequence: int)

  datatype Store = Store(rows: seq<Effect>, log: seq<LogRow>, outbox: seq<OutboxRow>, open: map<nat, Txn>)

  datatype Event =
    | CreateBegin(t: nat, caseId: string, key: string, amount: int)
    | VoidBegin(t: nat, id: nat)
    | Commit(t: nat)
    | Rollback(t: nat)
    | MarkApplied(id: nat)
    | Redeliver(caseId: string)

  const Empty: Store := Store([], [], [], map[])

  function FindKey(rows: seq<Effect>, key: string): (r: Option<nat>)
    ensures r.Some? ==> r.value < |rows| && rows[r.value].key == key
    ensures r.None? ==> forall i: nat :: i < |rows| ==> rows[i].key != key
  {
    FindBy(rows, (e: Effect) => e.key, key)
  }

  /** COALESCE(MAX(sequence), 0) over the rows of one case. */
  function MaxSequence(log: seq<LogRow>, c: string): int {
    if |log| == 0 then 0
    else
      var rest := MaxSequence(log[..|log| - 1], c);
      var last := log[|log| - 1];
      if last.caseId == c && last.sequence > rest then last.sequence else rest
  }

  function NextSequence(log: seq<LogRow>, c: string): int { MaxSequence(log, c) + 1 }

  /** UNIQUE (case_id, sequence) would reject this pair. */
  predicate SequenceTaken(log: seq<LogRow>, c: string, sequence: int) {
    exists i :: 0 <= i < |log| && log[i].caseId == c && log[i].sequence == sequence
  }

  function Inserted(s: Store, c: string, key: string, amount: int, sequence: int): Store {
    var id := |s.rows|;
    s.(rows := s.rows + [Effect(c, key, amount, COMMITTED)],
       log := s.log + [LogRow(c, sequence, id, None, COMMITTED, amount)],
       outbox := s.outbox + [OutboxRow(c, id, amount, false)])
  }

  function Voided(s: Store, id: nat, sequence: int): Store
    requires id < |s.rows|
  {
    var row := s.rows[id];
    s.(rows := s.rows[id := row.(state := VOIDED)],
       log := s.log + [LogRow(row.caseId, sequence, id, Some(COMMITTED), VOIDED, row.amount)])
  }

  /** SELECT id FROM outbox WHERE applied_at IS NULL [AND case_id = c] ORDER BY id. */
  function Unapplied(outbox: seq<OutboxRow>, c: Option<string>): (ids: seq<nat>)
    ensures forall i: nat :: i in ids <==>
              i < |outbox| && !outbox[i].applied && (c.Some? ==> outbox[i].caseId == c.value)
    ensures forall i :: 0 <= i < |ids| ==> ids[i] < |outbox|
    ensures forall i, j :: 0 <= i < j < |ids| ==> ids[i] < ids[j]
  {
    if |outbox| == 0 then []
    else
      var n := |outbox| - 1;
      var rest := Unapplied(outbox[..n], c);
      if !outbox[n].applied && (c.Some? ==> outbox[n].caseId == c.value) then rest + [n] else rest
  }

  function Redelivered(outbox: seq<OutboxRow>, c: string): seq<OutboxRow> {
    seq(|outbox|, i requires 0 <= i < |outbox| =>
      if outbox[i].caseId == c then outbox[i].(applied := false) else outbox[i])
  }

  function WithMark(s: Store, id: nat): Store {
    if id < |s.outbox| then s.(outbox := s.outbox[id := s.outbox[id].(applied := true)]) else s
  }

  function Apply(s: Store, e: Event): Store {
    match e
    case CreateBegin(t, c, key, amount) =>
      if t in s.open || amount <= 0 || FindKey(s.rows, key).Some? then s
      else s.(open := s.open[t := Creating(c, key, amount, NextSequence(s.log, c))])
    case VoidBegin(t, id) =>
      if t in s.open || id >= |s.rows| then s
      else s.(open := s.open[t := Voiding(id, NextSequence(s.log, s.rows[id].caseId))])
    case Commit(t) =>
      if t !in s.open then s
      else
        var closed := s.(open := s.open - {t});
        (match s.open[t]
         case Creating(c, key, amount, sequence) =>
           if FindKey(s.rows, key).Some? || SequenceTaken(s.log, c, sequence) then closed
           else Inserted(closed, c, key, amount, sequence)
         case Voiding(id, sequence) =>
           if id >= |s.rows| || SequenceTaken(s.log, s.rows[id].caseId, sequence) then closed
           else Voided(closed, id, sequence))
    case Rollback(t) => s.(open := s.open - {t})
    case MarkApplied(id) =>
      WithMark(s, id)
    case Redeliver(c) => s.(outbox := Redelivered(s.outbox, c))
  }

  function Exec(s: Store, es: seq<Event>): Store {
    if |es| == 0 then s else Apply(Exec(s, es[..|es| - 1]), es[|es| - 1])
  }

  // ---------------------------------------------------------------- what the log alone tells

  function CountCase(log: seq<LogRow>, c: string): nat {
    if |log| == 0 then 0
    else CountCase(log[..|log| - 1], c) + if log[|log| - 1].caseId == c then 1 else 0
  }

  datatype Summary = Summary(caseId: string, amount: int, state: EffectState)

  function Summarise(rows: seq<Effect>): seq<Summary> {
    seq(|rows|, i requires 0 <= i < |rows| => Summary(rows[i].caseId, rows[i].amount, rows[i].state))
  }

  /** Replaying the log: a first transition creates the next entity, a later one moves it. */
  function Rebuild(log: seq<LogRow>): seq<Summary> {
    if |log| == 0 then []
    else
      var rest := Rebuild(log[..|log| - 1]);
      var last := log[|log| - 1];
      if last.fromState.None? && last.entity == |rest| then rest + [Summary(last.caseId, last.amount, last.toState)]
      else if last.entity < |rest| then rest[last.entity := rest[last.entity].(state := last.toState)]
      else rest
  }

  ghost predicate GapFree(log: seq<LogRow>) {
    forall j :: 0 <= j < |log| ==> log[j].sequence == CountCase(log[..j], log[j].caseId) + 1
  }

  /** Each log row creates the next entity or voids an existing one, claiming it was COMMITTED. */
  ghost predicate Transition(row: LogRow, before: seq<Summary>) {
    || (row.fromState.None? && row.toState.COMMITTED? && row.entity == |before|)
    || (row.fromState == Some(COMMITTED) && row.toState.VOIDED? && row.entity < |before|)
  }

  ghost predicate Transitions(log: seq<LogRow>) {
    forall j :: 0 <= j < |log| ==> Transition(log[j], Rebuild(log[..j]))
  }

  ghost predicate KeysUnique(rows: seq<Effect>) {
    forall i: nat, j: nat :: i < j < |rows| ==> rows[i].key != rows[j].key
  }

  /** One event per row, naming it: published in the transaction that wrote the row. */
  ghost predicate OutboxTrue(s: Store) {
    && |s.outbox| == |s.rows|
    && forall i: nat :: i < |s.rows| ==>
         s.outbox[i].caseId == s.rows[i].caseId && s.outbox[i].amount == s.rows[i].amount && s.outbox[i].entity == i
  }

  ghost predicate SequencesRead(s: Store) {
    forall t :: t in s.open ==>
      match s.open[t]
      case Creating(c, _, amount, sequence) => amount > 0 && 1 <= sequence <= CountCase(s.log, c) + 1
      case Voiding(id, sequence) => id < |s.rows| && 1 <= sequence <= CountCase(s.log, s.rows[id].caseId) + 1
  }

  ghost predicate RowsTrue(rows: seq<Effect>) {
    forall i: nat :: i < |rows| ==> rows[i].amount > 0 && rows[i].state in {COMMITTED, VOIDED}
  }

  ghost predicate Inv(s: Store) {
    && KeysUnique(s.rows) && RowsTrue(s.rows) && OutboxTrue(s)
    && GapFree(s.log) && Transitions(s.log) && Rebuild(s.log) == Summarise(s.rows) && SequencesRead(s)
  }

  lemma {:induction false} GapFreeMax(log: seq<LogRow>, c: string)
    requires GapFree(log)
    ensures MaxSequence(log, c) == CountCase(log, c)
  {
    if |log| > 0 {
      var n := |log| - 1;
      var front := log[..n];
      forall j | 0 <= j < n ensures front[j].sequence == CountCase(front[..j], front[j].caseId) + 1 {
        assert front[..j] == log[..j];
      }
      GapFreeMax(front, c);
    }
  }

  lemma {:induction false} AllTaken(log: seq<LogRow>, c: string, k: int)
    requires GapFree(log) && 1 <= k <= CountCase(log, c)
    ensures SequenceTaken(log, c, k)
  {
    var n := |log| - 1;
    var front := log[..n];
    forall j | 0 <= j < n ensures front[j].sequence == CountCase(front[..j], front[j].caseId) + 1 {
      assert front[..j] == log[..j];
    }
    if k <= CountCase(front, c) {
      AllTaken(front, c, k);
      var i :| 0 <= i < |front| && front[i].caseId == c && front[i].sequence == k;
      assert log[i].caseId == c && log[i].sequence == k;
    } else {
      assert log[n].caseId == c && log[n].sequence == k;
    }
  }

  /** The unique constraint is what keeps the log gap-free: a number read before other commits
      is either still the next one or already taken. */
  lemma FreeSequenceIsNext(log: seq<LogRow>, c: string, sequence: int)
    requires GapFree(log) && 1 <= sequence <= CountCase(log, c) + 1
    ensures !SequenceTaken(log, c, sequence) <==> sequence == CountCase(log, c) + 1
  {
    if sequence <= CountCase(log, c) {
      AllTaken(log, c, sequence);
    } else {
      forall i | 0 <= i < |log| && log[i].caseId == c ensures log[i].sequence != sequence {
        CountPrefix(log, c, i);
      }
    }
  }

  lemma {:induction false} CountPrefix(log: seq<LogRow>, c: string, i: nat)
    requires i < |log| && log[i].caseId == c
    ensures CountCase(log[..i], c) < CountCase(log, c)
  {
    var n := |log| - 1;
    if i < n {
      assert log[..n][..i] == log[..i];
      CountPrefix(log[..n], c, i);
    }
  }

  lemma AppendLog(log: seq<LogRow>, row: LogRow)
    requires GapFree(log) && row.sequence == CountCase(log, row.caseId) + 1
    ensures GapFree(log + [row])
    ensures forall c :: CountCase(log + [row], c) == CountCase(log, c) + (if row.caseId == c then 1 else 0)
    ensures (log + [row])[..|log|] == log
  {
    var longer := log + [row];
    assert longer[..|log|] == log;
    forall j | 0 <= j < |longer| ensures longer[j].sequence == CountCase(longer[..j], longer[j].caseId) + 1 {
      if j < |log| { assert longer[..j] == log[..j]; }
    }
  }

  lemma AppendTransition(log: seq<LogRow>, row: LogRow)
    requires Transitions(log) && Transition(row, Rebuild(log))
    ensures Transitions(log + [row])
  {
    var longer := log + [row];
    assert longer[..|log|] == log;
    forall j | 0 <= j < |longer| ensures Transition(longer[j], Rebuild(longer[..j])) {
      if j < |log| { assert longer[..j] == log[..j]; }
    }
  }

  lemma TransitionsPrefix(log: seq<LogRow>, n: nat)
    requires Transitions(log) && n <= |log|
    ensures Transitions(log[..n])
  {
    forall i | 0 <= i < n ensures Transition(log[..n][i], Rebuild(log[..n][..i])) { assert log[..n][..i] == log[..i]; }
  }

  lemma InsertRows(s: Store, r: Store, row: Effect, entry: OutboxRow)
    requires KeysUnique(s.rows) && RowsTrue(s.rows) && OutboxTrue(s)
    requires FindKey(s.rows, row.key).None? && row.amount > 0 && row.state.COMMITTED?
    requires entry.caseId == row.caseId && entry.amount == row.amount && entry.entity == |s.rows|
    requires r.rows == s.rows + [row] && r.outbox == s.outbox + [entry]
    ensures KeysUnique(r.rows) && RowsTrue(r.rows) && OutboxTrue(r)
  {
  }

  lemma InsertRebuild(log: seq<LogRow>, rows: seq<Effect>, row: Effect, sequence: int)
    requires Rebuild(log) == Summarise(rows) && row.state.COMMITTED?
    ensures Rebuild(log + [LogRow(row.caseId, sequence, |rows|, None, COMMITTED, row.amount)])
         == Summarise(rows + [row])
  {
  }

  lemma InsertSequences(s: Store, r: Store, last: LogRow)
    requires SequencesRead(s) && |s.rows| <= |r.rows| && forall i: nat :: i < |s.rows| ==> r.rows[i] == s.rows[i]
    requires r.open.Keys <= s.open.Keys && forall t :: t in r.open ==> r.open[t] == s.open[t]
    requires forall c :: CountCase(r.log, c) == CountCase(s.log, c) + if last.caseId == c then 1 else 0
    ensures SequencesRead(r)
  {
  }

  lemma InsertKeeps(s: Store, r: Store, c: string, key: string, amount: int, sequence: int)
    requires Inv(s) && amount > 0 && FindKey(s.rows, key).None?
    requires sequence == CountCase(s.log, c) + 1
    requires r.open.Keys <= s.open.Keys && forall t :: t in r.open ==> r.open[t] == s.open[t]
    requires r == Inserted(s.(open := r.open), c, key, amount, sequence)
    ensures Inv(r)
  {
    var last := LogRow(c, sequence, |s.rows|, None, COMMITTED, amount);
    AppendLog(s.log, last);
    AppendTransition(s.log, last);
    InsertRows(s, r, Effect(c, key, amount, COMMITTED), OutboxRow(c, |s.rows|, amount, false));
    InsertRebuild(s.log, s.rows, Effect(c, key, amount, COMMITTED), sequence);
    InsertSequences(s, r, last);
  }

  lemma VoidKeeps(s: Store, r: Store, id: nat, sequence: int)
    requires Inv(s) && id < |s.rows| && sequence == CountCase(s.log, s.rows[id].caseId) + 1
    requires r.open.Keys <= s.open.Keys && forall t :: t in r.open ==> r.open[t] == s.open[t]
    requires r == Voided(s.(open := r.open), id, sequence)
    ensures Inv(r)
  {
    AppendLog(s.log, LogRow(s.rows[id].caseId, sequence, id, Some(COMMITTED), VOIDED, s.rows[id].amount));
    AppendTransition(s.log, LogRow(s.rows[id].caseId, sequence, id, Some(COMMITTED), VOIDED, s.rows[id].amount));
    assert Rebuild(r.log) == Summarise(r.rows);
  }

  lemma CommitKeeps(s: Store, t: nat)
    requires Inv(s) && t in s.open
    ensures Inv(Apply(s, Commit(t)))
  {
    match s.open[t]
    case Creating(c, key, amount, sequence) =>
      FreeSequenceIsNext(s.log, c, sequence);
      if FindKey(s.rows, key).None? && !SequenceTaken(s.log, c, sequence) {
        InsertKeeps(s, Apply(s, Commit(t)), c, key, amount, sequence);
      }
    case Voiding(id, sequence) =>
      FreeSequenceIsNext(s.log, s.rows[id].caseId, sequence);
      if !SequenceTaken(s.log, s.rows[id].caseId, sequence) {
        VoidKeeps(s, Apply(s, Commit(t)), id, sequence);
      }
  }

  lemma MarkKeeps(s: Store, id: nat)
    requires Inv(s)
    ensures Inv(WithMark(s, id))
  {
  }

  lemma ApplyKeeps(s: Store, e: Event)
    requires Inv(s)
    ensures Inv(Apply(s, e))
  {
    match e
    case CreateBegin(_, c, _, _) => GapFreeMax(s.log, c);
    case VoidBegin(_, id) => if id < |s.rows| { GapFreeMax(s.log, s.rows[id].caseId); }
    case Commit(t) => if t in s.open { CommitKeeps(s, t); }
    case _ =>
  }

  /** Over every run of creates, replays, voids, rollbacks and lost unique-constraint races: one
      row per key, one event per row, log sequences exactly 1..n per case, and the table is what
      the log alone rebuilds. */
  lemma {:induction false} RunKeeps(es: seq<Event>)
    ensures Inv(Exec(Empty, es))
  {
    if |es| > 0 {
      RunKeeps(es[..|es| - 1]);
      ApplyKeeps(Exec(Empty, es[..|es| - 1]), es[|es| - 1]);
    }
  }

  // ------------------------------------------------------------------------------ consequences

  predicate IsCommitted(st: EffectState) { st.COMMITTED? || st.SETTLED? }

  /** A committed effect bears the key. */
  predicate Landed(rows: seq<Effect>, key: string) {
    exists r: nat :: r < |rows| && rows[r].key == key && IsCommitted(rows[r].state)
  }

  /** What a row counts as committed money of case `c`: COMMITTED or SETTLED, never VOIDED. */
  function Committed(c: string): Effect -> int {
    (e: Effect) => if e.caseId == c && IsCommitted(e.state) then e.amount else 0
  }

  function CommittedInLog(c: string): Summary -> int {
    (e: Summary) => if e.caseId == c && IsCommitted(e.state) then e.amount else 0
  }

  function CommittedTotal(s: Store, c: string): int { Sum(s.rows, Committed(c)) }

  /** The committed total can be reconstructed from the append-only log. */
  lemma CommittedTotalFromLog(es: seq<Event>, c: string)
    ensures var s := Exec(Empty, es); CommittedTotal(s, c) == Sum(Rebuild(s.log), CommittedInLog(c))
  {
    RunKeeps(es);
    var s := Exec(Empty, es);
    SumEq(s.rows, Committed(c), Summarise(s.rows), CommittedInLog(c));
  }

  ghost predicate VoidedIn(log: seq<LogRow>, id: nat) {
    exists j :: 0 <= j < |log| && log[j].entity == id && log[j].toState.VOIDED?
  }

  lemma VoidedInLast(log: seq<LogRow>, id: nat)
    requires |log| > 0
    ensures var n := |log| - 1;
            VoidedIn(log, id) <==> VoidedIn(log[..n], id) || (log[n].entity == id && log[n].toState.VOIDED?)
  {
  }

  lemma {:induction false} VoidedByLog(log: seq<LogRow>, id: nat)
    requires Transitions(log) && id < |Rebuild(log)|
    ensures Rebuild(log)[id].state == if VoidedIn(log, id) then VOIDED else COMMITTED
  {
    var n := |log| - 1;
    TransitionsPrefix(log, n);
    assert Transition(log[n], Rebuild(log[..n]));
    VoidedInLast(log, id);
    if id < |Rebuild(log[..n])| {
      VoidedByLog(log[..n], id);
    } else {
      EntitiesExist(log[..n]);
      assert !VoidedIn(log[..n], id);
    }
  }

  lemma {:induction false} EntitiesExist(log: seq<LogRow>)
    requires Transitions(log)
    ensures forall j :: 0 <= j < |log| ==> log[j].entity < |Rebuild(log)|
  {
    if |log| > 0 {
      var n := |log| - 1;
      TransitionsPrefix(log, n);
      assert Transition(log[n], Rebuild(log[..n]));
      EntitiesExist(log[..n]);
      forall j | 0 <= j < n ensures log[j].entity < |Rebuild(log)| {
        assert log[..n][j].entity < |Rebuild(log[..n])|;
      }
    }
  }

  /** A log row tells the truth about the state its entity was in. */
  ghost predicate FromStateTrue(log: seq<LogRow>, j: nat)
    requires j < |log|
  {
    var before := Rebuild(log[..j]);
    log[j].fromState == if log[j].entity < |before| then Some(before[log[j].entity].state) else None
  }

  /** `void` always logs COMMITTED as the state it left, so a log row misreports its from_state
      exactly when its entity had been voided before. */
  lemma FromStateTrueIffNotVoidedTwice(es: seq<Event>, j: nat)
    requires j < |Exec(Empty, es).log|
    ensures var log := Exec(Empty, es).log;
            FromStateTrue(log, j) <==> !(log[j].toState.VOIDED? && VoidedIn(log[..j], log[j].entity))
  {
    RunKeeps(es);
    var log := Exec(Empty, es).log;
    var front := log[..j];
    TransitionsPrefix(log, j);
    assert Transition(log[j], Rebuild(log[..j]));
    if log[j].entity < |Rebuild(front)| {
      VoidedByLog(front, log[j].entity);
    }
  }

  /** What an outbox may do in one step: keep its events, perhaps gain one for a new row, and mark
      only what it is told to mark. */
  ghost predicate OutboxGrows(s: Store, r: Store) {
    && |s.outbox| <= |r.outbox| <= |s.outbox| + 1
    && forall i: nat :: i < |s.outbox| ==>
           r.outbox[i].caseId == s.outbox[i].caseId && r.outbox[i].amount == s.outbox[i].amount
  }

  lemma OutboxStep(s: Store, e: Event)
    ensures OutboxGrows(s, Apply(s, e))
    ensures var r := Apply(s, e);
            && (forall i: nat :: i < |s.outbox| && r.outbox[i].applied && !s.outbox[i].applied ==> e == MarkApplied(i))
            && (|r.outbox| > |s.outbox| ==> !r.outbox[|s.outbox|].applied)
  {
  }

  /** Rows are never rewritten but for their state; a new one is what its transaction asked for. */
  lemma RowsStep(s: Store, e: Event)
    ensures var r := Apply(s, e);
            && |s.rows| <= |r.rows|
            && (forall i: nat :: i < |s.rows| ==>
                  r.rows[i].key == s.rows[i].key && r.rows[i].caseId == s.rows[i].caseId
                  && r.rows[i].amount == s.rows[i].amount)
            && (forall i: nat :: |s.rows| <= i < |r.rows| ==>
                  exists t :: t in s.open && s.open[t].Creating? && r.rows[i].key == s.open[t].key
                              && r.rows[i].caseId == s.open[t].caseId && r.rows[i].amount == s.open[t].amount)
            && (forall t :: t in r.open && r.open[t].Creating? ==>
                  (t in s.open && r.open[t] == s.open[t])
                  || (e.CreateBegin? && r.open[t].key == e.key
                      && r.open[t].caseId == e.caseId && r.open[t].amount == e.amount))
  {
  }

  /** Only a new committed row raises a case's committed total, and by no more than its amount. */
  lemma TotalStep(s: Store, e: Event, c: string)
    requires RowsTrue(s.rows)
    ensures var r := Apply(s, e);
            CommittedTotal(r, c)
              <= CommittedTotal(s, c)
                 + (if |r.rows| > |s.rows| && r.rows[|s.rows|].caseId == c then r.rows[|s.rows|].amount else 0)
    ensures |Apply(s, e).rows| <= |s.rows| + 1
  {
    var r := Apply(s, e);
    if |r.rows| > |s.rows| {
      assert r.rows == s.rows + [r.rows[|s.rows|]];
      SumAppend(s.rows, r.rows[|s.rows|], Committed(c));
    } else {
      SumLe(r.rows, Committed(c), s.rows, Committed(c));
    }
  }
}
