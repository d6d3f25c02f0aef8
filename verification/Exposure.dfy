/** What the read-check-write of agents/diligent/policy.py guarantees by itself, with or without a
    reservation authority: exposure is staleness. */
module Exposure {
  import opened Base
  import opened Agents
  import opened Ceiling
  import opened Overspend
  import S = Stores
  import P = Projection
  import SoloRuns

  /** A row inserted into a service, and the true total of its case just before. */
  datatype Write = Write(service: P.Service, row: S.Effect, before: int)

  /** The system of Ceiling, with what each actor observed and which effects landed, in order. */
  datatype Watched = Watched(y: Sys, seen: map<nat, int>, writes: seq<Write>)

  predicate Observes(y: Sys, e: Event) {
    e.Act? && CanAct(y, e.i, e.x) && e.x.Answered? && e.x.answer.Total? && Pending(y.actors[e.i].agent) == Some(Observe)
  }

  function Landing(y: Sys, z: Sys, s: P.Service): seq<Write> {
    var before, after := Source(y, s).rows, Source(z, s).rows;
    if |after| > |before|
    then [Write(s, after[|before|], CommittedMoney(y, after[|before|].caseId))] else []
  }

  function Step(w: Watched, e: Event): Watched {
    var z := Apply(w.y, e);
    Watched(z,
            if Observes(w.y, e) then w.seen[e.i := e.x.answer.observed] else w.seen,
            w.writes + if e.Store? then Landing(w.y, z, e.s) else [])
  }

  function Watch(cfgs: seq<Config>, clock: int, es: seq<Event>): Watched {
    if |es| == 0 then Watched(Init(cfgs, clock), map[], []) else Step(Watch(cfgs, clock, es[..|es| - 1]), es[|es| - 1])
  }

  /** Actor `i` is one of those that asked for write `k`. */
  predicate Asker(w: Watched, k: nat, i: nat) {
    && k < |w.writes| && i < |w.y.actors|
    && var row := w.writes[k].row; Creates(w.y.actors[i], w.writes[k].service, row.key, row.caseId, row.amount)
  }

  /** The money of the case that actor `i` had not seen when write `k` landed. */
  function Missed(w: Watched, k: nat, i: nat): int
    requires k < |w.writes| && i in w.seen
  {
    w.writes[k].before - w.seen[i]
  }

  /** Write `k` was asked for, and by nobody who had missed less than `d`. */
  ghost predicate StaleBy(w: Watched, k: nat, d: int) {
    && (exists i: nat :: Asker(w, k, i))
    && (forall i: nat :: Asker(w, k, i) ==> i in w.seen && Missed(w, k, i) >= d)
  }

  ghost predicate SomeWriteStaleBy(w: Watched, c: string, d: int) {
    exists k: nat :: k < |w.writes| && w.writes[k].row.caseId == c && StaleBy(w, k, d)
  }

  /** Whoever works on the case checks what it observed before acting. */
  ghost predicate Checkers(cfgs: seq<Config>, c: string) {
    forall i: nat :: i < |cfgs| && cfgs[i].caseId == c ==> !cfgs[i].model
  }

  ghost predicate Checked(a: Actor, i: nat, seen: map<nat, int>) {
    && a.agent.Diligent?
    && (Create in a.sent || a.agent.phase.Reserving? || a.agent.phase.Creating? ==>
          i in seen && seen[i] + a.cfg.amount <= a.cfg.authorized)
    && (a.agent.phase.Observing? ==> Create !in a.sent)
  }

  ghost predicate AllChecked(w: Watched, c: string) {
    forall i: nat :: i < |w.y.actors| && w.y.actors[i].cfg.caseId == c ==> Checked(w.y.actors[i], i, w.seen)
  }

  ghost predicate WritesOwned(w: Watched) {
    forall k: nat :: k < |w.writes| ==>
      RowOwned(w.y, w.writes[k].service, w.writes[k].row.key, w.writes[k].row.caseId, w.writes[k].row.amount)
  }

  /** The case has at most the money it had once write `k` had landed. */
  ghost predicate Covers(w: Watched, c: string, k: nat) {
    && k < |w.writes| && w.writes[k].row.caseId == c
    && CommittedMoney(w.y, c) <= w.writes[k].before + w.writes[k].row.amount
  }

  ghost predicate Covered(w: Watched, c: string) { CommittedMoney(w.y, c) > 0 ==> exists k: nat :: Covers(w, c, k) }

  lemma CheckedStep(w: Watched, e: Event, c: string)
    requires AllChecked(w, c)
    ensures AllChecked(Step(w, e), c)
  {
    ApplyGrows(w.y, e);
    var v := Step(w, e);
    forall i: nat | i < |v.y.actors| && v.y.actors[i].cfg.caseId == c ensures Checked(v.y.actors[i], i, v.seen) {
      assert Checked(w.y.actors[i], i, w.seen);
    }
  }

  lemma WritesOwnedStep(w: Watched, e: Event)
    requires WritesOwned(w) && RowsOwned(w.y, P.Billing) && RowsOwned(w.y, P.Ledger)
    ensures WritesOwned(Step(w, e))
  {
    ApplyGrows(w.y, e);
    OwnedStays(w.y, Apply(w.y, e));
    RowsOwnedStep(w.y, e);
    var v := Step(w, e);
    forall k: nat | k < |v.writes|
      ensures RowOwned(v.y, v.writes[k].service, v.writes[k].row.key, v.writes[k].row.caseId, v.writes[k].row.amount)
    {
      if k < |w.writes| {
        assert RowOwned(w.y, w.writes[k].service, w.writes[k].row.key, w.writes[k].row.caseId, w.writes[k].row.amount);
      }
    }
  }

  lemma MoneyStep(y: Sys, e: Event, c: string)
    requires StoresTrue(y) && e.Store? && Asked(y, e)
    ensures var before, after := Source(y, e.s).rows, Source(Apply(y, e), e.s).rows;
            CommittedMoney(Apply(y, e), c)
              <= CommittedMoney(y, c)
                 + (if |after| > |before| && after[|before|].caseId == c then after[|before|].amount else 0)
  {
    S.TotalStep(Source(y, e.s), e.r, c);
  }

  /** Where the money did not grow, what covered it still does. */
  lemma StillCovered(w: Watched, v: Watched, c: string)
    requires Covered(w, c) && w.writes <= v.writes && CommittedMoney(v.y, c) <= CommittedMoney(w.y, c)
    ensures Covered(v, c)
  {
    if CommittedMoney(v.y, c) > 0 {
      var k: nat :| Covers(w, c, k);
      assert Covers(v, c, k);
    }
  }

  lemma CoveredStep(w: Watched, e: Event, c: string)
    requires Covered(w, c) && StoresTrue(w.y)
    ensures Covered(Step(w, e), c)
  {
    var v := Step(w, e);
    if e.Store? && Asked(w.y, e) {
      MoneyStep(w.y, e, c);
      var before, after := Source(w.y, e.s).rows, Source(v.y, e.s).rows;
      if |after| > |before| && after[|before|].caseId == c {
        assert Covers(v, c, |w.writes|);
      } else {
        StillCovered(w, v, c);
      }
    } else {
      StillCovered(w, v, c);
    }
  }

  lemma {:induction false} WatchedRun(cfgs: seq<Config>, clock: int, es: seq<Event>, c: string)
    requires Checkers(cfgs, c)
    ensures var w := Watch(cfgs, clock, es);
            && w.y == Exec(Init(cfgs, clock), es) && |w.y.actors| == |cfgs|
            && (forall i: nat :: i < |cfgs| ==> w.y.actors[i].cfg == cfgs[i])
            && AllChecked(w, c) && WritesOwned(w) && Covered(w, c)
  {
    RunOwned(cfgs, clock, es);
    if |es| > 0 {
      var front, e := es[..|es| - 1], es[|es| - 1];
      WatchedRun(cfgs, clock, front, c);
      RunOwned(cfgs, clock, front);
      CheckedStep(Watch(cfgs, clock, front), e, c);
      WritesOwnedStep(Watch(cfgs, clock, front), e);
      CoveredStep(Watch(cfgs, clock, front), e, c);
    }
  }

  lemma CoveringIsStale(w: Watched, c: string, ceiling: int, k: nat)
    requires AllChecked(w, c) && WritesOwned(w) && Covers(w, c, k)
    requires forall i: nat :: i < |w.y.actors| && w.y.actors[i].cfg.caseId == c ==>
               w.y.actors[i].cfg.authorized <= ceiling
    ensures StaleBy(w, k, CommittedMoney(w.y, c) - ceiling)
  {
    var row := w.writes[k].row;
    assert RowOwned(w.y, w.writes[k].service, row.key, row.caseId, row.amount);
    var i: nat :| i < |w.y.actors| && Creates(w.y.actors[i], w.writes[k].service, row.key, row.caseId, row.amount);
    assert Asker(w, k, i);
    forall j: nat | Asker(w, k, j) ensures j in w.seen && Missed(w, k, j) >= CommittedMoney(w.y, c) - ceiling {
      assert Checked(w.y.actors[j], j, w.seen);
    }
  }

  /** Exposure is staleness. For any agents that check first, any interleaving, any observation, and
      keys shared or run again at will: if the case holds money, some write of it was asked for only
      by agents that had each missed at least what the case holds beyond its ceiling. */
  lemma ExposureIsStaleness(cfgs: seq<Config>, clock: int, es: seq<Event>, c: string, ceiling: int)
    requires Checkers(cfgs, c) && CeilingOf(cfgs, c, ceiling)
    ensures var w := Watch(cfgs, clock, es);
            w.y == Exec(Init(cfgs, clock), es)
            && (CommittedMoney(w.y, c) > 0 ==> SomeWriteStaleBy(w, c, CommittedMoney(w.y, c) - ceiling))
  {
    WatchedRun(cfgs, clock, es, c);
    var w := Watch(cfgs, clock, es);
    if CommittedMoney(w.y, c) > 0 {
      var k: nat :| Covers(w, c, k);
      CoveringIsStale(w, c, ceiling, k);
    }
  }

  /** One of the agents that asked for write `k` had seen at least the truth when it landed. */
  ghost predicate AskedFresh(w: Watched, k: nat)
    requires k < |w.writes|
  {
    exists i: nat :: Asker(w, k, i) && i in w.seen && Missed(w, k, i) <= 0
  }

  /** Where each write had a fresh agent asking for it, there is no breach. */
  lemma FreshWritersNeverBreach(cfgs: seq<Config>, clock: int, es: seq<Event>, c: string, ceiling: nat)
    requires Checkers(cfgs, c) && CeilingOf(cfgs, c, ceiling)
    requires var w := Watch(cfgs, clock, es);
             forall k: nat :: k < |w.writes| && w.writes[k].row.caseId == c ==> AskedFresh(w, k)
    ensures CommittedMoney(Exec(Init(cfgs, clock), es), c) <= ceiling
  {
    ExposureIsStaleness(cfgs, clock, es, c, ceiling);
  }

  lemma WatchOne(cfgs: seq<Config>, clock: int, es: seq<Event>, e: Event)
    ensures Watch(cfgs, clock, es + [e]) == Step(Watch(cfgs, clock, es), e)
  {
  }

  function StepFour(w: Watched, es: seq<Event>): Watched
    requires |es| == 4
  {
    Step(Step(Step(Step(w, es[0]), es[1]), es[2]), es[3])
  }

  lemma WatchFour(cfgs: seq<Config>, clock: int, es: seq<Event>, more: seq<Event>)
    requires |more| == 4
    ensures Watch(cfgs, clock, es + more) == StepFour(Watch(cfgs, clock, es), more)
  {
    WatchOne(cfgs, clock, es, more[0]);
    WatchOne(cfgs, clock, es + [more[0]], more[1]);
    WatchOne(cfgs, clock, es + [more[0]] + [more[1]], more[2]);
    WatchOne(cfgs, clock, es + [more[0]] + [more[1]] + [more[2]], more[3]);
    assert es + [more[0]] + [more[1]] + [more[2]] + [more[3]] == es + more;
  }

  lemma FirstCreate(c: string, key: string, amount: int)
    requires amount > 0
    ensures var begun := S.Apply(S.Empty, S.CreateBegin(0, c, key, amount));
            && begun == S.Empty.(open := map[0 := S.Creating(c, key, amount, 1)])
            && S.Apply(begun, S.Commit(0)) == S.Inserted(S.Empty, c, key, amount, 1)
  {
  }

  function Reads(o: int, p: int): seq<Event> { [Act(0, Answered(Total(o))), Act(1, Answered(Total(p)))] }

  function Writes(a: Config, b: Config): seq<Event> {
    [Store(P.Billing, SoloRuns.CreateFor(a)), Store(P.Billing, S.Commit(0)),
     Store(P.Ledger, SoloRuns.CreateFor(b)), Store(P.Ledger, S.Commit(0))]
  }

  /** Two agents that both read, `o` and `p`, before either wrote. */
  function TwoReadersRun(a: Config, b: Config, o: int, p: int): seq<Event> { Reads(o, p) + Writes(a, b) }

  /** An agent without the authority whose amount fits beside what it observed. */
  ghost predicate Simple(cfg: Config, s: P.Service, observed: int) {
    !cfg.model && !cfg.authority && cfg.knownAction && cfg.service == s
    && 0 < cfg.amount && observed + cfg.amount <= cfg.authorized
  }

  lemma WatchTwo(cfgs: seq<Config>, clock: int, es: seq<Event>)
    requires |es| == 2
    ensures Watch(cfgs, clock, es) == Step(Step(Watched(Init(cfgs, clock), map[], []), es[0]), es[1])
  {
    WatchOne(cfgs, clock, [], es[0]);
    WatchOne(cfgs, clock, [es[0]], es[1]);
    assert [] + [es[0]] == [es[0]] && [es[0]] + [es[1]] == es;
  }

  lemma ReadOne(w: Watched, i: nat, cfg: Config, o: int)
    requires Simple(cfg, cfg.service, o) && i < |w.y.actors|
    requires w.y.actors[i] == Actor(cfg, Diligent(Observing), {Observe})
    ensures var v := Step(w, Act(i, Answered(Total(o))));
            v == Watched(w.y.(actors := w.y.actors[i := Actor(cfg, Diligent(Creating(None, 1)), {Observe, Create})]),
                         w.seen[i := o], w.writes)
  {
    assert {Observe} + {Create} == {Observe, Create};
    assert w.writes + [] == w.writes;
  }

  lemma BothRead(a: Config, b: Config, o: int, p: int, clock: int) returns (w: Watched)
    requires Simple(a, P.Billing, o) && Simple(b, P.Ledger, p)
    ensures w == Watch([a, b], clock, Reads(o, p))
    ensures w.y.billing == w.y.ledger == S.Empty
    ensures w.y.actors == [Actor(a, Diligent(Creating(None, 1)), {Observe, Create}),
                           Actor(b, Diligent(Creating(None, 1)), {Observe, Create})]
    ensures w.seen == map[0 := o, 1 := p] && w.writes == []
  {
    WatchTwo([a, b], clock, Reads(o, p));
    var v := Watched(Init([a, b], clock), map[], []);
    ReadOne(v, 0, a, o);
    ReadOne(Step(v, Act(0, Answered(Total(o)))), 1, b, p);
    w := Step(Step(v, Act(0, Answered(Total(o)))), Act(1, Answered(Total(p))));
  }

  /** The row of a create that lands in an empty store. */
  function RowOf(cfg: Config): S.Effect { S.Effect(cfg.caseId, cfg.key, cfg.amount, S.COMMITTED) }

  lemma WriteOne(w: Watched, i: nat, cfg: Config)
    requires i < |w.y.actors| && w.y.actors[i].cfg == cfg && Create in w.y.actors[i].sent && cfg.amount > 0
    requires Source(w.y, cfg.service) == S.Empty
    ensures Step(Step(w, Store(cfg.service, SoloRuns.CreateFor(cfg))), Store(cfg.service, S.Commit(0)))
         == Watched(WithSource(w.y, cfg.service, S.Inserted(S.Empty, cfg.caseId, cfg.key, cfg.amount, 1)),
                    w.seen, w.writes + [Write(cfg.service, RowOf(cfg), CommittedMoney(w.y, cfg.caseId))])
  {
    assert Creates(w.y.actors[i], cfg.service, cfg.key, cfg.caseId, cfg.amount);
    FirstCreate(cfg.caseId, cfg.key, cfg.amount);
    assert w.writes + [] == w.writes;
    var v := Step(w, Store(cfg.service, SoloRuns.CreateFor(cfg)));
    assert v.writes == w.writes && v.seen == w.seen;
  }

  function AfterWrite(w: Watched, cfg: Config): Watched {
    Watched(WithSource(w.y, cfg.service, S.Inserted(S.Empty, cfg.caseId, cfg.key, cfg.amount, 1)),
            w.seen, w.writes + [Write(cfg.service, RowOf(cfg), CommittedMoney(w.y, cfg.caseId))])
  }

  lemma BothWrite(a: Config, b: Config, v: Watched)
    requires a.service.Billing? && b.service.Ledger? && a.amount > 0 && b.amount > 0
    requires v.y.billing == v.y.ledger == S.Empty && |v.y.actors| == 2
    requires v.y.actors[0].cfg == a && Create in v.y.actors[0].sent
    requires v.y.actors[1].cfg == b && Create in v.y.actors[1].sent
    ensures StepFour(v, Writes(a, b)) == AfterWrite(AfterWrite(v, a), b)
  {
    WriteOne(v, 0, a);
    WriteOne(AfterWrite(v, a), 1, b);
  }

  lemma BothWrote(a: Config, b: Config, v: Watched)
    requires a.service.Billing? && b.service.Ledger? && a.caseId == b.caseId
    requires v.y.billing == v.y.ledger == S.Empty && v.writes == []
    ensures var w := AfterWrite(AfterWrite(v, a), b);
            && w.y.billing == S.Inserted(S.Empty, a.caseId, a.key, a.amount, 1)
            && w.y.ledger == S.Inserted(S.Empty, b.caseId, b.key, b.amount, 1)
            && w.seen == v.seen && w.writes == [Write(P.Billing, RowOf(a), 0), Write(P.Ledger, RowOf(b), a.amount)]
  {
    OneRowTotal(a.caseId, a.key, a.amount);
  }

  lemma TwoReaders(a: Config, b: Config, o: int, p: int, clock: int) returns (w: Watched)
    requires Simple(a, P.Billing, o) && Simple(b, P.Ledger, p) && a.caseId == b.caseId
    ensures w == Watch([a, b], clock, TwoReadersRun(a, b, o, p))
    ensures w.y.billing == S.Inserted(S.Empty, a.caseId, a.key, a.amount, 1)
    ensures w.y.ledger == S.Inserted(S.Empty, b.caseId, b.key, b.amount, 1)
    ensures w.y.actors == [Actor(a, Diligent(Creating(None, 1)), {Observe, Create}),
                           Actor(b, Diligent(Creating(None, 1)), {Observe, Create})]
    ensures w.seen == map[0 := o, 1 := p]
    ensures w.writes == [Write(P.Billing, RowOf(a), 0), Write(P.Ledger, RowOf(b), a.amount)]
  {
    var v := BothRead(a, b, o, p, clock);
    BothWrite(a, b, v);
    BothWrote(a, b, v);
    w := AfterWrite(AfterWrite(v, a), b);
    WatchFour([a, b], clock, Reads(o, p), Writes(a, b));
  }

  lemma OneRowTotal(c: string, key: string, amount: int)
    ensures S.CommittedTotal(S.Inserted(S.Empty, c, key, amount, 1), c) == amount
  {
    SumAppend([], S.Effect(c, key, amount, S.COMMITTED), S.Committed(c));
    assert S.Inserted(S.Empty, c, key, amount, 1).rows == [] + [S.Effect(c, key, amount, S.COMMITTED)];
  }

  lemma TightAt(a: Config, b: Config, o: int, p: int, w: Watched)
    requires a.caseId == b.caseId && a.service.Billing? && b.service.Ledger?
    requires w.y.billing == S.Inserted(S.Empty, a.caseId, a.key, a.amount, 1)
    requires w.y.ledger == S.Inserted(S.Empty, b.caseId, b.key, b.amount, 1)
    requires |w.y.actors| == 2 && w.y.actors[0].cfg == a && w.y.actors[1].cfg == b
    requires Create in w.y.actors[0].sent && Create in w.y.actors[1].sent
    requires w.seen == map[0 := o, 1 := p]
    requires w.writes == [Write(P.Billing, RowOf(a), 0), Write(P.Ledger, RowOf(b), a.amount)]
    ensures forall k: nat, i: nat :: Asker(w, k, i) <==> k == i < 2
    ensures Asker(w, 1, 1) && Missed(w, 1, 1) == a.amount - p
    ensures Missed(w, 0, 0) == -o
    ensures CommittedMoney(w.y, a.caseId) == a.amount + b.amount
  {
    OneRowTotal(a.caseId, a.key, a.amount);
    OneRowTotal(b.caseId, b.key, b.amount);
  }

  lemma ReadersCheck(a: Config, b: Config, o: int, p: int)
    requires Simple(a, P.Billing, o) && Simple(b, P.Ledger, p) && b.authorized >= a.authorized
    ensures Checkers([a, b], a.caseId) && CeilingOf([a, b], a.caseId, b.authorized)
  {
  }

  /** The bound is attained, whatever was observed: two agents that both obey their check, the second
      filling the ceiling beside what it saw, commit the ceiling plus exactly what the second had
      missed; and if the first had seen no less than the second, nobody had missed more. */
  lemma ExposureIsTight(a: Config, b: Config, o: int, p: int, clock: int)
    requires Simple(a, P.Billing, o) && Simple(b, P.Ledger, p) && a.caseId == b.caseId
    requires p + b.amount == b.authorized >= a.authorized
    ensures Checkers([a, b], a.caseId) && CeilingOf([a, b], a.caseId, b.authorized)
    ensures var w := Watch([a, b], clock, TwoReadersRun(a, b, o, p));
            && Asker(w, 1, 1) && 1 in w.seen && w.seen[1] == p
            && CommittedMoney(w.y, a.caseId) == b.authorized + Missed(w, 1, 1)
            && (o >= p ==> forall k: nat, i: nat :: Asker(w, k, i) ==>
                             i in w.seen && Missed(w, k, i) <= Missed(w, 1, 1))
  {
    var w := TwoReaders(a, b, o, p, clock);
    TightAt(a, b, o, p, w);
    ReadersCheck(a, b, o, p);
  }
}
