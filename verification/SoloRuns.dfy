/** Stretches of a run in which one agent acts and nothing interferes. */
module SoloRuns {
  import opened Agents
  import opened AgentFacts
  import opened Ceiling
  import H = Control
  import C = ControlRuns
  import F = ControlFacts
  import S = Stores
  import E = EffectService

  function WithActor(y: Sys, i: nat, a: Actor): Sys
    requires i < |y.actors|
  {
    y.(actors := y.actors[i := a])
  }

  function WithHolds(y: Sys, holds: seq<H.Hold>): Sys { y.(control := y.control.(holds := holds)) }

  // ------------------------------------------------------------------------ putting runs together

  lemma ThenOne(start: Sys, es: seq<Event>, e: Event, mid: Sys, end: Sys)
    requires Exec(start, es) == mid && Apply(mid, e) == end
    ensures Exec(start, es + [e]) == end
  {
    ExecOne(start, es, e);
  }

  lemma ThenTwo(start: Sys, es: seq<Event>, a: Event, b: Event, mid: Sys, end: Sys)
    requires Exec(start, es) == mid && Apply(Apply(mid, a), b) == end
    ensures Exec(start, es + [a, b]) == end
  {
    ExecOne(start, es, a);
    ExecOne(start, es + [a], b);
    assert es + [a] + [b] == es + [a, b];
  }

  // -------------------------------------------------------------------------------- agents acting

  /** What an actor is after an input. */
  function Fed(a: Actor, x: Input): Actor
    requires Accepts(a.agent, x)
  {
    var next := Feed(a.cfg, a.agent, x);
    Actor(a.cfg, next, a.sent + Sending(next))
  }

  lemma Hears(y: Sys, i: nat, x: Input, next: Actor)
    requires CanAct(y, i, x) && Fed(y.actors[i], x) == next
    ensures Apply(y, Act(i, x)) == WithActor(y, i, next)
  {
  }

  // -------------------------------------------------------------------------- authority and stores

  /** The authority answers a request that was sent: what it does depends on its table alone. */
  lemma ReservesAlone(y: Sys, i: nat)
    requires i < |y.actors| && Reserve in y.actors[i].sent && y.control.open == map[]
    ensures var req := RequestOf(y.actors[i].cfg);
            Apply(Apply(y, Authority(C.ReserveBegin(0, req, y.control.clock))), Authority(C.ReserveEnd(0)))
              == WithHolds(y, H.AfterReserve(y.control.holds, req, y.control.clock))
  {
    assert Reserves(y.actors[i], RequestOf(y.actors[i].cfg));
    F.UninterruptedReserve(y.control, RequestOf(y.actors[i].cfg));
  }

  lemma ReleasesAlone(y: Sys, i: nat, k: nat)
    requires i < |y.actors| && Release(k) in y.actors[i].sent && y.control.open == map[]
    requires k < |y.control.holds| && !y.control.holds[k].state.COMMITTED?
    ensures Apply(Apply(y, Authority(C.ReleaseSelect(0, k))), Authority(C.ReleaseUpdate(0)))
         == WithHolds(y, C.SetState(y.control.holds, k, H.RELEASED))
  {
    assert SentBy(y, Release(k));
    F.UninterruptedRelease(y.control, k);
  }

  /** A commit refuses a RELEASED hold and commits any other, an EXPIRED one being revived. */
  lemma CommitsAlone(y: Sys, i: nat, k: nat)
    requires i < |y.actors| && Commit(k) in y.actors[i].sent && y.control.open == map[] && k < |y.control.holds|
    ensures Apply(Apply(y, Authority(C.CommitSelect(0, k))), Authority(C.CommitUpdate(0)))
         == if y.control.holds[k].state.RELEASED? then y
            else y.(control := y.control.(
                      holds := C.SetState(y.control.holds, k, H.COMMITTED),
                      revived := y.control.revived + if y.control.holds[k].state.EXPIRED? then {k} else {}))
  {
    assert SentBy(y, Commit(k));
    F.UninterruptedCommit(y.control, k);
    assert y.control.revived + {} == y.control.revived;
  }

  function CreateFor(cfg: Config): S.Event { S.CreateBegin(0, cfg.caseId, cfg.key, cfg.amount) }

  function Landed1(y: Sys, cfg: Config): Sys {
    var s := Source(y, cfg.service);
    WithSource(y, cfg.service, S.Inserted(s, cfg.caseId, cfg.key, cfg.amount, S.NextSequence(s.log, cfg.caseId)))
  }

  /** The effect of a create that was sent. */
  lemma LandsAlone(y: Sys, i: nat)
    requires i < |y.actors| && Create in y.actors[i].sent && y.actors[i].cfg.amount > 0
    requires var s := Source(y, y.actors[i].cfg.service);
             S.Inv(s) && s.open == map[] && S.FindKey(s.rows, y.actors[i].cfg.key).None?
    ensures var cfg := y.actors[i].cfg;
            Apply(Apply(y, Store(cfg.service, CreateFor(cfg))), Store(cfg.service, S.Commit(0))) == Landed1(y, cfg)
  {
    var cfg := y.actors[i].cfg;
    assert Creates(y.actors[i], cfg.service, cfg.key, cfg.caseId, cfg.amount);
    assert Apply(y, Store(cfg.service, CreateFor(cfg)))
        == WithSource(y, cfg.service, S.Apply(Source(y, cfg.service), CreateFor(cfg)));
    E.CreateAlone(Source(y, cfg.service), cfg.caseId, cfg.key, cfg.amount);
  }
}
