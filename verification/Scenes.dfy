/** Whole runs of a few agents, one stretch at a time, nothing interfering with any of them. */
module Scenes {
  import opened Base
  import opened Agents
  import opened AgentFacts
  import opened Ceiling
  import opened SoloRuns
  import H = Control
  import C = ControlRuns
  import F = ControlFacts
  import S = Stores
  import P = Projection

  /** The system between transactions, with at most one effect in each service: that of `shelf`. */
  datatype Scene = Scene(actors: seq<Actor>, clock: int, holds: seq<H.Hold>, revived: set<nat>,
                         shelf: map<P.Service, Config>)

  function OnlyRow(cfg: Config): S.Store { S.Inserted(S.Empty, cfg.caseId, cfg.key, cfg.amount, 1) }

  function Shelf(sc: Scene, s: P.Service): S.Store { if s in sc.shelf then OnlyRow(sc.shelf[s]) else S.Empty }

  function View(sc: Scene): Sys {
    Sys(C.State(sc.clock, sc.holds, map[], sc.revived), Shelf(sc, P.Billing), Shelf(sc, P.Ledger), sc.actors)
  }

  ghost predicate At(start: Sys, es: seq<Event>, sc: Scene) { Exec(start, es) == View(sc) }

  function Opening(cfgs: seq<Config>): Scene { Scene(Init(cfgs, 0).actors, 0, [], {}, map[]) }

  lemma SceneOpens(cfgs: seq<Config>)
    ensures At(Init(cfgs, 0), [], Opening(cfgs))
  {
  }

  /** Actor `i` hears `x` and is `next`. */
  lemma SceneHears(start: Sys, es: seq<Event>, sc: Scene, i: nat, x: Input, end: Scene)
    requires At(start, es, sc) && CanAct(View(sc), i, x) && |end.actors| == |sc.actors|
    requires end.actors == sc.actors[i := Fed(sc.actors[i], x)] && end.(actors := sc.actors) == sc
    ensures At(start, es + [Act(i, x)], end)
  {
    Hears(View(sc), i, x, Fed(sc.actors[i], x));
    assert WithActor(View(sc), i, Fed(sc.actors[i], x)) == View(end);
    ThenOne(start, es, Act(i, x), View(sc), View(end));
  }

  function ReserveOf(cfg: Config, clock: int): seq<Event> {
    [Authority(C.ReserveBegin(0, RequestOf(cfg), clock)), Authority(C.ReserveEnd(0))]
  }

  lemma SceneReserves(start: Sys, es: seq<Event>, sc: Scene, i: nat, holds: seq<H.Hold>)
    requires At(start, es, sc) && i < |sc.actors| && Reserve in sc.actors[i].sent
    requires holds == H.AfterReserve(sc.holds, RequestOf(sc.actors[i].cfg), sc.clock)
    ensures At(start, es + ReserveOf(sc.actors[i].cfg, sc.clock), sc.(holds := holds))
  {
    var two := ReserveOf(sc.actors[i].cfg, sc.clock);
    ReservesAlone(View(sc), i);
    ThenTwo(start, es, two[0], two[1], View(sc), View(sc.(holds := holds)));
  }

  function ReleaseOf(k: nat): seq<Event> { [Authority(C.ReleaseSelect(0, k)), Authority(C.ReleaseUpdate(0))] }

  lemma SceneReleases(start: Sys, es: seq<Event>, sc: Scene, i: nat, k: nat)
    requires At(start, es, sc) && i < |sc.actors| && Release(k) in sc.actors[i].sent
    requires k < |sc.holds| && !sc.holds[k].state.COMMITTED?
    ensures At(start, es + ReleaseOf(k), sc.(holds := C.SetState(sc.holds, k, H.RELEASED)))
  {
    var end := sc.(holds := C.SetState(sc.holds, k, H.RELEASED));
    ReleasesAlone(View(sc), i, k);
    ThenTwo(start, es, ReleaseOf(k)[0], ReleaseOf(k)[1], View(sc), View(end));
  }

  function CommitOf(k: nat): seq<Event> { [Authority(C.CommitSelect(0, k)), Authority(C.CommitUpdate(0))] }

  function AfterCommit(sc: Scene, k: nat): Scene
    requires k < |sc.holds|
  {
    if sc.holds[k].state.RELEASED? then sc
    else sc.(holds := C.SetState(sc.holds, k, H.COMMITTED),
             revived := sc.revived + if sc.holds[k].state.EXPIRED? then {k} else {})
  }

  lemma SceneCommits(start: Sys, es: seq<Event>, sc: Scene, i: nat, k: nat)
    requires At(start, es, sc) && i < |sc.actors| && Commit(k) in sc.actors[i].sent && k < |sc.holds|
    ensures At(start, es + CommitOf(k), AfterCommit(sc, k))
  {
    CommitsAlone(View(sc), i, k);
    ThenTwo(start, es, CommitOf(k)[0], CommitOf(k)[1], View(sc), View(AfterCommit(sc, k)));
  }

  lemma SceneTicks(start: Sys, es: seq<Event>, sc: Scene, wait: nat)
    requires At(start, es, sc)
    ensures At(start, es + [Authority(C.Tick(wait))], sc.(clock := sc.clock + wait))
  {
    ThenOne(start, es, Authority(C.Tick(wait)), View(sc), View(sc.(clock := sc.clock + wait)));
  }

  function CreateOf(cfg: Config): seq<Event> {
    [Store(cfg.service, CreateFor(cfg)), Store(cfg.service, S.Commit(0))]
  }

  lemma LandedView(sc: Scene, cfg: Config)
    requires cfg.service !in sc.shelf
    ensures Landed1(View(sc), cfg) == View(sc.(shelf := sc.shelf[cfg.service := cfg]))
  {
    assert S.NextSequence([], cfg.caseId) == 1;
  }

  lemma EmptyShelf(sc: Scene, s: P.Service)
    requires s !in sc.shelf
    ensures Source(View(sc), s) == S.Empty && S.Inv(S.Empty)
  {
    S.RunKeeps([]);
  }

  lemma ShelfLands(sc: Scene, i: nat)
    requires i < |sc.actors| && Create in sc.actors[i].sent
    requires sc.actors[i].cfg.amount > 0 && sc.actors[i].cfg.service !in sc.shelf
    ensures var cfg := sc.actors[i].cfg;
            Apply(Apply(View(sc), CreateOf(cfg)[0]), CreateOf(cfg)[1]) == Landed1(View(sc), cfg)
  {
    EmptyShelf(sc, sc.actors[i].cfg.service);
    LandsAlone(View(sc), i);
  }

  lemma SceneLands(start: Sys, es: seq<Event>, sc: Scene, i: nat)
    requires At(start, es, sc) && i < |sc.actors| && Create in sc.actors[i].sent
    requires sc.actors[i].cfg.amount > 0 && sc.actors[i].cfg.service !in sc.shelf
    ensures var cfg := sc.actors[i].cfg; At(start, es + CreateOf(cfg), sc.(shelf := sc.shelf[cfg.service := cfg]))
  {
    var cfg := sc.actors[i].cfg;
    ShelfLands(sc, i);
    LandedView(sc, cfg);
    ThenTwo(start, es, CreateOf(cfg)[0], CreateOf(cfg)[1], View(sc), View(sc.(shelf := sc.shelf[cfg.service := cfg])));
  }

  lemma HasShelfRow(sc: Scene, s: P.Service)
    requires s in sc.shelf
    ensures HasRow(View(sc), s, sc.shelf[s].key)
  {
    var rows := Source(View(sc), s).rows;
    assert rows == OnlyRow(sc.shelf[s]).rows && rows[0].key == sc.shelf[s].key;
  }

  // --------------------------------------------------------------- what the authority does

  function HoldFor(cfg: Config, now: int): H.Hold { H.NewHold(RequestOf(cfg), now) }

  lemma FirstFits(cfg: Config, now: int)
    requires 0 < cfg.amount <= cfg.authorized
    ensures H.AfterReserve([], RequestOf(cfg), now) == [HoldFor(cfg, now)]
  {
    assert H.Expire([], H.Due([], now)) == [];
  }

  /** A hold that no longer counts makes room for another key. */
  lemma GoneFits(h: H.Hold, cfg: Config, now: int)
    requires (H.IsDue(h, now) || !H.IsLive(h)) && h.key != cfg.key && 0 < cfg.amount <= cfg.authorized
    ensures H.AfterReserve([h], RequestOf(cfg), now) == [F.Gone(h, now), HoldFor(cfg, now)]
  {
    F.OneReclaimed(h, now);
    F.OneDeadCounts(F.Gone(h, now), cfg.caseId);
    assert H.Find([F.Gone(h, now)], cfg.key).None?;
  }

  /** A key that is there already is granted again, whatever its hold's state is. */
  lemma ReplayIsGranted(h: H.Hold, cfg: Config, now: int)
    requires h.key == cfg.key && !H.IsDue(h, now)
    ensures H.AfterReserve([h], RequestOf(cfg), now) == [h]
    ensures H.ReserveAnswer([h], RequestOf(cfg), now) == H.Granted(0, true)
  {
    F.OneReclaimed(h, now);
    assert [h][0].key == cfg.key;
  }

  // -------------------------------------------------------------------------- diligent agents

  /** An agent with the authority whose amount fits its ceiling. */
  ghost predicate Able(cfg: Config) { cfg.authority && cfg.knownAction && 0 < cfg.amount <= cfg.authorized }

  ghost predicate Plain(cfg: Config) {
    Able(cfg) && !cfg.model && !cfg.retryOnFailure && !cfg.abandonAfterReserve
  }

  function Waiting(cfg: Config, p: Phase, sent: set<Call>): Actor { Actor(cfg, Diligent(p), sent) }

  function Fresh(cfg: Config): Actor { Waiting(cfg, Observing, {Observe}) }

  function Creator(cfg: Config, k: nat): Actor { Waiting(cfg, Creating(Some(k), 1), {Observe, Reserve, Create}) }

  function Failed(cfg: Config, k: nat): Actor {
    Waiting(cfg, Releasing(k), {Observe, Reserve, Create} + {Release(k)})
  }

  function Done(cfg: Config, k: nat): Actor {
    Waiting(cfg, Committing(k), {Observe, Reserve, Create} + {Commit(k)})
  }

  lemma DiligentHears(cfg: Config, k: nat)
    requires Plain(cfg)
    ensures var asked := Waiting(cfg, Reserving, {Observe, Reserve});
            && Actor(cfg, Start(cfg), Sending(Start(cfg))) == Fresh(cfg)
            && Fed(Fresh(cfg), Answered(Total(0))) == asked
            && Fed(asked, Answered(Granted(k))) == Creator(cfg, k)
            && Fed(Creator(cfg, k), Answered(Raised)) == Failed(cfg, k)
            && Fed(Creator(cfg, k), Answered(Ok)) == Done(cfg, k)
  {
    assert {Observe} + {Reserve} == {Observe, Reserve};
    assert {Observe, Reserve} + {Create} == {Observe, Reserve, Create};
  }

  function DiligentReserving(i: nat, cfg: Config, clock: int, k: nat): seq<Event> {
    [Act(i, Answered(Total(0)))] + ReserveOf(cfg, clock) + [Act(i, Answered(Granted(k)))]
  }

  lemma DiligentAsks(start: Sys, es: seq<Event>, sc: Scene, i: nat, cfg: Config)
    requires At(start, es, sc) && i < |sc.actors| && sc.actors[i] == Fresh(cfg) && Plain(cfg)
    ensures At(start, es + [Act(i, Answered(Total(0)))],
               sc.(actors := sc.actors[i := Waiting(cfg, Reserving, {Observe, Reserve})]))
  {
    DiligentHears(cfg, 0);
    SceneHears(start, es, sc, i, Answered(Total(0)),
               sc.(actors := sc.actors[i := Waiting(cfg, Reserving, {Observe, Reserve})]));
  }

  lemma DiligentIsTold(start: Sys, es: seq<Event>, sc: Scene, i: nat, cfg: Config, k: nat)
    requires At(start, es, sc) && i < |sc.actors| && Plain(cfg)
    requires sc.actors[i] == Waiting(cfg, Reserving, {Observe, Reserve})
    requires k < |sc.holds| && sc.holds[k].key == cfg.key
    ensures At(start, es + [Act(i, Answered(Granted(k)))], sc.(actors := sc.actors[i := Creator(cfg, k)]))
  {
    DiligentHears(cfg, k);
    SceneHears(start, es, sc, i, Answered(Granted(k)), sc.(actors := sc.actors[i := Creator(cfg, k)]));
  }

  lemma Joined(es: seq<Event>, a: seq<Event>, b: seq<Event>, c: seq<Event>)
    ensures es + a + b + c == es + (a + b + c)
  {
  }

  /** A diligent agent from its start to its create, told of the hold its key has. */
  lemma DiligentReserves(start: Sys, es: seq<Event>, sc: Scene, i: nat, cfg: Config, k: nat, end: Scene)
    requires At(start, es, sc) && i < |sc.actors| && sc.actors[i] == Fresh(cfg) && Plain(cfg)
    requires end.holds == H.AfterReserve(sc.holds, RequestOf(cfg), sc.clock)
    requires k < |end.holds| && end.holds[k].key == cfg.key
    requires end.actors == sc.actors[i := Creator(cfg, k)] && end.(actors := sc.actors, holds := sc.holds) == sc
    ensures At(start, es + DiligentReserving(i, cfg, sc.clock, k), end)
  {
    var asked := sc.(actors := sc.actors[i := Waiting(cfg, Reserving, {Observe, Reserve})]);
    var asks := [Act(i, Answered(Total(0)))];
    DiligentAsks(start, es, sc, i, cfg);
    SceneReserves(start, es + asks, asked, i, end.holds);
    DiligentIsTold(start, es + asks + ReserveOf(cfg, sc.clock), asked.(holds := end.holds), i, cfg, k);
    assert asked.actors[i := Creator(cfg, k)] == end.actors;
    Joined(es, asks, ReserveOf(cfg, sc.clock), [Act(i, Answered(Granted(k)))]);
  }

  function Acting(i: nat, cfg: Config, clock: int, k: nat): seq<Event> {
    DiligentReserving(i, cfg, clock, k) + CreateOf(cfg)
  }

  /** The same, and its effect lands. */
  lemma DiligentActs(start: Sys, es: seq<Event>, sc: Scene, i: nat, cfg: Config, k: nat, end: Scene)
    requires At(start, es, sc) && i < |sc.actors| && sc.actors[i] == Fresh(cfg) && Plain(cfg)
    requires cfg.service !in sc.shelf
    requires end.holds == H.AfterReserve(sc.holds, RequestOf(cfg), sc.clock)
    requires k < |end.holds| && end.holds[k].key == cfg.key
    requires end.actors == sc.actors[i := Creator(cfg, k)] && end.shelf == sc.shelf[cfg.service := cfg]
    requires end.(actors := sc.actors, holds := sc.holds, shelf := sc.shelf) == sc
    ensures At(start, es + Acting(i, cfg, sc.clock, k), end)
  {
    DiligentReserves(start, es, sc, i, cfg, k, end.(shelf := sc.shelf));
    SceneLands(start, es + DiligentReserving(i, cfg, sc.clock, k), end.(shelf := sc.shelf), i);
    assert es + DiligentReserving(i, cfg, sc.clock, k) + CreateOf(cfg) == es + Acting(i, cfg, sc.clock, k);
  }

  // ---------------------------------------------------------------------- model-driven agents

  ghost predicate Modelled(cfg: Config) { Able(cfg) && cfg.model }

  function Thinks(cfg: Config, turn: nat, hold: Option<nat>, sent: set<Call>): Actor {
    Actor(cfg, Model(Loop(turn, [], false, hold, false, None, false)), sent)
  }

  /** Running `batch`, its first tool having sent `call`. */
  function Runs(cfg: Config, turn: nat, batch: seq<Tool>, finished: bool, hold: Option<nat>, call: Call,
                sent: set<Call>): Actor
  {
    Actor(cfg, Model(Loop(turn, batch, finished, hold, false, Some(call), false)), sent)
  }

  function Idle(cfg: Config): Actor { Thinks(cfg, 0, None, {}) }

  function Asking(cfg: Config): Actor { Runs(cfg, 1, [ReserveBudget], false, None, Reserve, {Reserve}) }

  function Holds(cfg: Config, k: nat): Actor { Thinks(cfg, 1, Some(k), {Reserve}) }

  function Issued(cfg: Config, k: nat): Actor { Runs(cfg, 2, [Issue], false, Some(k), Create, {Reserve, Create}) }

  lemma ModelHears(cfg: Config, k: nat)
    requires Modelled(cfg)
    ensures Actor(cfg, Start(cfg), Sending(Start(cfg))) == Idle(cfg)
    ensures Fed(Idle(cfg), Reply([ReserveBudget])) == Asking(cfg)
    ensures Fed(Asking(cfg), Answered(Granted(k))) == Holds(cfg, k)
    ensures Fed(Holds(cfg, k), Reply([Issue])) == Issued(cfg, k)
  {
    assert {} + {Reserve} == {Reserve} && {Reserve} + {} == {Reserve} && {Reserve} + {Create} == {Reserve, Create};
    assert [ReserveBudget][1..] == [];
  }

  function ModelReserving(i: nat, cfg: Config, k: nat): seq<Event> {
    [Act(i, Reply([ReserveBudget]))] + ReserveOf(cfg, 0) + [Act(i, Answered(Granted(k)))]
  }

  lemma ModelIsTold(start: Sys, es: seq<Event>, sc: Scene, i: nat, cfg: Config, k: nat)
    requires At(start, es, sc) && i < |sc.actors| && Modelled(cfg) && sc.actors[i] == Asking(cfg)
    requires k < |sc.holds| && sc.holds[k].key == cfg.key
    ensures At(start, es + [Act(i, Answered(Granted(k)))], sc.(actors := sc.actors[i := Holds(cfg, k)]))
  {
    ModelHears(cfg, k);
    SceneHears(start, es, sc, i, Answered(Granted(k)), sc.(actors := sc.actors[i := Holds(cfg, k)]));
  }

  /** A model that asks for a reservation and is told of the hold its key has. */
  lemma ModelReserves(start: Sys, es: seq<Event>, sc: Scene, i: nat, cfg: Config, k: nat, end: Scene)
    requires At(start, es, sc) && i < |sc.actors| && sc.actors[i] == Idle(cfg) && Modelled(cfg) && sc.clock == 0
    requires end.holds == H.AfterReserve(sc.holds, RequestOf(cfg), 0)
    requires k < |end.holds| && end.holds[k].key == cfg.key
    requires end.actors == sc.actors[i := Holds(cfg, k)] && end.(actors := sc.actors, holds := sc.holds) == sc
    ensures At(start, es + ModelReserving(i, cfg, k), end)
  {
    var asked := sc.(actors := sc.actors[i := Asking(cfg)]);
    var asks := [Act(i, Reply([ReserveBudget]))];
    ModelHears(cfg, k);
    SceneHears(start, es, sc, i, Reply([ReserveBudget]), asked);
    SceneReserves(start, es + asks, asked, i, end.holds);
    ModelIsTold(start, es + asks + ReserveOf(cfg, 0), asked.(holds := end.holds), i, cfg, k);
    assert asked.actors[i := Holds(cfg, k)] == end.actors;
    Joined(es, asks, ReserveOf(cfg, 0), [Act(i, Answered(Granted(k)))]);
  }

  function ModelActing(i: nat, cfg: Config, k: nat): seq<Event> {
    ModelReserving(i, cfg, k) + [Act(i, Reply([Issue]))] + CreateOf(cfg)
  }

  /** The same, and it issues, and its effect lands. */
  lemma ModelActs(start: Sys, es: seq<Event>, sc: Scene, i: nat, cfg: Config, k: nat, end: Scene)
    requires At(start, es, sc) && i < |sc.actors| && sc.actors[i] == Idle(cfg) && Modelled(cfg) && sc.clock == 0
    requires end.holds == H.AfterReserve(sc.holds, RequestOf(cfg), 0)
    requires k < |end.holds| && end.holds[k].key == cfg.key && cfg.service !in sc.shelf
    requires end.actors == sc.actors[i := Issued(cfg, k)] && end.shelf == sc.shelf[cfg.service := cfg]
    requires end.(actors := sc.actors, holds := sc.holds, shelf := sc.shelf) == sc
    ensures At(start, es + ModelActing(i, cfg, k), end)
  {
    var held := sc.(actors := sc.actors[i := Holds(cfg, k)], holds := end.holds);
    var issued := end.(shelf := sc.shelf);
    ModelReserves(start, es, sc, i, cfg, k, held);
    ModelIssues(start, es + ModelReserving(i, cfg, k), held, i, cfg, k, issued);
    SceneLands(start, es + ModelReserving(i, cfg, k) + [Act(i, Reply([Issue]))], issued, i);
    Joined(es, ModelReserving(i, cfg, k), [Act(i, Reply([Issue]))], CreateOf(cfg));
  }

  lemma ModelIssues(start: Sys, es: seq<Event>, sc: Scene, i: nat, cfg: Config, k: nat, end: Scene)
    requires At(start, es, sc) && i < |sc.actors| && sc.actors[i] == Holds(cfg, k) && Modelled(cfg)
    requires end.actors == sc.actors[i := Issued(cfg, k)] && end.(actors := sc.actors) == sc
    ensures At(start, es + [Act(i, Reply([Issue]))], end)
  {
    ModelHears(cfg, k);
    SceneHears(start, es, sc, i, Reply([Issue]), end);
  }
}
