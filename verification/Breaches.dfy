/** Why the ceiling theorem asks for what it asks. Each condition has a run that breaks it and commits
    the amounts of two agents, each as large as the ceiling allows. */
module Breaches {
  import opened Base
  import opened Agents
  import opened AgentFacts
  import opened Ceiling
  import opened Overspend
  import opened Scenes
  import opened SoloRuns
  import H = Control
  import C = ControlRuns
  import D = Detection
  import F = ControlFacts
  import S = Stores
  import P = Projection
  import R = Reconciler
  import X = Exposure

  /** Two agents of one case and in different services. */
  ghost predicate Partners(a: Config, b: Config) {
    Able(a) && Able(b) && a.caseId == b.caseId && a.service != b.service
  }

  ghost predicate Pair(a: Config, b: Config) { Partners(a, b) && a.key != b.key }

  // -------------------------------------------------------------------------- where the runs end

  lemma BothLanded(sc: Scene, a: Config, b: Config)
    requires a.caseId == b.caseId && a.service != b.service && a.service in sc.shelf && b.service in sc.shelf
    requires sc.shelf[a.service] == a && sc.shelf[b.service] == b
    ensures CommittedMoney(View(sc), a.caseId) == a.amount + b.amount
  {
    X.OneRowTotal(a.caseId, a.key, a.amount);
    X.OneRowTotal(b.caseId, b.key, b.amount);
  }

  /** Nothing is EXPIRED, so the reconciler has no finding that names money. */
  lemma NothingToReport(sc: Scene, w: P.World, c: string)
    requires forall k: nat :: k < |sc.holds| ==> !sc.holds[k].state.EXPIRED?
    ensures SpentIn(View(sc), H.EXPIRED) == {} && R.SpentExpired(w, sc.holds, c) == []
  {
    R.NothingExpiredNothingSpent(w, sc.holds, c);
  }

  /** Both amounts committed, nothing revived, and nothing for the reconciler to name. */
  ghost predicate Breached(y: Sys, a: Config, b: Config, w: P.World) {
    && CommittedMoney(y, a.caseId) == a.amount + b.amount
    && SpentIn(y, H.EXPIRED) == {} && R.SpentExpired(w, y.control.holds, a.caseId) == []
  }

  lemma SceneBreaches(start: Sys, es: seq<Event>, sc: Scene, a: Config, b: Config, w: P.World)
    requires At(start, es, sc) && Partners(a, b) && a.service in sc.shelf && b.service in sc.shelf
    requires sc.shelf[a.service] == a && sc.shelf[b.service] == b
    requires forall k: nat :: k < |sc.holds| ==> !sc.holds[k].state.EXPIRED?
    ensures var y := Exec(start, es);
            Breached(y, a, b, w) && y.control.revived == sc.revived
            && y.control.holds == sc.holds && y.actors == sc.actors
  {
    BothLanded(sc, a, b);
    NothingToReport(sc, w, a.caseId);
  }

  lemma PairIsProper(a: Config, b: Config)
    requires Pair(a, b)
    ensures Proper([a, b]) && OneRunPerKey([a, b]) && ModelsAlone([a, b])
    ensures a.ttl.None? && b.ttl.None? ==> NoTtl([a, b])
  {
  }

  lemma DecisiveConcat(es: seq<Event>, more: seq<Event>)
    requires DecisiveRun(es) && DecisiveRun(more)
    ensures DecisiveRun(es + more)
  {
  }

  lemma NobodyReleases(y: Sys)
    requires forall i: nat :: i < |y.actors| ==> !Releases(y.actors[i].sent)
    ensures FailuresLeftNothing(y)
  {
  }

  lemma ModelsFailNothing(y: Sys)
    requires forall i: nat :: i < |y.actors| ==> y.actors[i].cfg.model
    ensures FailuresLeftNothing(y)
  {
  }

  lemma ActingReleasesNothing(cfg: Config, k: nat)
    ensures !Releases(Creator(cfg, k).sent) && !Releases(Done(cfg, k).sent)
  {
  }

  // -------------------------------------------------------- the two halves of a diligent run

  /** The first agent reserves and its effect lands; nobody has told it yet. */
  function FirstDone(a: Config, b: Config): Scene {
    Scene([Creator(a, 0), Fresh(b)], 0, [HoldFor(a, 0)], {}, map[a.service := a])
  }

  lemma TwoDiligent(a: Config, b: Config)
    requires Plain(a) && Plain(b)
    ensures Opening([a, b]) == Scene([Fresh(a), Fresh(b)], 0, [], {}, map[])
  {
    DiligentHears(a, 0);
    DiligentHears(b, 0);
    assert Opening([a, b]).actors == [Fresh(a), Fresh(b)];
  }

  lemma FirstActs(a: Config, b: Config)
    requires Plain(a) && Plain(b)
    ensures At(Init([a, b], 0), Acting(0, a, 0, 0), FirstDone(a, b))
  {
    SceneOpens([a, b]);
    TwoDiligent(a, b);
    FirstFits(a, 0);
    DiligentActs(Init([a, b], 0), [], Opening([a, b]), 0, a, 0, FirstDone(a, b));
    assert [] + Acting(0, a, 0, 0) == Acting(0, a, 0, 0);
  }

  /** The second agent does the same once the first hold `h` no longer counts. */
  lemma SecondActs(start: Sys, es: seq<Event>, sc: Scene, x: Actor, h: H.Hold, b: Config, end: Scene)
    requires At(start, es, sc) && sc.actors == [x, Fresh(b)] && Plain(b) && b.service !in sc.shelf
    requires sc.holds == [h] && h.key != b.key && (H.IsDue(h, sc.clock) || !H.IsLive(h))
    requires end.actors == [x, Creator(b, 1)] && end.shelf == sc.shelf[b.service := b]
    requires end.holds == [F.Gone(h, sc.clock), HoldFor(b, sc.clock)]
    requires end.(actors := sc.actors, holds := sc.holds, shelf := sc.shelf) == sc
    ensures At(start, es + Acting(1, b, sc.clock, 1), end)
  {
    GoneFits(h, b, sc.clock);
    DiligentActs(start, es, sc, 1, b, 1, end);
  }

  // -------------------------------------------------------------------- a lost acknowledgement

  /** The first agent never hears that its effect landed, frees its hold, and the second acts. */
  function LostAckRun(a: Config, b: Config): seq<Event> {
    Acting(0, a, 0, 0) + [Act(0, Answered(Raised))] + ReleaseOf(0) + Acting(1, b, 0, 1)
  }

  function LostAckScene(a: Config, b: Config): Scene {
    Scene([Failed(a, 0), Creator(b, 1)], 0, [HoldFor(a, 0).(state := H.RELEASED), HoldFor(b, 0)], {},
          map[a.service := a][b.service := b])
  }

  lemma LostAckEnds(a: Config, b: Config)
    requires Pair(a, b) && Plain(a) && Plain(b)
    ensures At(Init([a, b], 0), LostAckRun(a, b), LostAckScene(a, b))
  {
    var start, es := Init([a, b], 0), Acting(0, a, 0, 0);
    var told := FirstDone(a, b).(actors := [Failed(a, 0), Fresh(b)]);
    var freed := told.(holds := [HoldFor(a, 0).(state := H.RELEASED)]);
    FirstActs(a, b);
    DiligentHears(a, 0);
    SceneHears(start, es, FirstDone(a, b), 0, Answered(Raised), told);
    SceneReleases(start, es + [Act(0, Answered(Raised))], told, 0, 0);
    assert C.SetState(told.holds, 0, H.RELEASED) == freed.holds;
    SecondActs(start, es + [Act(0, Answered(Raised))] + ReleaseOf(0), freed, Failed(a, 0), freed.holds[0], b,
               LostAckScene(a, b));
  }

  lemma LostAckDecisive(a: Config, b: Config)
    ensures DecisiveRun(LostAckRun(a, b))
  {
    DecisiveConcat(Acting(0, a, 0, 0), [Act(0, Answered(Raised))]);
    DecisiveConcat(Acting(0, a, 0, 0) + [Act(0, Answered(Raised))], ReleaseOf(0));
    DecisiveConcat(Acting(0, a, 0, 0) + [Act(0, Answered(Raised))] + ReleaseOf(0), Acting(1, b, 0, 1));
  }

  /** Two agents that reserve first, no deadline, no late commit: one lost acknowledgement and the
      case holds both amounts, while nothing is EXPIRED for the reconciler to report. */
  lemma LostAcknowledgementOverspends(a: Config, b: Config, w: P.World)
    requires Pair(a, b) && Plain(a) && Plain(b) && a.ttl.None? && b.ttl.None?
    ensures Proper([a, b]) && OneRunPerKey([a, b]) && ModelsAlone([a, b])
    ensures NoTtl([a, b]) && DecisiveRun(LostAckRun(a, b))
    ensures var y := Exec(Init([a, b], 0), LostAckRun(a, b)); Breached(y, a, b, w) && y.control.revived == {}
  {
    LostAckEnds(a, b);
    SceneBreaches(Init([a, b], 0), LostAckRun(a, b), LostAckScene(a, b), a, b, w);
    PairIsProper(a, b);
    LostAckDecisive(a, b);
  }

  // ------------------------------------------------ a spent hold expires, and is committed late

  /** The first agent dies, or is merely silent, after its effect landed; its hold lapses and the
      second agent is granted its budget and acts. */
  function ExpiryRun(a: Config, b: Config, wait: nat): seq<Event> {
    Acting(0, a, 0, 0) + [Authority(C.Tick(wait))] + Acting(1, b, wait, 1)
  }

  function ExpiryScene(a: Config, b: Config, wait: nat): Scene {
    Scene([Creator(a, 0), Creator(b, 1)], wait, [HoldFor(a, 0).(state := H.EXPIRED), HoldFor(b, wait)], {},
          map[a.service := a][b.service := b])
  }

  lemma ExpiryEnds(a: Config, b: Config, wait: nat)
    requires Pair(a, b) && Plain(a) && Plain(b) && a.ttl.Some? && wait >= a.ttl.value
    ensures At(Init([a, b], 0), ExpiryRun(a, b, wait), ExpiryScene(a, b, wait))
  {
    var start, es := Init([a, b], 0), Acting(0, a, 0, 0);
    var lapsed := FirstDone(a, b).(clock := wait);
    FirstActs(a, b);
    SceneTicks(start, es, FirstDone(a, b), wait);
    SecondActs(start, es + [Authority(C.Tick(wait))], lapsed, Creator(a, 0), HoldFor(a, 0), b, ExpiryScene(a, b, wait));
  }

  lemma ExpiryDecisive(a: Config, b: Config, wait: nat)
    ensures DecisiveRun(ExpiryRun(a, b, wait))
  {
    DecisiveConcat(Acting(0, a, 0, 0), [Authority(C.Tick(wait))]);
    DecisiveConcat(Acting(0, a, 0, 0) + [Authority(C.Tick(wait))], Acting(1, b, wait, 1));
  }

  /** The hold of the first agent is the only one that is spent and EXPIRED. */
  lemma OnlyFirstExpired(sc: Scene, a: Config, h: H.Hold, g: H.Hold)
    requires a.service in sc.shelf && sc.shelf[a.service] == a && sc.holds == [h, g]
    requires h.key == a.key && h.caseId == a.caseId && h.amount == a.amount && h.state.EXPIRED? && !g.state.EXPIRED?
    ensures Amounts(View(sc), SpentIn(View(sc), H.EXPIRED), a.caseId) == a.amount
  {
    var y := View(sc);
    var rows := AllRows(y);
    HasShelfRow(sc, a.service);
    assert OnlyRow(a).rows == [S.Effect(a.caseId, a.key, a.amount, S.COMMITTED)];
    var r := if a.service.Billing? then 0 else |y.billing.rows|;
    assert rows[r] == OnlyRow(a).rows[0];
    assert S.Landed(rows, h.key);
    assert 0 in SpentIn(y, H.EXPIRED) && 1 !in SpentIn(y, H.EXPIRED);
    assert Pick(sc.holds, SpentIn(y, H.EXPIRED), a.caseId, 1) == a.amount;
  }

  /** What the reconciler is for: an agent that dies between its effect and its commit lets the case
      overspend, and the findings name exactly the money that was spent twice over. With both amounts
      at the ceiling this attains the bound of Detection.EveryOverspendIsReported. */
  lemma ExpiredSpendingIsNamed(a: Config, b: Config, w: P.World)
    requires Pair(a, b) && Plain(a) && Plain(b) && a.ttl.Some?
    requires D.Sees(w, Exec(Init([a, b], 0), ExpiryRun(a, b, Max0(a.ttl.value))))
    ensures var run := ExpiryRun(a, b, Max0(a.ttl.value));
            var y := Exec(Init([a, b], 0), run);
            && Proper([a, b]) && OneRunPerKey([a, b]) && ModelsAlone([a, b])
            && DecisiveRun(run) && FailuresLeftNothing(y)
            && y.control.revived == {} && CommittedMoney(y, a.caseId) == a.amount + b.amount
            && D.NamedMoney(R.SpentExpired(w, y.control.holds, a.caseId)) == a.amount
  {
    var wait := Max0(a.ttl.value);
    var y := Exec(Init([a, b], 0), ExpiryRun(a, b, wait));
    ExpiryEnds(a, b, wait);
    BothLanded(ExpiryScene(a, b, wait), a, b);
    PairIsProper(a, b);
    ExpiryDecisive(a, b, wait);
    ActingReleasesNothing(a, 0);
    ActingReleasesNothing(b, 1);
    NobodyReleases(y);
    RunTraced([a, b], 0, ExpiryRun(a, b, wait));
    D.NamedIsExpiredSpending(w, y, a.caseId);
    OnlyFirstExpired(ExpiryScene(a, b, wait), a, HoldFor(a, 0).(state := H.EXPIRED), HoldFor(b, wait));
  }

  /** The same, but the first agent was only silent: it hears at last and commits. */
  function LateCommitRun(a: Config, b: Config, wait: nat): seq<Event> {
    ExpiryRun(a, b, wait) + [Act(0, Answered(Ok))] + CommitOf(0)
  }

  function LateCommitScene(a: Config, b: Config, wait: nat): Scene {
    ExpiryScene(a, b, wait).(actors := [Done(a, 0), Creator(b, 1)], revived := {0},
                             holds := [HoldFor(a, 0).(state := H.COMMITTED), HoldFor(b, wait)])
  }

  lemma LateCommitEnds(a: Config, b: Config, wait: nat)
    requires Pair(a, b) && Plain(a) && Plain(b) && a.ttl.Some? && wait >= a.ttl.value
    ensures At(Init([a, b], 0), LateCommitRun(a, b, wait), LateCommitScene(a, b, wait))
  {
    var start, es, sc := Init([a, b], 0), ExpiryRun(a, b, wait), ExpiryScene(a, b, wait);
    var told := sc.(actors := [Done(a, 0), Creator(b, 1)]);
    ExpiryEnds(a, b, wait);
    DiligentHears(a, 0);
    HasShelfRow(sc, a.service);
    SceneHears(start, es, sc, 0, Answered(Ok), told);
    SceneCommits(start, es + [Act(0, Answered(Ok))], told, 0, 0);
    assert C.SetState(told.holds, 0, H.COMMITTED) == LateCommitScene(a, b, wait).holds;
    assert {} + {0} == {0};
  }

  lemma LateCommitDecisive(a: Config, b: Config, wait: nat)
    ensures DecisiveRun(LateCommitRun(a, b, wait))
  {
    ExpiryDecisive(a, b, wait);
    DecisiveConcat(ExpiryRun(a, b, wait), [Act(0, Answered(Ok))]);
    DecisiveConcat(ExpiryRun(a, b, wait) + [Act(0, Answered(Ok))], CommitOf(0));
  }

  /** A silent breach with deadlines: no create failed, every reply is decisive, and yet the case
      holds both amounts, because `commit` accepts an EXPIRED hold. Doing so also erases the one
      finding that would have named the money. */
  lemma LateCommitOverspends(a: Config, b: Config, w: P.World)
    requires Pair(a, b) && Plain(a) && Plain(b) && a.ttl.Some?
    ensures var run := LateCommitRun(a, b, Max0(a.ttl.value));
            var y := Exec(Init([a, b], 0), run);
            && Proper([a, b]) && OneRunPerKey([a, b]) && ModelsAlone([a, b])
            && DecisiveRun(run) && FailuresLeftNothing(y)
            && Breached(y, a, b, w) && y.control.revived == {0}
  {
    var wait := Max0(a.ttl.value);
    LateCommitEnds(a, b, wait);
    SceneBreaches(Init([a, b], 0), LateCommitRun(a, b, wait), LateCommitScene(a, b, wait), a, b, w);
    PairIsProper(a, b);
    LateCommitDecisive(a, b, wait);
    ActingReleasesNothing(a, 0);
    ActingReleasesNothing(b, 1);
    NobodyReleases(Exec(Init([a, b], 0), LateCommitRun(a, b, wait)));
  }

  // ------------------------------------------------------------------------- an indecisive reply

  lemma TwoModels(a: Config, b: Config)
    requires Modelled(a) && Modelled(b)
    ensures Opening([a, b]) == Scene([Idle(a), Idle(b)], 0, [], {}, map[])
  {
    ModelHears(a, 0);
    ModelHears(b, 0);
    assert Opening([a, b]).actors == [Idle(a), Idle(b)];
  }

  /** The first model has its hold. */
  function FirstHolds(a: Config, b: Config): Scene { Scene([Holds(a, 0), Idle(b)], 0, [HoldFor(a, 0)], {}, map[]) }

  lemma FirstModelReserves(a: Config, b: Config)
    requires Modelled(a) && Modelled(b)
    ensures At(Init([a, b], 0), ModelReserving(0, a, 0), FirstHolds(a, b))
  {
    SceneOpens([a, b]);
    TwoModels(a, b);
    FirstFits(a, 0);
    ModelReserves(Init([a, b], 0), [], Opening([a, b]), 0, a, 0, FirstHolds(a, b));
    assert [] + ModelReserving(0, a, 0) == ModelReserving(0, a, 0);
  }

  /** The second model acts once the first hold is RELEASED. */
  lemma SecondModelActs(start: Sys, es: seq<Event>, sc: Scene, x: Actor, h: H.Hold, b: Config, end: Scene)
    requires At(start, es, sc) && sc.actors == [x, Idle(b)] && Modelled(b) && b.service !in sc.shelf && sc.clock == 0
    requires sc.holds == [h] && h.key != b.key && h.state.RELEASED?
    requires end.actors == [x, Issued(b, 1)] && end.shelf == sc.shelf[b.service := b]
    requires end.holds == [h, HoldFor(b, 0)]
    requires end.(actors := sc.actors, holds := sc.holds, shelf := sc.shelf) == sc
    ensures At(start, es + ModelActing(1, b, 1), end)
  {
    GoneFits(h, b, 0);
    ModelActs(start, es, sc, 1, b, 1, end);
  }

  function Declines(cfg: Config): Actor {
    Runs(cfg, 2, [Decline, Issue], false, Some(0), Release(0), {Reserve} + {Release(0)})
  }

  function Wavered(cfg: Config): Actor {
    Runs(cfg, 2, [Issue], true, Some(0), Create, {Reserve} + {Release(0)} + {Create})
  }

  lemma ModelWavers(cfg: Config)
    requires Modelled(cfg)
    ensures Fed(Holds(cfg, 0), Reply([Decline, Issue])) == Declines(cfg)
    ensures Fed(Declines(cfg), Answered(Ok)) == Wavered(cfg)
  {
    assert [Decline, Issue][1..] == [Issue];
  }

  function Wavering(a: Config): seq<Event> {
    ModelReserving(0, a, 0) + [Act(0, Reply([Decline, Issue]))] + ReleaseOf(0) + [Act(0, Answered(Ok))] + CreateOf(a)
  }

  /** The first model declines and issues in one reply; the second acts as it should. */
  function IndecisiveRun(a: Config, b: Config): seq<Event> { Wavering(a) + ModelActing(1, b, 1) }

  /** The first model has freed its hold and its effect has landed under it. */
  function WaveredScene(a: Config, b: Config): Scene {
    Scene([Wavered(a), Idle(b)], 0, [HoldFor(a, 0).(state := H.RELEASED)], {}, map[a.service := a])
  }

  lemma FirstWavers(a: Config, b: Config)
    requires Modelled(a) && Modelled(b)
    ensures At(Init([a, b], 0), Wavering(a), WaveredScene(a, b))
  {
    var start, es1 := Init([a, b], 0), ModelReserving(0, a, 0);
    var es2 := es1 + [Act(0, Reply([Decline, Issue]))];
    var declining := FirstHolds(a, b).(actors := [Declines(a), Idle(b)]);
    var freed := declining.(holds := [HoldFor(a, 0).(state := H.RELEASED)]);
    var wavered := freed.(actors := [Wavered(a), Idle(b)]);
    FirstModelReserves(a, b);
    ModelWavers(a);
    SceneHears(start, es1, FirstHolds(a, b), 0, Reply([Decline, Issue]), declining);
    SceneReleases(start, es2, declining, 0, 0);
    assert C.SetState(declining.holds, 0, H.RELEASED) == freed.holds;
    SceneHears(start, es2 + ReleaseOf(0), freed, 0, Answered(Ok), wavered);
    SceneLands(start, es2 + ReleaseOf(0) + [Act(0, Answered(Ok))], wavered, 0);
  }

  /** Two models that reserve first, no deadline, every acknowledgement truthful: one reply that
      declines and then issues, and the case holds both amounts. */
  lemma IndecisiveReplyOverspends(a: Config, b: Config, w: P.World)
    requires Pair(a, b) && Modelled(a) && Modelled(b) && a.ttl.None? && b.ttl.None?
    ensures Proper([a, b]) && OneRunPerKey([a, b]) && ModelsAlone([a, b]) && NoTtl([a, b])
    ensures var y := Exec(Init([a, b], 0), IndecisiveRun(a, b));
            FailuresLeftNothing(y) && Breached(y, a, b, w) && y.control.revived == {}
  {
    var sc := WaveredScene(a, b);
    var end := sc.(actors := [Wavered(a), Issued(b, 1)], shelf := sc.shelf[b.service := b],
                   holds := [sc.holds[0], HoldFor(b, 0)]);
    FirstWavers(a, b);
    SecondModelActs(Init([a, b], 0), Wavering(a), sc, Wavered(a), sc.holds[0], b, end);
    SceneBreaches(Init([a, b], 0), IndecisiveRun(a, b), end, a, b, w);
    PairIsProper(a, b);
    ModelsFailNothing(Exec(Init([a, b], 0), IndecisiveRun(a, b)));
  }

  // ------------------------------------------------------------------- issue first, decline after

  function Issues(cfg: Config): Actor {
    Runs(cfg, 2, [Issue, Decline], false, Some(0), Create, {Reserve} + {Create})
  }

  function Settles(cfg: Config): Actor {
    Runs(cfg, 2, [Issue, Decline], false, Some(0), Commit(0), {Reserve} + {Create} + {Commit(0)})
  }

  function Regretted(cfg: Config): Actor {
    Runs(cfg, 2, [Decline], true, Some(0), Release(0), {Reserve} + {Create} + {Commit(0)} + {Release(0)})
  }

  lemma ModelRegrets(cfg: Config)
    requires Modelled(cfg)
    ensures Fed(Holds(cfg, 0), Reply([Issue, Decline])) == Issues(cfg)
    ensures Fed(Issues(cfg), Answered(Ok)) == Settles(cfg)
    ensures Fed(Settles(cfg), Answered(Ok)) == Regretted(cfg)
  {
    assert [Issue, Decline][1..] == [Decline];
  }

  /** The commit is refused with a status the client does not look at, and never served. */
  function Regretting(a: Config): seq<Event> {
    ModelReserving(0, a, 0) + [Act(0, Reply([Issue, Decline]))] + CreateOf(a)
    + [Act(0, Answered(Ok))] + [Act(0, Answered(Ok))] + ReleaseOf(0)
  }

  function RegretRun(a: Config, b: Config): seq<Event> { Regretting(a) + ModelActing(1, b, 1) }

  function RegretScene(a: Config, b: Config): Scene {
    Scene([Regretted(a), Idle(b)], 0, [HoldFor(a, 0).(state := H.RELEASED)], {}, map[a.service := a])
  }

  lemma FirstRegrets(a: Config, b: Config)
    requires Modelled(a) && Modelled(b)
    ensures At(Init([a, b], 0), Regretting(a), RegretScene(a, b))
  {
    var start, es1 := Init([a, b], 0), ModelReserving(0, a, 0);
    var es2 := es1 + [Act(0, Reply([Issue, Decline]))] + CreateOf(a);
    var creating := FirstHolds(a, b).(actors := [Issues(a), Idle(b)]);
    var landed := creating.(shelf := map[a.service := a]);
    FirstModelReserves(a, b);
    ModelRegrets(a);
    SceneHears(start, es1, FirstHolds(a, b), 0, Reply([Issue, Decline]), creating);
    SceneLands(start, es1 + [Act(0, Reply([Issue, Decline]))], creating, 0);
    RegretFrees(start, es2, landed, a, b);
  }

  lemma RegretFrees(start: Sys, es: seq<Event>, sc: Scene, a: Config, b: Config)
    requires Modelled(a) && sc == Scene([Issues(a), Idle(b)], 0, [HoldFor(a, 0)], {}, map[a.service := a])
    requires At(start, es, sc)
    ensures At(start, es + [Act(0, Answered(Ok))] + [Act(0, Answered(Ok))] + ReleaseOf(0), RegretScene(a, b))
  {
    var committing := sc.(actors := [Settles(a), Idle(b)]);
    var regretted := sc.(actors := [Regretted(a), Idle(b)]);
    ModelRegrets(a);
    HasShelfRow(sc, a.service);
    SceneHears(start, es, sc, 0, Answered(Ok), committing);
    SceneHears(start, es + [Act(0, Answered(Ok))], committing, 0, Answered(Ok), regretted);
    SceneReleases(start, es + [Act(0, Answered(Ok))] + [Act(0, Answered(Ok))], regretted, 0, 0);
    assert C.SetState(sc.holds, 0, H.RELEASED) == RegretScene(a, b).holds;
  }

  /** The other order is no safer: a reply that issues and then declines frees a hold whose money
      moved, when the commit between them failed with a status the client ignores. */
  lemma IssueThenDeclineOverspends(a: Config, b: Config, w: P.World)
    requires Pair(a, b) && Modelled(a) && Modelled(b) && a.ttl.None? && b.ttl.None?
    ensures Proper([a, b]) && OneRunPerKey([a, b]) && ModelsAlone([a, b]) && NoTtl([a, b])
    ensures var y := Exec(Init([a, b], 0), RegretRun(a, b));
            FailuresLeftNothing(y) && Breached(y, a, b, w) && y.control.revived == {}
  {
    var sc := RegretScene(a, b);
    var end := sc.(actors := [Regretted(a), Issued(b, 1)], shelf := sc.shelf[b.service := b],
                   holds := [sc.holds[0], HoldFor(b, 0)]);
    FirstRegrets(a, b);
    SecondModelActs(Init([a, b], 0), Regretting(a), sc, Regretted(a), sc.holds[0], b, end);
    SceneBreaches(Init([a, b], 0), RegretRun(a, b), end, a, b, w);
    PairIsProper(a, b);
    ModelsFailNothing(Exec(Init([a, b], 0), RegretRun(a, b)));
  }

  // --------------------------------------------------------------------------- without authority

  ghost predicate Unguarded(cfg: Config) { cfg.model && !cfg.authority && cfg.knownAction && cfg.amount > 0 }

  function Impulsive(cfg: Config): Actor { Runs(cfg, 1, [Issue], false, None, Create, {Create}) }

  function Reading(cfg: Config): Actor { Runs(cfg, 1, [ReadCompensation, Issue], false, None, Observe, {Observe}) }

  function Informed(cfg: Config): Actor { Runs(cfg, 1, [Issue], false, None, Create, {Observe, Create}) }

  lemma UnguardedHears(cfg: Config, total: int)
    requires Unguarded(cfg)
    ensures Actor(cfg, Start(cfg), Sending(Start(cfg))) == Idle(cfg)
    ensures Fed(Idle(cfg), Reply([Issue])) == Impulsive(cfg)
    ensures Fed(Idle(cfg), Reply([ReadCompensation, Issue])) == Reading(cfg)
    ensures Fed(Reading(cfg), Answered(Total(total))) == Informed(cfg)
  {
    assert {} + {Create} == {Create} && {} + {Observe} == {Observe} && {Observe} + {Create} == {Observe, Create};
    assert [ReadCompensation, Issue][1..] == [Issue];
  }

  function ImpulsiveRun(a: Config): seq<Event> { [Act(0, Reply([Issue]))] + CreateOf(a) }

  function InformedRun(a: Config, b: Config): seq<Event> {
    ImpulsiveRun(a) + [Act(1, Reply([ReadCompensation, Issue]))] + [Act(1, Answered(Total(a.amount)))] + CreateOf(b)
  }

  function ImpulsiveScene(a: Config, b: Config): Scene {
    Scene([Impulsive(a), Idle(b)], 0, [], {}, map[a.service := a])
  }

  lemma FirstIssues(a: Config, b: Config)
    requires Unguarded(a) && Unguarded(b)
    ensures At(Init([a, b], 0), ImpulsiveRun(a), ImpulsiveScene(a, b))
  {
    var start, issuing := Init([a, b], 0), Scene([Impulsive(a), Idle(b)], 0, [], {}, map[]);
    UnguardedHears(a, 0);
    UnguardedHears(b, 0);
    SceneOpens([a, b]);
    assert Opening([a, b]).actors == [Idle(a), Idle(b)];
    SceneHears(start, [], Opening([a, b]), 0, Reply([Issue]), issuing);
    assert [] + [Act(0, Reply([Issue]))] == [Act(0, Reply([Issue]))];
    SceneLands(start, [Act(0, Reply([Issue]))], issuing, 0);
  }

  function InformedScene(a: Config, b: Config): Scene {
    Scene([Impulsive(a), Informed(b)], 0, [], {}, map[a.service := a][b.service := b])
  }

  lemma SecondReadsAndIssues(a: Config, b: Config)
    requires Unguarded(a) && Unguarded(b) && a.service != b.service
    ensures At(Init([a, b], 0), InformedRun(a, b), InformedScene(a, b))
  {
    var start, es, sc := Init([a, b], 0), ImpulsiveRun(a), ImpulsiveScene(a, b);
    var reading := sc.(actors := [Impulsive(a), Reading(b)]);
    var informed := sc.(actors := [Impulsive(a), Informed(b)]);
    var asks := [Act(1, Reply([ReadCompensation, Issue]))];
    FirstIssues(a, b);
    UnguardedHears(b, a.amount);
    SceneHears(start, es, sc, 1, Reply([ReadCompensation, Issue]), reading);
    SceneHears(start, es + asks, reading, 1, Answered(Total(a.amount)), informed);
    SceneLands(start, es + asks + [Act(1, Answered(Total(a.amount)))], informed, 1);
  }

  lemma OneLanded(sc: Scene, a: Config)
    requires sc.shelf == map[a.service := a]
    ensures CommittedMoney(View(sc), a.caseId) == a.amount
  {
    X.OneRowTotal(a.caseId, a.key, a.amount);
    assert S.CommittedTotal(S.Empty, a.caseId) == 0;
    if a.service.Billing? {
      assert P.Ledger !in sc.shelf;
    } else {
      assert a.service == P.Ledger && P.Billing !in sc.shelf;
    }
  }

  /** Reserving first is needed, and knowing the truth is no substitute: a model without the authority
      is told exactly what the case holds, though it be the whole ceiling, and issues all the same. */
  lemma InformedModelOverspends(a: Config, b: Config)
    requires Unguarded(a) && Unguarded(b) && a.caseId == b.caseId && a.service != b.service && a.key != b.key
    ensures OneRunPerKey([a, b]) && OneOperationPerKey([a, b]) && DecisiveRun(InformedRun(a, b))
    ensures CommittedMoney(Exec(Init([a, b], 0), ImpulsiveRun(a)), a.caseId) == a.amount
    ensures var y := Exec(Init([a, b], 0), InformedRun(a, b));
            CommittedMoney(y, a.caseId) == a.amount + b.amount && FailuresLeftNothing(y)
  {
    FirstIssues(a, b);
    OneLanded(ImpulsiveScene(a, b), a);
    SecondReadsAndIssues(a, b);
    BothLanded(InformedScene(a, b), a, b);
    ModelsFailNothing(Exec(Init([a, b], 0), InformedRun(a, b)));
  }
}
