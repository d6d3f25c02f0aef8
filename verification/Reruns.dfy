/** A replayed key is answered granted whatever its hold's state is. What that costs when a key is
    shared by two operations, and when one operation is run again. */
module Reruns {
  import opened Base
  import opened Agents
  import opened Breaches
  import opened Ceiling
  import opened Overspend
  import opened Scenes
  import opened SoloRuns
  import H = Control
  import C = ControlRuns
  import P = Projection
  import S = Stores

  // ------------------------------------------------------------- one key, two operations

  function SharedKeyRun(a: Config, b: Config): seq<Event> { Acting(0, a, 0, 0) + Acting(1, b, 0, 0) }

  function SharedKeyScene(a: Config, b: Config): Scene {
    FirstDone(a, b).(actors := [Creator(a, 0), Creator(b, 0)], shelf := map[a.service := a][b.service := b])
  }

  lemma SharedKeyEnds(a: Config, b: Config)
    requires Partners(a, b) && a.key == b.key && Plain(a) && Plain(b) && a.ttl.None?
    ensures At(Init([a, b], 0), SharedKeyRun(a, b), SharedKeyScene(a, b))
  {
    FirstActs(a, b);
    ReplayIsGranted(HoldFor(a, 0), b, 0);
    DiligentActs(Init([a, b], 0), Acting(0, a, 0, 0), FirstDone(a, b), 1, b, 0, SharedKeyScene(a, b));
  }

  lemma NothingDead(y: Sys)
    requires y.control.revived == {} && forall k: nat :: k < |y.control.holds| ==> y.control.holds[k].state.HELD?
    ensures SpentIn(y, H.EXPIRED) == {} && SpentIn(y, H.RELEASED) == {} && SpentRevived(y) == {}
  {
  }

  /** Where it ends nobody has released, and the one hold is HELD. */
  lemma SharedKeyAlive(a: Config, b: Config)
    ensures var y := View(SharedKeyScene(a, b));
            && FailuresLeftNothing(y)
            && SpentIn(y, H.EXPIRED) == {} && SpentIn(y, H.RELEASED) == {} && SpentRevived(y) == {}
  {
    ActingReleasesNothing(a, 0);
    ActingReleasesNothing(b, 0);
    NobodyReleases(View(SharedKeyScene(a, b)));
    NothingDead(View(SharedKeyScene(a, b)));
  }

  /** Even the bound of the ceiling theorem fails when a key means two operations: two agents, one in
      each service, both spend under the one hold, which is still HELD. */
  lemma SharedKeyOverspends(a: Config, b: Config, w: P.World)
    requires Partners(a, b) && a.key == b.key && Plain(a) && Plain(b) && a.ttl.None? && b.ttl.None?
    ensures !OneOperationPerKey([a, b]) && ModelsAlone([a, b]) && NoTtl([a, b]) && DecisiveRun(SharedKeyRun(a, b))
    ensures var y := Exec(Init([a, b], 0), SharedKeyRun(a, b));
            && FailuresLeftNothing(y) && Breached(y, a, b, w) && y.control.revived == {}
            && y.control.holds == [HoldFor(a, 0)] && HoldFor(a, 0).state.HELD?
            && SpentIn(y, H.EXPIRED) == {} && SpentIn(y, H.RELEASED) == {} && SpentRevived(y) == {}
  {
    SharedKeyEnds(a, b);
    SceneBreaches(Init([a, b], 0), SharedKeyRun(a, b), SharedKeyScene(a, b), a, b, w);
    SharedKeyAlive(a, b);
    SharedKeySetup(a, b);
  }

  lemma SharedKeySetup(a: Config, b: Config)
    requires Partners(a, b) && a.key == b.key && a.ttl.None? && b.ttl.None?
    ensures !OneOperationPerKey([a, b]) && NoTtl([a, b]) && DecisiveRun(SharedKeyRun(a, b))
  {
    DecisiveConcat(Acting(0, a, 0, 0), Acting(1, b, 0, 0));
    assert !SameOperation([a, b][0], [a, b][1]);
  }

  // -------------------------------------------------------- a rerun after a failed create

  lemma RerunIsProper(a: Config, b: Config)
    requires Pair(a, b) && a.ttl.None? && b.ttl.None?
    ensures Proper([a, a, b]) && !OneRunPerKey([a, a, b]) && NoTtl([a, a, b])
    ensures a.model ==> !ModelsAlone([a, a, b])
    ensures !a.model && !b.model ==> ModelsAlone([a, a, b])
  {
    assert [a, a, b][0].key == [a, a, b][1].key;
  }

  function Freed(a: Config): H.Hold { HoldFor(a, 0).(state := H.RELEASED) }

  /** The create fails, nothing having landed, and the agent frees its hold. */
  function FailedRun(a: Config): seq<Event> {
    DiligentReserving(0, a, 0, 0) + [Act(0, Answered(Raised))] + ReleaseOf(0)
  }

  /** It is run again, spends under the freed hold, and its commit is refused unnoticed; then the
      other agent is granted the same budget and acts. */
  function RerunRun(a: Config, b: Config): seq<Event> {
    FailedRun(a) + Acting(1, a, 0, 0) + [Act(1, Answered(Ok))] + CommitOf(0) + Acting(2, b, 0, 1)
  }

  function FailedScene(a: Config, b: Config): Scene {
    Scene([Failed(a, 0), Fresh(a), Fresh(b)], 0, [Freed(a)], {}, map[])
  }

  lemma ThreeDiligent(a: Config, b: Config)
    requires Plain(a) && Plain(b)
    ensures Opening([a, a, b]) == Scene([Fresh(a), Fresh(a), Fresh(b)], 0, [], {}, map[])
  {
    DiligentHears(a, 0);
    DiligentHears(b, 0);
    assert Opening([a, a, b]).actors == [Fresh(a), Fresh(a), Fresh(b)];
  }

  lemma FirstFails(a: Config, b: Config)
    requires Plain(a) && Plain(b)
    ensures At(Init([a, a, b], 0), FailedRun(a), FailedScene(a, b))
  {
    var start, es := Init([a, a, b], 0), DiligentReserving(0, a, 0, 0);
    var opening := Opening([a, a, b]);
    var created := opening.(actors := [Creator(a, 0), Fresh(a), Fresh(b)], holds := [HoldFor(a, 0)]);
    var failed := created.(actors := FailedScene(a, b).actors);
    SceneOpens([a, a, b]);
    ThreeDiligent(a, b);
    FirstFits(a, 0);
    DiligentReserves(start, [], opening, 0, a, 0, created);
    assert [] + es == es;
    DiligentHears(a, 0);
    SceneHears(start, es, created, 0, Answered(Raised), failed);
    SceneReleases(start, es + [Act(0, Answered(Raised))], failed, 0, 0);
    assert C.SetState(failed.holds, 0, H.RELEASED) == [Freed(a)];
  }

  /** The rerun has been acknowledged, and its commit answered 409. */
  function RerunScene(a: Config, b: Config): Scene {
    FailedScene(a, b).(actors := [Failed(a, 0), Done(a, 0), Fresh(b)], shelf := map[a.service := a])
  }

  lemma SecondReruns(a: Config, b: Config)
    requires Plain(a) && Plain(b)
    ensures At(Init([a, a, b], 0), FailedRun(a) + Acting(1, a, 0, 0) + [Act(1, Answered(Ok))] + CommitOf(0),
               RerunScene(a, b))
  {
    var start, es := Init([a, a, b], 0), FailedRun(a);
    var acted := RerunScene(a, b).(actors := [Failed(a, 0), Creator(a, 0), Fresh(b)]);
    FirstFails(a, b);
    ReplayIsGranted(Freed(a), a, 0);
    DiligentActs(start, es, FailedScene(a, b), 1, a, 0, acted);
    DiligentHears(a, 0);
    HasShelfRow(acted, a.service);
    SceneHears(start, es + Acting(1, a, 0, 0), acted, 1, Answered(Ok), RerunScene(a, b));
    SceneCommits(start, es + Acting(1, a, 0, 0) + [Act(1, Answered(Ok))], RerunScene(a, b), 1, 0);
  }

  function RerunEnd(a: Config, b: Config): Scene {
    RerunScene(a, b).(actors := [Failed(a, 0), Done(a, 0), Creator(b, 1)], holds := [Freed(a), HoldFor(b, 0)],
                      shelf := map[a.service := a][b.service := b])
  }

  lemma RerunEnds(a: Config, b: Config)
    requires Pair(a, b) && Plain(a) && Plain(b)
    ensures At(Init([a, a, b], 0), RerunRun(a, b), RerunEnd(a, b))
  {
    SecondReruns(a, b);
    GoneFits(Freed(a), b, 0);
    DiligentActs(Init([a, a, b], 0), FailedRun(a) + Acting(1, a, 0, 0) + [Act(1, Answered(Ok))] + CommitOf(0),
                 RerunScene(a, b), 2, b, 1, RerunEnd(a, b));
  }

  lemma RerunDecisive(a: Config, b: Config)
    ensures DecisiveRun(RerunRun(a, b))
  {
    var again := FailedRun(a) + Acting(1, a, 0, 0);
    DecisiveConcat(DiligentReserving(0, a, 0, 0), [Act(0, Answered(Raised))]);
    DecisiveConcat(DiligentReserving(0, a, 0, 0) + [Act(0, Answered(Raised))], ReleaseOf(0));
    DecisiveConcat(FailedRun(a), Acting(1, a, 0, 0));
    DecisiveConcat(again, [Act(1, Answered(Ok))]);
    DecisiveConcat(again + [Act(1, Answered(Ok))], CommitOf(0));
    DecisiveConcat(again + [Act(1, Answered(Ok))] + CommitOf(0), Acting(2, b, 0, 1));
  }

  /** The first actor gave its operation up, and yet it has an effect. */
  lemma LandedBehindFailure(y: Sys, sc: Scene, a: Config)
    requires y == View(sc) && a.service in sc.shelf && sc.shelf[a.service] == a && !a.model
    requires |sc.actors| > 0 && sc.actors[0] == Failed(a, 0)
    ensures !FailuresLeftNothing(y)
  {
    var rows := AllRows(y);
    assert OnlyRow(a).rows == [S.Effect(a.caseId, a.key, a.amount, S.COMMITTED)];
    var r := if a.service.Billing? then 0 else |y.billing.rows|;
    assert rows[r] == OnlyRow(a).rows[0];
    assert S.Landed(rows, a.key);
    assert Release(0) in y.actors[0].sent;
  }

  /** The first run failed truly: when its hold was freed there was no effect at all. Running it again
      is granted the freed hold, and the case ends up with both amounts. Of the conditions of the
      ceiling theorem only one fails: an operation that was given up has an effect after all. */
  lemma RerunOverspends(a: Config, b: Config, w: P.World)
    requires Pair(a, b) && Plain(a) && Plain(b) && a.ttl.None? && b.ttl.None?
    ensures Proper([a, a, b]) && ModelsAlone([a, a, b]) && NoTtl([a, a, b]) && DecisiveRun(RerunRun(a, b))
    ensures var m := Exec(Init([a, a, b], 0), FailedRun(a)); AllRows(m) == [] && m.control.holds == [Freed(a)]
    ensures var y := Exec(Init([a, a, b], 0), RerunRun(a, b));
            Breached(y, a, b, w) && y.control.revived == {} && !FailuresLeftNothing(y)
  {
    FirstFails(a, b);
    RerunEnds(a, b);
    SceneBreaches(Init([a, a, b], 0), RerunRun(a, b), RerunEnd(a, b), a, b, w);
    RerunIsProper(a, b);
    RerunDecisive(a, b);
    LandedBehindFailure(Exec(Init([a, a, b], 0), RerunRun(a, b)), RerunEnd(a, b), a);
  }

  // ----------------------------------------------------------- a rerun after a decline

  function Declined(cfg: Config): Actor {
    Runs(cfg, 2, [Decline], false, Some(0), Release(0), {Reserve} + {Release(0)})
  }

  function DeclinedRun(a: Config): seq<Event> {
    ModelReserving(0, a, 0) + [Act(0, Reply([Decline]))] + ReleaseOf(0)
  }

  /** A model declines; run again, it issues under the freed hold; then another model acts. */
  function SecondThoughtsRun(a: Config, b: Config): seq<Event> {
    DeclinedRun(a) + ModelActing(1, a, 0) + ModelActing(2, b, 1)
  }

  function DeclinedScene(a: Config, b: Config): Scene {
    Scene([Declined(a), Idle(a), Idle(b)], 0, [Freed(a)], {}, map[])
  }

  lemma ThreeModels(a: Config, b: Config)
    requires Modelled(a) && Modelled(b)
    ensures Opening([a, a, b]) == Scene([Idle(a), Idle(a), Idle(b)], 0, [], {}, map[])
  {
    ModelHears(a, 0);
    ModelHears(b, 0);
    assert Opening([a, a, b]).actors == [Idle(a), Idle(a), Idle(b)];
  }

  lemma FirstDeclines(a: Config, b: Config)
    requires Modelled(a) && Modelled(b)
    ensures At(Init([a, a, b], 0), DeclinedRun(a), DeclinedScene(a, b))
  {
    var start, es := Init([a, a, b], 0), ModelReserving(0, a, 0);
    var held := Scene([Holds(a, 0), Idle(a), Idle(b)], 0, [HoldFor(a, 0)], {}, map[]);
    var declined := held.(actors := DeclinedScene(a, b).actors);
    SceneOpens([a, a, b]);
    ThreeModels(a, b);
    FirstFits(a, 0);
    ModelReserves(start, [], Opening([a, a, b]), 0, a, 0, held);
    assert [] + es == es;
    assert Fed(Holds(a, 0), Reply([Decline])) == Declined(a);
    SceneHears(start, es, held, 0, Reply([Decline]), declined);
    SceneReleases(start, es + [Act(0, Reply([Decline]))], declined, 0, 0);
    assert C.SetState(declined.holds, 0, H.RELEASED) == [Freed(a)];
  }

  function SecondThoughtsEnd(a: Config, b: Config): Scene {
    Scene([Declined(a), Issued(a, 0), Issued(b, 1)], 0, [Freed(a), HoldFor(b, 0)], {},
          map[a.service := a][b.service := b])
  }

  lemma SecondThoughtsEnds(a: Config, b: Config)
    requires Pair(a, b) && Modelled(a) && Modelled(b)
    ensures At(Init([a, a, b], 0), SecondThoughtsRun(a, b), SecondThoughtsEnd(a, b))
  {
    var start := Init([a, a, b], 0);
    var issued := DeclinedScene(a, b).(actors := [Declined(a), Issued(a, 0), Idle(b)], shelf := map[a.service := a]);
    FirstDeclines(a, b);
    ReplayIsGranted(Freed(a), a, 0);
    ModelActs(start, DeclinedRun(a), DeclinedScene(a, b), 1, a, 0, issued);
    GoneFits(Freed(a), b, 0);
    ModelActs(start, DeclinedRun(a) + ModelActing(1, a, 0), issued, 2, b, 1, SecondThoughtsEnd(a, b));
  }

  lemma SecondThoughtsDecisive(a: Config, b: Config)
    ensures DecisiveRun(SecondThoughtsRun(a, b))
  {
    DecisiveConcat(ModelReserving(0, a, 0), [Act(0, Reply([Decline]))]);
    DecisiveConcat(ModelReserving(0, a, 0) + [Act(0, Reply([Decline]))], ReleaseOf(0));
    DecisiveConcat(DeclinedRun(a), ModelActing(1, a, 0));
    DecisiveConcat(DeclinedRun(a) + ModelActing(1, a, 0), ModelActing(2, b, 1));
  }

  /** That a model has its key to itself is needed: here every other condition of the ceiling theorem holds. */
  lemma SecondThoughtsOverspend(a: Config, b: Config, w: P.World)
    requires Pair(a, b) && Modelled(a) && Modelled(b) && a.ttl.None? && b.ttl.None?
    ensures Proper([a, a, b]) && !ModelsAlone([a, a, b]) && NoTtl([a, a, b])
    ensures DecisiveRun(SecondThoughtsRun(a, b))
    ensures var y := Exec(Init([a, a, b], 0), SecondThoughtsRun(a, b));
            FailuresLeftNothing(y) && Breached(y, a, b, w) && y.control.revived == {}
  {
    SecondThoughtsEnds(a, b);
    SceneBreaches(Init([a, a, b], 0), SecondThoughtsRun(a, b), SecondThoughtsEnd(a, b), a, b, w);
    RerunIsProper(a, b);
    SecondThoughtsDecisive(a, b);
    ModelsFailNothing(Exec(Init([a, a, b], 0), SecondThoughtsRun(a, b)));
  }
}
