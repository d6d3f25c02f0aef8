/** Any number of agents, diligent and model-driven, against the reservation authority and the two
    effect stores, which share no transaction. Agents see arbitrary stale totals and stop anywhere;
    a request once sent may be served late, more than once, or with its answer lost. */
module Ceiling {
  import opened Base
  import opened Agents
  import opened AgentFacts
  import H = Control
  import C = ControlRuns
  import S = Stores
  import P = Projection

  datatype Actor = Actor(cfg: Config, agent: Agent, sent: set<Call>)
  datatype Sys = Sys(control: C.State, billing: S.Store, ledger: S.Store, actors: seq<Actor>)

  datatype Event =
    | Act(i: nat, x: Input)
    | Authority(e: C.Event)
    | Store(s: P.Service, r: S.Event)

  function Source(y: Sys, s: P.Service): S.Store { if s.Billing? then y.billing else y.ledger }

  function WithSource(y: Sys, s: P.Service, store: S.Store): Sys {
    if s.Billing? then y.(billing := store) else y.(ledger := store)
  }

  function RequestOf(cfg: Config): H.Request { H.Request(cfg.caseId, cfg.amount, cfg.key, cfg.authorized, cfg.ttl) }

  /** The holds that bear an actor's key: what the authority can grant it, fresh or replayed. */
  function Own(y: Sys, cfg: Config): set<nat> {
    set k: nat | k < |y.control.holds| && y.control.holds[k].key == cfg.key
  }

  predicate HasRow(y: Sys, s: P.Service, key: string) {
    exists r: nat :: r < |Source(y, s).rows| && Source(y, s).rows[r].key == key
  }

  /** A grant names a hold bearing the key; a create is acknowledged only once its row exists.
      Every other answer may come at any time. */
  predicate CanAct(y: Sys, i: nat, x: Input) {
    && i < |y.actors| && Accepts(y.actors[i].agent, x)
    && (x.Answered? && x.answer.Granted? ==> x.answer.id in Own(y, y.actors[i].cfg))
    && (x == Answered(Ok) && Pending(y.actors[i].agent) == Some(Create) ==>
          HasRow(y, y.actors[i].cfg.service, y.actors[i].cfg.key))
  }

  predicate SentBy(y: Sys, c: Call) { exists i: nat :: i < |y.actors| && c in y.actors[i].sent }

  predicate Reserves(a: Actor, req: H.Request) { Reserve in a.sent && RequestOf(a.cfg) == req }

  predicate Creates(a: Actor, s: P.Service, key: string, caseId: string, amount: int) {
    Create in a.sent && a.cfg.service == s && a.cfg.key == key && a.cfg.caseId == caseId && a.cfg.amount == amount
  }

  /** The services act only on requests some actor sent. */
  predicate Asked(y: Sys, e: Event) {
    match e
    case Authority(ReserveBegin(_, req, _)) => exists i: nat :: i < |y.actors| && Reserves(y.actors[i], req)
    case Authority(ReleaseSelect(_, id)) => SentBy(y, Release(id))
    case Authority(CommitSelect(_, id)) => SentBy(y, Commit(id))
    case Store(s, CreateBegin(_, c, key, amount)) =>
      exists i: nat :: i < |y.actors| && Creates(y.actors[i], s, key, c, amount)
    case _ => true
  }

  function Apply(y: Sys, e: Event): Sys {
    if !Asked(y, e) then y
    else match e
      case Act(i, x) =>
        if !CanAct(y, i, x) then y
        else
          var a := Feed(y.actors[i].cfg, y.actors[i].agent, x);
          y.(actors := y.actors[i := Actor(y.actors[i].cfg, a, y.actors[i].sent + Sending(a))])
      case Authority(r) => y.(control := C.Apply(y.control, r))
      case Store(s, r) => WithSource(y, s, S.Apply(Source(y, s), r))
  }

  function Init(cfgs: seq<Config>, clock: int): Sys {
    Sys(C.Init(clock), S.Empty, S.Empty,
        seq(|cfgs|, i requires 0 <= i < |cfgs| =>
            Actor(cfgs[i], Agents.Start(cfgs[i]), Sending(Agents.Start(cfgs[i])))))
  }

  function Exec(y: Sys, es: seq<Event>): Sys {
    if |es| == 0 then y else Apply(Exec(y, es[..|es| - 1]), es[|es| - 1])
  }

  /** The runs are as hostile as the claims about them say. An agent may be told any total, a refusal or an
      exception at any call, a model may say anything or be gone; what was sent may be served at any
      time; and anybody may void, roll back or redeliver. */
  lemma AnythingMayHappen(y: Sys, i: nat, x: Input, s: P.Service, e: S.Event)
    requires i < |y.actors| && Accepts(y.actors[i].agent, x)
    ensures (x.Answered? ==> x.answer.Total? || x.answer.Refused? || x.answer.Raised?) ==>
              var z := Apply(y, Act(i, x));
              z.actors[i].agent == Feed(y.actors[i].cfg, y.actors[i].agent, x) && y.actors[i].sent <= z.actors[i].sent
    ensures (e.CreateBegin? ==> Create in y.actors[i].sent && y.actors[i].cfg.service == s
                                && e == S.CreateBegin(e.t, y.actors[i].cfg.caseId, y.actors[i].cfg.key,
                                                      y.actors[i].cfg.amount)) ==>
              Source(Apply(y, Store(s, e)), s) == S.Apply(Source(y, s), e)
  {
    if e.CreateBegin? && Create in y.actors[i].sent {
      assert Creates(y.actors[i], y.actors[i].cfg.service, y.actors[i].cfg.key, y.actors[i].cfg.caseId,
                     y.actors[i].cfg.amount);
    }
  }

  // ------------------------------------------------------------------ where rows come from

  ghost predicate OwnsHold(cfg: Config, h: H.Hold) {
    h.key == cfg.key && h.caseId == cfg.caseId && h.amount == cfg.amount && (cfg.ttl.None? ==> h.expiresAt.None?)
  }

  /** Some agent whose operation the hold is for has asked the authority. */
  ghost predicate HoldOwned(y: Sys, h: H.Hold) {
    exists i: nat :: i < |y.actors| && Reserve in y.actors[i].sent && OwnsHold(y.actors[i].cfg, h)
  }

  ghost predicate RequestOwned(y: Sys, req: H.Request) {
    exists i: nat :: i < |y.actors| && Reserves(y.actors[i], req)
  }

  ghost predicate RowOwned(y: Sys, s: P.Service, key: string, c: string, amount: int) {
    exists i: nat :: i < |y.actors| && Creates(y.actors[i], s, key, c, amount)
  }

  ghost predicate HoldsOwned(y: Sys) {
    && (forall k: nat :: k < |y.control.holds| ==> HoldOwned(y, y.control.holds[k]))
    && (forall t :: t in y.control.open && y.control.open[t].Reserving? ==> RequestOwned(y, y.control.open[t].req))
  }

  ghost predicate RowsOwned(y: Sys, s: P.Service) {
    var store := Source(y, s);
    && (forall r: nat :: r < |store.rows| ==>
          RowOwned(y, s, store.rows[r].key, store.rows[r].caseId, store.rows[r].amount))
    && (forall t :: t in store.open && store.open[t].Creating? ==>
          RowOwned(y, s, store.open[t].key, store.open[t].caseId, store.open[t].amount))
  }

  ghost predicate ActorsCareful(y: Sys) {
    forall i: nat :: i < |y.actors| ==>
      Careful(y.actors[i].cfg, y.actors[i].agent, y.actors[i].sent, Own(y, y.actors[i].cfg))
  }

  /** Runs of one keyed operation: an agent and its reruns. */
  predicate SameOperation(a: Config, b: Config) {
    a.caseId == b.caseId && a.amount == b.amount && a.service == b.service
  }

  ghost predicate Setup(y: Sys) {
    && (forall i: nat :: i < |y.actors| ==> y.actors[i].cfg.authority)
    && KeysAgree(y)
  }

  ghost predicate KeysAgree(y: Sys) {
    forall i: nat, j: nat :: i < |y.actors| && j < |y.actors| && y.actors[i].cfg.key == y.actors[j].cfg.key ==>
      SameOperation(y.actors[i].cfg, y.actors[j].cfg)
  }

  ghost predicate Traced(y: Sys) {
    Setup(y) && HoldsOwned(y) && RowsOwned(y, P.Billing) && RowsOwned(y, P.Ledger) && ActorsCareful(y)
  }

  ghost predicate StoresTrue(y: Sys) { S.Inv(y.billing) && S.Inv(y.ledger) }

  /** Actors only ever send more; who they are does not change. */
  ghost predicate ActorsGrow(y: Sys, z: Sys) {
    && |z.actors| == |y.actors|
    && forall i: nat :: i < |y.actors| ==> z.actors[i].cfg == y.actors[i].cfg && y.actors[i].sent <= z.actors[i].sent
  }

  lemma OwnedStays(y: Sys, z: Sys)
    requires ActorsGrow(y, z)
    ensures forall h :: HoldOwned(y, h) ==> HoldOwned(z, h)
    ensures forall req :: RequestOwned(y, req) ==> RequestOwned(z, req)
    ensures forall s, key, c, amount :: RowOwned(y, s, key, c, amount) ==> RowOwned(z, s, key, c, amount)
    ensures forall c :: SentBy(y, c) ==> SentBy(z, c)
  {
  }

  lemma RowsStay(y: Sys, z: Sys, s: P.Service)
    requires ActorsGrow(y, z) && RowsOwned(y, s) && Source(z, s) == Source(y, s)
    ensures RowsOwned(z, s)
  {
  }

  lemma HoldsStay(y: Sys, z: Sys)
    requires ActorsGrow(y, z) && HoldsOwned(y) && z.control == y.control
    ensures HoldsOwned(z)
  {
  }

  lemma ApplyGrows(y: Sys, e: Event)
    ensures ActorsGrow(y, Apply(y, e))
  {
  }

  lemma ActKeeps(y: Sys, i: nat, x: Input)
    requires Traced(y) && CanAct(y, i, x)
    ensures Traced(Apply(y, Act(i, x)))
  {
    var z := Apply(y, Act(i, x));
    ApplyGrows(y, Act(i, x));
    RowsStay(y, z, P.Billing);
    RowsStay(y, z, P.Ledger);
    HoldsStay(y, z);
    var a := y.actors[i];
    FeedCareful(a.cfg, a.agent, x, a.sent, Own(y, a.cfg));
    forall j: nat | j < |z.actors|
      ensures Careful(z.actors[j].cfg, z.actors[j].agent, z.actors[j].sent, Own(z, z.actors[j].cfg))
    {
      assert Own(z, z.actors[j].cfg) == Own(y, y.actors[j].cfg);
      assert Careful(y.actors[j].cfg, y.actors[j].agent, y.actors[j].sent, Own(y, y.actors[j].cfg));
    }
  }

  lemma HoldOwner(y: Sys, k: nat) returns (i: nat)
    requires HoldsOwned(y) && k < |y.control.holds|
    ensures i < |y.actors| && Reserve in y.actors[i].sent && OwnsHold(y.actors[i].cfg, y.control.holds[k])
  {
    var h := y.control.holds[k];
    assert HoldOwned(y, h);
    i :| i < |y.actors| && Reserve in y.actors[i].sent && OwnsHold(y.actors[i].cfg, h);
  }

  lemma AuthorityHolds(y: Sys, e: C.Event)
    requires HoldsOwned(y) && Asked(y, Authority(e))
    ensures HoldsOwned(y.(control := C.Apply(y.control, e)))
  {
    var z := y.(control := C.Apply(y.control, e));
    ApplyGrows(y, Authority(e));
    OwnedStays(y, z);
    C.HoldsStep(y.control, e);
    C.TxnStep(y.control, e);
    forall k: nat | k < |z.control.holds| ensures HoldOwned(z, z.control.holds[k]) {
      if k < |y.control.holds| {
        var i := HoldOwner(y, k);
        assert Reserve in z.actors[i].sent && OwnsHold(z.actors[i].cfg, z.control.holds[k]);
      } else {
        var req := y.control.open[e.t].req;
        assert RequestOwned(y, req);
        var i: nat :| i < |y.actors| && Reserves(y.actors[i], req);
        assert Reserve in z.actors[i].sent && OwnsHold(z.actors[i].cfg, z.control.holds[k]);
      }
    }
    forall t | t in z.control.open && z.control.open[t].Reserving? ensures RequestOwned(z, z.control.open[t].req) {
      if !(t in y.control.open && z.control.open[t] == y.control.open[t]) {
        var i: nat :| i < |y.actors| && Reserves(y.actors[i], e.req);
        assert Reserves(z.actors[i], e.req);
      }
    }
  }

  lemma AuthorityCareful(y: Sys, e: C.Event)
    requires ActorsCareful(y)
    ensures ActorsCareful(y.(control := C.Apply(y.control, e)))
  {
    var z := y.(control := C.Apply(y.control, e));
    C.HoldsStep(y.control, e);
    forall j: nat | j < |z.actors|
      ensures Careful(z.actors[j].cfg, z.actors[j].agent, z.actors[j].sent, Own(z, z.actors[j].cfg))
    {
      var a := y.actors[j];
      assert Careful(a.cfg, a.agent, a.sent, Own(y, a.cfg));
      MoreHolds(a.cfg, a.agent, a.sent, Own(y, a.cfg), Own(z, a.cfg));
    }
  }

  lemma AuthorityKeeps(y: Sys, e: C.Event)
    requires Traced(y) && Asked(y, Authority(e))
    ensures Traced(Apply(y, Authority(e)))
  {
    var z := Apply(y, Authority(e));
    AuthorityHolds(y, e);
    AuthorityCareful(y, e);
    RowsStay(y, z, P.Billing);
    RowsStay(y, z, P.Ledger);
  }

  lemma StoreRows(y: Sys, s: P.Service, e: S.Event)
    requires RowsOwned(y, s) && Asked(y, Store(s, e))
    ensures RowsOwned(WithSource(y, s, S.Apply(Source(y, s), e)), s)
  {
    var z := WithSource(y, s, S.Apply(Source(y, s), e));
    OwnedStays(y, z);
    S.RowsStep(Source(y, s), e);
    var o, n := Source(y, s), Source(z, s);
    forall r: nat | r < |n.rows| ensures RowOwned(z, s, n.rows[r].key, n.rows[r].caseId, n.rows[r].amount) {
      if r < |o.rows| {
        assert RowOwned(y, s, o.rows[r].key, o.rows[r].caseId, o.rows[r].amount);
      } else {
        var t :| t in o.open && o.open[t].Creating? && n.rows[r].key == o.open[t].key
                 && n.rows[r].caseId == o.open[t].caseId && n.rows[r].amount == o.open[t].amount;
        assert RowOwned(y, s, o.open[t].key, o.open[t].caseId, o.open[t].amount);
      }
    }
    forall t | t in n.open && n.open[t].Creating?
      ensures RowOwned(z, s, n.open[t].key, n.open[t].caseId, n.open[t].amount)
    {
      if t in o.open && n.open[t] == o.open[t] {
        assert RowOwned(y, s, o.open[t].key, o.open[t].caseId, o.open[t].amount);
      }
    }
  }

  lemma StoreKeeps(y: Sys, s: P.Service, e: S.Event)
    requires Traced(y) && Asked(y, Store(s, e))
    ensures Traced(Apply(y, Store(s, e)))
  {
    var z := Apply(y, Store(s, e));
    StoreRows(y, s, e);
    HoldsStay(y, z);
    RowsStay(y, z, if s.Billing? then P.Ledger else P.Billing);
    assert forall cfg :: Own(z, cfg) == Own(y, cfg);
  }

  lemma ApplyKeeps(y: Sys, e: Event)
    requires Traced(y)
    ensures Traced(Apply(y, e))
  {
    if Asked(y, e) {
      match e
      case Act(i, x) => if CanAct(y, i, x) { ActKeeps(y, i, x); }
      case Authority(r) => AuthorityKeeps(y, r);
      case Store(s, r) => StoreKeeps(y, s, r);
    }
  }

  lemma StoresKeep(y: Sys, e: Event)
    requires StoresTrue(y)
    ensures StoresTrue(Apply(y, e))
  {
    if e.Store? {
      S.ApplyKeeps(Source(y, e.s), e.r);
    }
  }

  ghost predicate OneRunPerKey(cfgs: seq<Config>) {
    forall i: nat, j: nat :: i < j < |cfgs| ==> cfgs[i].key != cfgs[j].key
  }

  /** A key may be run again, but only for the same case, amount and service. */
  ghost predicate OneOperationPerKey(cfgs: seq<Config>) {
    forall i: nat, j: nat :: i < |cfgs| && j < |cfgs| && cfgs[i].key == cfgs[j].key ==> SameOperation(cfgs[i], cfgs[j])
  }

  /** A model's key is used by no other run. */
  ghost predicate ModelsAlone(cfgs: seq<Config>) {
    forall i: nat, j: nat :: i < |cfgs| && j < |cfgs| && i != j && cfgs[i].model ==> cfgs[i].key != cfgs[j].key
  }

  lemma RowsOwnedStep(y: Sys, e: Event)
    requires RowsOwned(y, P.Billing) && RowsOwned(y, P.Ledger)
    ensures RowsOwned(Apply(y, e), P.Billing) && RowsOwned(Apply(y, e), P.Ledger)
  {
    var z := Apply(y, e);
    ApplyGrows(y, e);
    if e.Store? && Asked(y, e) {
      StoreRows(y, e.s, e.r);
      RowsStay(y, z, if e.s.Billing? then P.Ledger else P.Billing);
    } else {
      RowsStay(y, z, P.Billing);
      RowsStay(y, z, P.Ledger);
    }
  }

  /** With or without the authority, every effect is one that some agent asked for. */
  lemma {:induction false} RunOwned(cfgs: seq<Config>, clock: int, es: seq<Event>)
    ensures var y := Exec(Init(cfgs, clock), es);
            && RowsOwned(y, P.Billing) && RowsOwned(y, P.Ledger) && StoresTrue(y) && |y.actors| == |cfgs|
            && forall i: nat :: i < |cfgs| ==> y.actors[i].cfg == cfgs[i]
  {
    if |es| > 0 {
      var m := Exec(Init(cfgs, clock), es[..|es| - 1]);
      RunOwned(cfgs, clock, es[..|es| - 1]);
      RowsOwnedStep(m, es[|es| - 1]);
      StoresKeep(m, es[|es| - 1]);
      ApplyGrows(m, es[|es| - 1]);
    }
  }

  ghost predicate Proper(cfgs: seq<Config>) {
    OneOperationPerKey(cfgs) && forall i: nat :: i < |cfgs| ==> cfgs[i].authority
  }

  lemma {:induction false} RunTraced(cfgs: seq<Config>, clock: int, es: seq<Event>)
    requires Proper(cfgs)
    ensures var y := Exec(Init(cfgs, clock), es);
            && Traced(y) && StoresTrue(y) && |y.actors| == |cfgs|
            && forall i: nat :: i < |cfgs| ==> y.actors[i].cfg == cfgs[i]
  {
    if |es| == 0 {
      var y := Init(cfgs, clock);
      forall i: nat | i < |y.actors|
        ensures Careful(y.actors[i].cfg, y.actors[i].agent, y.actors[i].sent, Own(y, y.actors[i].cfg))
      {
        StartCareful(cfgs[i]);
        assert Own(y, cfgs[i]) == {};
      }
    } else {
      RunTraced(cfgs, clock, es[..|es| - 1]);
      var m := Exec(Init(cfgs, clock), es[..|es| - 1]);
      ApplyKeeps(m, es[|es| - 1]);
      StoresKeep(m, es[|es| - 1]);
      ApplyGrows(m, es[|es| - 1]);
    }
  }

  lemma ExecOne(y: Sys, es: seq<Event>, e: Event)
    ensures Exec(y, es + [e]) == Apply(Exec(y, es), e)
  {
  }

  lemma {:induction false} ExecMore(y: Sys, es: seq<Event>, more: seq<Event>)
    ensures Exec(y, es + more) == Exec(Exec(y, es), more)
  {
    if |more| == 0 {
      assert es + more == es;
    } else {
      ExecMore(y, es, more[..|more| - 1]);
      ExecOne(y, es + more[..|more| - 1], more[|more| - 1]);
      assert es + more == (es + more[..|more| - 1]) + [more[|more| - 1]];
    }
  }
}
