/** What each kind of agent can and cannot have sent, whatever it was answered. */
module AgentFacts {
  import opened Base
  import opened Agents

  /** Every hold an agent remembers or names satisfies `own`, and it creates only under a hold. */
  ghost predicate Careful(cfg: Config, a: Agent, sent: set<Call>, own: set<nat>) {
    && (Pending(a).Some? ==> Pending(a).value in sent)
    && (forall id :: Release(id) in sent || Commit(id) in sent ==> id in own)
    && (Create in sent ==> own != {})
    && match a
       case Diligent(Creating(hold, _)) => hold.Some? && hold.value in own
       case Diligent(Releasing(id)) => id in own
       case Diligent(Committing(id)) => id in own
       case Diligent(_) => true
       case Model(l) => l.hold.Some? ==> l.hold.value in own
  }

  function Sending(a: Agent): set<Call> {
    match Pending(a) case Some(c) => {c} case None => {}
  }

  lemma {:induction false} DispatchCareful(cfg: Config, l: Loop, sent: set<Call>, own: set<nat>)
    requires cfg.authority && Careful(cfg, Model(l), sent, own)
    ensures var a := Model(Dispatch(cfg, l)); Careful(cfg, a, sent + Sending(a), own)
    decreases |l.batch|
  {
    if !l.stopped && l.pending.None? && l.batch != [] {
      match l.batch[0]
      case Issue => if l.hold.None? { DispatchCareful(cfg, NextTool(l), sent, own); }
      case Decline => if l.hold.None? { DispatchCareful(cfg, NextTool(l).(finished := true), sent, own); }
      case _ =>
    }
  }

  lemma ResumeCareful(cfg: Config, l: Loop, x: Answer, sent: set<Call>, own: set<nat>)
    requires cfg.authority && l.pending.Some? && Careful(cfg, Model(l), sent, own)
    requires x.Granted? ==> x.id in own
    ensures var a := Model(Resume(cfg, l, x)); Careful(cfg, a, sent + Sending(a), own)
  {
    if l.batch != [] {
      match l.pending.value
      case Observe => if x.Total? { DispatchCareful(cfg, NextTool(l), sent, own); }
      case Reserve =>
        if x.Granted? {
          DispatchCareful(cfg, NextTool(l).(hold := if l.refused then l.hold else Some(x.id)), sent, own);
        } else if x.Refused? {
          DispatchCareful(cfg, NextTool(l).(refused := true), sent, own);
        }
      case Create => if x.Ok? && l.hold.None? { DispatchCareful(cfg, NextTool(l).(finished := true), sent, own); }
      case _ => if x.Ok? { DispatchCareful(cfg, NextTool(l).(finished := true), sent, own); }
    }
  }

  lemma StartCareful(cfg: Config)
    requires cfg.authority
    ensures Careful(cfg, Start(cfg), Sending(Start(cfg)), {})
  {
  }

  /** An agent given only its own holds stays careful: it reserves before it creates, and releases
      and commits nothing it was not granted. */
  lemma FeedCareful(cfg: Config, a: Agent, x: Input, sent: set<Call>, own: set<nat>)
    requires cfg.authority && Careful(cfg, a, sent, own) && Accepts(a, x)
    requires x.Answered? && x.answer.Granted? ==> x.answer.id in own
    ensures var b := Feed(cfg, a, x); Careful(cfg, b, sent + Sending(b), own)
  {
    match a
    case Diligent(p) =>
    case Model(l) =>
      match x {
        case Answered(answer) => ResumeCareful(cfg, l, answer, sent, own);
        case Reply(tools) =>
          if tools != [] { DispatchCareful(cfg, l.(turn := l.turn + 1, batch := tools), sent, own); }
        case ModelUnavailable =>
      }
  }

  lemma MoreHolds(cfg: Config, a: Agent, sent: set<Call>, own: set<nat>, more: set<nat>)
    requires Careful(cfg, a, sent, own) && own <= more
    ensures Careful(cfg, a, sent, more)
  {
  }

  // --------------------------------------------------------------------------- when an agent acts

  /** Whatever it observed, a diligent agent goes on exactly when that and its amount are within the
      ceiling, inclusive: to the authority if there is one, and to its effect if not. */
  lemma GoesOnIffItFits(cfg: Config, observed: int)
    requires !cfg.model && cfg.knownAction
    ensures Travel(cfg, [Answered(Total(observed))]).sent
         == if observed + cfg.amount > cfg.authorized then [Observe]
            else if cfg.authority then [Observe, Reserve] else [Observe, Create]
  {
    TravelOne(cfg, [], Answered(Total(observed)));
    assert [] + [Answered(Total(observed))] == [Answered(Total(observed))];
  }

  /** `n` replies that each only look. */
  function Looking(n: nat, o: int): seq<Input> {
    if n == 0 then [] else Looking(n - 1, o) + [Reply([ReadCompensation])] + [Answered(Total(o))]
  }

  function AfterLooks(n: nat): Agent { Model(Loop(n, [], false, None, false, None, n >= 6)) }

  lemma LooksOnce(cfg: Config, n: nat, o: int, sent: seq<Call>)
    requires n < 6
    ensures var asked := Advance(cfg, Journey(AfterLooks(n), sent), Reply([ReadCompensation]));
            Advance(cfg, asked, Answered(Total(o))) == Journey(AfterLooks(n + 1), sent + [Observe])
  {
    var l := Loop(n + 1, [ReadCompensation], false, None, false, Some(Observe), false);
    assert Advance(cfg, Journey(AfterLooks(n), sent), Reply([ReadCompensation])) == Journey(Model(l), sent + [Observe]);
    assert NextTool(l) == Loop(n + 1, [], false, None, false, None, false);
    assert sent + [Observe] + [] == sent + [Observe];
  }

  /** A model that never finishes is asked again until its sixth reply, and no more. */
  lemma {:induction false} UndecidedModelIsAskedSixTimes(cfg: Config, n: nat, o: int)
    requires cfg.model && cfg.knownAction && n <= 6
    ensures Travel(cfg, Looking(n, o)).agent == Model(Loop(n, [], false, None, false, None, n == 6))
    ensures |Travel(cfg, Looking(n, o)).sent| == n
  {
    if n > 0 {
      var front := Looking(n - 1, o);
      UndecidedModelIsAskedSixTimes(cfg, n - 1, o);
      TravelOne(cfg, front, Reply([ReadCompensation]));
      TravelOne(cfg, front + [Reply([ReadCompensation])], Answered(Total(o)));
      LooksOnce(cfg, n - 1, o, Travel(cfg, front).sent);
    }
  }

  // ------------------------------------------------------- release and commit exclude each other

  predicate Releases(sent: set<Call>) { exists c :: c in sent && c.Release? }
  predicate Commits(sent: set<Call>) { exists c :: c in sent && c.Commit? }

  /** No reply both issues and declines. One tool call per reply is the simplest such model. */
  predicate Decisive(tools: seq<Tool>) { !(Issue in tools && Decline in tools) }

  predicate DecisiveInput(x: Input) { x.Reply? ==> Decisive(x.tools) }

  ghost predicate NeverBoth(sent: set<Call>) {
    (Commits(sent) ==> Create in sent) && !(Releases(sent) && Create in sent)
  }

  /** The LLM loop while it runs a batch: whoever has created or released is finished, and the
      rest of the batch cannot do the other. */
  ghost predicate Decided(l: Loop, sent: set<Call>) {
    && NeverBoth(sent) && Decisive(l.batch)
    && (Create in sent ==> Decline !in l.batch && l.finished)
    && (Releases(sent) ==> Issue !in l.batch && l.finished)
  }

  ghost predicate Settled(a: Agent, sent: set<Call>) {
    match a
    case Diligent(p) =>
      && !(Releases(sent) && Commits(sent))
      && (Releases(sent) ==> p.Releasing? || p.Stopped?)
      && (Commits(sent) ==> p.Committing? || p.Stopped?)
    case Model(l) =>
      && NeverBoth(sent)
      && (l.stopped ==> l.pending.None?)
      && (!l.stopped && l.pending.None? ==> l.batch == [] && Create !in sent && !Releases(sent))
      && (l.pending.Some? ==> l.batch != [] && Decisive(l.batch) && PendingDecided(l, sent))
  }

  ghost predicate PendingDecided(l: Loop, sent: set<Call>)
    requires l.pending.Some?
  {
    match l.pending.value
    case Create => !Releases(sent) && Decline !in l.batch
    case Commit(_) => !Releases(sent) && Decline !in l.batch
    case Release(_) => Create !in sent && Issue !in l.batch
    case _ => Decided(l, sent)
  }

  lemma TailTools(l: Loop)
    requires l.batch != []
    ensures forall t :: t in NextTool(l).batch ==> t in l.batch
    ensures l.batch[0] in l.batch
  {
  }

  lemma SentMore(sent: set<Call>, c: Call)
    ensures Releases(sent + {c}) <==> Releases(sent) || c.Release?
    ensures Commits(sent + {c}) <==> Commits(sent) || c.Commit?
  {
  }

  lemma {:induction false} DispatchSettles(cfg: Config, l: Loop, sent: set<Call>)
    requires !l.stopped && l.pending.None? && Decided(l, sent)
    ensures var a := Model(Dispatch(cfg, l)); Settled(a, sent + Sending(a))
    decreases |l.batch|
  {
    var a := Model(Dispatch(cfg, l));
    if Pending(a).Some? { SentMore(sent, Pending(a).value); }
    assert sent + {} == sent;
    if l.batch != [] {
      TailTools(l);
      if l.batch[0] == Issue && cfg.authority && l.hold.None? {
        DispatchSettles(cfg, NextTool(l), sent);
      } else if l.batch[0] == Decline && l.hold.None? {
        DispatchSettles(cfg, NextTool(l).(finished := true), sent);
      }
    }
  }

  lemma ResumeSettles(cfg: Config, l: Loop, x: Answer, sent: set<Call>)
    requires l.pending.Some? && l.pending.value in sent && Settled(Model(l), sent)
    ensures var a := Model(Resume(cfg, l, x)); Settled(a, sent + Sending(a))
  {
    var a := Model(Resume(cfg, l, x));
    assert sent + {} == sent;
    TailTools(l);
    match l.pending.value
    case Observe => if x.Total? { DispatchSettles(cfg, NextTool(l), sent); }
    case Reserve =>
      if x.Granted? {
        DispatchSettles(cfg, NextTool(l).(hold := if l.refused then l.hold else Some(x.id)), sent);
      } else if x.Refused? {
        DispatchSettles(cfg, NextTool(l).(refused := true), sent);
      }
    case Create =>
      if x.Ok? && l.hold.Some? {
        SentMore(sent, Commit(l.hold.value));
      } else if x.Ok? {
        DispatchSettles(cfg, NextTool(l).(finished := true), sent);
      }
    case Release(_) =>
      assert Releases(sent);
      if x.Ok? { DispatchSettles(cfg, NextTool(l).(finished := true), sent); }
    case Commit(_) =>
      assert Commits(sent);
      if x.Ok? { DispatchSettles(cfg, NextTool(l).(finished := true), sent); }
  }

  lemma StartSettled(cfg: Config)
    ensures Settled(Start(cfg), Sending(Start(cfg)))
  {
  }

  /** A diligent agent never both releases and commits; a model whose replies each either issue or
      decline never both releases a hold and creates under it. */
  lemma FeedSettles(cfg: Config, a: Agent, x: Input, sent: set<Call>)
    requires Settled(a, sent) && Accepts(a, x) && DecisiveInput(x)
    requires Pending(a).Some? ==> Pending(a).value in sent
    ensures var b := Feed(cfg, a, x); Settled(b, sent + Sending(b))
  {
    var b := Feed(cfg, a, x);
    if Pending(b).Some? { SentMore(sent, Pending(b).value); }
    assert sent + {} == sent;
    if a.Model? {
      var l := a.loop;
      match x {
        case Answered(answer) => ResumeSettles(cfg, l, answer, sent);
        case Reply(tools) =>
          if tools != [] { DispatchSettles(cfg, l.(turn := l.turn + 1, batch := tools, finished := l.finished), sent); }
        case ModelUnavailable =>
      }
    }
  }

  /** The condition is needed: one reply that declines and then issues makes the agent create its
      effect under a hold it has just released. */
  lemma IndecisiveReplyCreatesAfterRelease(cfg: Config, id: nat)
    requires cfg.model && cfg.authority && cfg.knownAction
    ensures Travel(cfg, [Reply([ReserveBudget]), Answered(Granted(id)), Reply([Decline, Issue]), Answered(Ok)]).sent
         == [Reserve, Release(id), Create]
  {
    var a, b, c, d := Reply([ReserveBudget]), Answered(Granted(id)), Reply([Decline, Issue]), Answered(Ok);
    TravelOne(cfg, [], a);
    TravelOne(cfg, [a], b);
    TravelOne(cfg, [a, b], c);
    TravelOne(cfg, [a, b, c], d);
    assert [] + [a] == [a] && [a] + [b] == [a, b] && [a, b] + [c] == [a, b, c] && [a, b, c] + [d] == [a, b, c, d];
    assert [ReserveBudget][1..] == [] && [Decline, Issue][1..] == [Issue];
  }

  // ----------------------------------------------------- exactly which batches create too late

  ghost predicate Freeing(sent: seq<Call>) { exists p :: 0 <= p < |sent| && sent[p].Release? }

  ghost predicate CreatesAfterRelease(sent: seq<Call>) {
    exists p, q :: 0 <= p < q < |sent| && sent[p].Release? && sent[q].Create?
  }

  ghost predicate Declining(tools: seq<Tool>) { exists i :: 0 <= i < |tools| && tools[i] == Decline }

  ghost predicate IssuesAfterDecline(tools: seq<Tool>) {
    exists i, j :: 0 <= i < j < |tools| && tools[i] == Decline && tools[j] == Issue
  }

  lemma OneMoreCall(sent: seq<Call>, c: Call)
    ensures Freeing(sent + [c]) <==> Freeing(sent) || c.Release?
    ensures CreatesAfterRelease(sent + [c]) <==> CreatesAfterRelease(sent) || (c.Create? && Freeing(sent))
  {
    var more, n := sent + [c], |sent|;
    assert forall p :: 0 <= p < n ==> more[p] == sent[p];
    if Freeing(sent) {
      var p :| 0 <= p < n && sent[p].Release?;
      assert more[p].Release? && more[n] == c;
    }
    if c.Release? { assert more[n].Release?; }
    if CreatesAfterRelease(sent) {
      var p, q :| 0 <= p < q < n && sent[p].Release? && sent[q].Create?;
      assert more[p].Release? && more[q].Create?;
    }
  }

  lemma OneMoreTool(tools: seq<Tool>, t: Tool)
    ensures Declining(tools + [t]) <==> Declining(tools) || t == Decline
    ensures IssuesAfterDecline(tools + [t]) <==> IssuesAfterDecline(tools) || (t == Issue && Declining(tools))
  {
    var more, n := tools + [t], |tools|;
    assert forall i :: 0 <= i < n ==> more[i] == tools[i];
    if Declining(tools) {
      var i :| 0 <= i < n && tools[i] == Decline;
      assert more[i] == Decline && more[n] == t;
    }
    if t == Decline { assert more[n] == Decline; }
    if IssuesAfterDecline(tools) {
      var i, j :| 0 <= i < j < n && tools[i] == Decline && tools[j] == Issue;
      assert more[i] == Decline && more[j] == Issue;
    }
  }

  /** One reply: its tool calls, and the calls they made on these answers. */
  function Batch(cfg: Config, l: Loop, xs: seq<Answer>): Journey {
    if |xs| == 0 then Journey(Model(Dispatch(cfg, l)), Note(Model(Dispatch(cfg, l))))
    else Advance(cfg, Batch(cfg, l, xs[..|xs| - 1]), Answered(xs[|xs| - 1]))
  }

  /** The tool calls of `tools` that were reached, the one under way included. */
  function Reached(tools: seq<Tool>, left: seq<Tool>): seq<Tool>
    requires |left| <= |tools|
  {
    tools[..|tools| - |left| + if left == [] then 0 else 1]
  }

  ghost predicate Tracks(tools: seq<Tool>, left: seq<Tool>, sent: seq<Call>) {
    && |left| <= |tools| && left == tools[|tools| - |left|..]
    && (Freeing(sent) <==> Declining(Reached(tools, left)))
    && (CreatesAfterRelease(sent) <==> IssuesAfterDecline(Reached(tools, left)))
  }

  ghost predicate InBatch(tools: seq<Tool>, j: Journey) {
    && j.agent.Model? && j.agent.loop.hold.Some? && Tracks(tools, j.agent.loop.batch, j.sent)
    && (j.agent.loop.pending.Some? ==> j.agent.loop.batch != [] && !j.agent.loop.stopped)
  }

  /** With a remembered hold every tool call either makes its one call or raises at once. */
  lemma DispatchUnderHold(cfg: Config, l: Loop)
    requires l.hold.Some? && !l.stopped && l.pending.None?
    ensures var r := Dispatch(cfg, l);
            && r.hold == l.hold && r.batch == l.batch && (l.batch == [] ==> r.pending.None?)
            && (r.pending.Some? ==> !r.stopped)
            && (l.batch != [] && l.batch[0] == Issue ==> r.pending == Some(Create))
            && (l.batch != [] && l.batch[0] == Decline ==> r.pending == Some(Release(l.hold.value)))
            && (l.batch != [] && l.batch[0] != Issue && l.batch[0] != Decline && r.pending.Some? ==>
                  r.pending.value in {Observe, Reserve})
  {
  }

  /** Going on to the tool call after the one under way, or to the first. */
  lemma TracksNext(tools: seq<Tool>, left: seq<Tool>, before: seq<Call>, after: seq<Call>)
    requires |left| <= |tools| && left == tools[|tools| - |left|..]
    requires Freeing(before) <==> Declining(tools[..|tools| - |left|])
    requires CreatesAfterRelease(before) <==> IssuesAfterDecline(tools[..|tools| - |left|])
    requires left == [] ==> after == before
    requires left != [] && left[0] == Issue ==> after == before + [Create]
    requires left != [] && left[0] == Decline ==> exists id :: after == before + [Release(id)]
    requires left != [] && left[0] != Issue && left[0] != Decline ==>
               after == before || exists c :: c in {Observe, Reserve} && after == before + [c]
    ensures Tracks(tools, left, after)
  {
    var n := |tools| - |left|;
    if left != [] {
      assert tools[..n + 1] == tools[..n] + [left[0]];
      OneMoreTool(tools[..n], left[0]);
      if |after| > |before| { OneMoreCall(before, after[|before|]); }
    }
  }

  lemma BatchBegins(cfg: Config, l: Loop)
    requires l.hold.Some? && !l.stopped && l.pending.None?
    ensures InBatch(l.batch, Batch(cfg, l, []))
  {
    DispatchUnderHold(cfg, l);
    TracksNext(l.batch, l.batch, [], Batch(cfg, l, []).sent);
  }

  lemma BatchGoesOn(cfg: Config, tools: seq<Tool>, l: Loop, sent: seq<Call>, next: Loop)
    requires Tracks(tools, l.batch, sent) && l.batch != [] && l.hold.Some?
    requires next.hold.Some? && !next.stopped && next.pending.None? && next.batch == l.batch[1..]
    ensures InBatch(tools, Journey(Model(Dispatch(cfg, next)), sent + Note(Model(Dispatch(cfg, next)))))
  {
    DispatchUnderHold(cfg, next);
    assert Reached(tools, l.batch) == tools[..|tools| - |next.batch|];
    TracksNext(tools, next.batch, sent, sent + Note(Model(Dispatch(cfg, next))));
  }

  lemma BatchStep(cfg: Config, tools: seq<Tool>, j: Journey, x: Answer)
    requires InBatch(tools, j)
    ensures InBatch(tools, Advance(cfg, j, Answered(x)))
  {
    if Accepts(j.agent, Answered(x)) {
      var l := j.agent.loop;
      assert j.sent + [] == j.sent;
      match l.pending.value
      case Observe => if x.Total? { BatchGoesOn(cfg, tools, l, j.sent, NextTool(l)); }
      case Reserve =>
        if x.Granted? {
          BatchGoesOn(cfg, tools, l, j.sent, NextTool(l).(hold := if l.refused then l.hold else Some(x.id)));
        } else if x.Refused? {
          BatchGoesOn(cfg, tools, l, j.sent, NextTool(l).(refused := true));
        }
      case Create => if x.Ok? { OneMoreCall(j.sent, Commit(l.hold.value)); }
      case _ => if x.Ok? { BatchGoesOn(cfg, tools, l, j.sent, NextTool(l).(finished := true)); }
    }
  }

  lemma {:induction false} BatchTracks(cfg: Config, l: Loop, xs: seq<Answer>)
    requires l.hold.Some? && !l.stopped && l.pending.None?
    ensures InBatch(l.batch, Batch(cfg, l, xs))
  {
    if |xs| == 0 {
      BatchBegins(cfg, l);
    } else {
      BatchTracks(cfg, l, xs[..|xs| - 1]);
      BatchStep(cfg, l.batch, Batch(cfg, l, xs[..|xs| - 1]), xs[|xs| - 1]);
    }
  }

  /** Exactly when a reply makes a model create under a hold it has just released: one that is run
      while it remembers a hold, in which an issue is reached after a decline was. */
  lemma CreatesAfterReleaseIffIssueAfterDecline(cfg: Config, l: Loop, xs: seq<Answer>)
    requires l.hold.Some? && !l.stopped && l.pending.None?
    ensures var j := Batch(cfg, l, xs);
            && j.agent.Model? && |j.agent.loop.batch| <= |l.batch|
            && (CreatesAfterRelease(j.sent) <==> IssuesAfterDecline(Reached(l.batch, j.agent.loop.batch)))
  {
    BatchTracks(cfg, l, xs);
  }

  ghost predicate ShutOut(a: Agent) {
    a.Model? && a.loop.refused && a.loop.hold.None?
    && (a.loop.pending.Some? ==> a.loop.pending.value.Observe? || a.loop.pending.value.Reserve?)
  }

  lemma {:induction false} DispatchShutOut(cfg: Config, l: Loop)
    requires cfg.authority && l.refused && l.hold.None?
    requires l.pending.Some? ==> l.pending.value.Observe? || l.pending.value.Reserve?
    ensures ShutOut(Model(Dispatch(cfg, l)))
    decreases |l.batch|
  {
    if !l.stopped && l.pending.None? && l.batch != [] {
      if l.batch[0] == Issue {
        DispatchShutOut(cfg, NextTool(l));
      } else if l.batch[0] == Decline {
        DispatchShutOut(cfg, NextTool(l).(finished := true));
      }
    }
  }

  /** It gets there by asking once and being refused. */
  lemma RefusalShutsOut(cfg: Config)
    requires cfg.model && cfg.authority && cfg.knownAction
    ensures var j := Travel(cfg, [Reply([ReserveBudget]), Answered(Refused)]);
            ShutOut(j.agent) && !j.agent.loop.stopped && j.sent == [Reserve]
  {
    var a, b := Reply([ReserveBudget]), Answered(Refused);
    TravelOne(cfg, [], a);
    TravelOne(cfg, [a], b);
    assert [] + [a] == [a] && [a] + [b] == [a, b];
    assert [ReserveBudget][1..] == [];
  }

  /** Once refused without a hold, a model never acts, whatever it says and is answered; a hold it
      is granted later is forgotten, neither spent nor released. */
  lemma {:induction false} RefusedNeverActs(cfg: Config, xs: seq<Input>, more: seq<Input>)
    requires cfg.authority && ShutOut(Travel(cfg, xs).agent)
    ensures var j := Travel(cfg, xs + more);
            && ShutOut(j.agent) && Travel(cfg, xs).sent <= j.sent
            && forall k :: |Travel(cfg, xs).sent| <= k < |j.sent| ==> j.sent[k] in {Observe, Reserve}
  {
    if |more| == 0 {
      assert xs + more == xs;
    } else {
      var front, x := more[..|more| - 1], more[|more| - 1];
      RefusedNeverActs(cfg, xs, front);
      assert xs + more == (xs + front) + [x];
      TravelOne(cfg, xs + front, x);
      ShutOutStep(cfg, Travel(cfg, xs + front).agent, x);
    }
  }

  lemma ShutOutStep(cfg: Config, a: Agent, x: Input)
    requires cfg.authority && ShutOut(a)
    ensures Accepts(a, x) ==> ShutOut(Feed(cfg, a, x))
  {
    if Accepts(a, x) {
      var l := a.loop;
      match x {
        case Answered(y) =>
          if l.batch != [] {
            DispatchShutOut(cfg, NextTool(l));
            DispatchShutOut(cfg, NextTool(l).(refused := true));
          }
        case Reply(tools) =>
          if tools != [] { DispatchShutOut(cfg, l.(turn := l.turn + 1, batch := tools)); }
        case ModelUnavailable =>
      }
    }
  }
}
