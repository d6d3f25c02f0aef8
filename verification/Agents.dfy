/** agents/diligent/policy.py and agents/llm/policy.py as automata: which call an agent makes next,
    given every answer it has had so far. The two `run_case` programs are proved to follow them. */
module Agents {
  import opened Base
  import P = Projection

  /** `model`: the LLM arm. `authority`: reserve, release and commit are injected. */
  datatype Config = Config(
    caseId: string, key: string, amount: int, authorized: int, service: P.Service,
    model: bool, authority: bool, ttl: Option<int>,
    knownAction: bool, retryOnFailure: bool, abandonAfterReserve: bool)

  datatype Call = Observe | Reserve | Create | Release(id: nat) | Commit(id: nat)
  datatype Answer = Total(observed: int) | Granted(id: nat) | Refused | Ok | Raised
  datatype Tool = ReadCompensation | ReserveBudget | Issue | Decline | UnknownTool
  datatype Input = Answered(answer: Answer) | Reply(tools: seq<Tool>) | ModelUnavailable

  datatype Phase =
    | Observing
    | Reserving
    | Creating(hold: Option<nat>, attempt: nat)
    | Releasing(id: nat)
    | Committing(id: nat)
    | Stopped(acted: bool)

  /** The LLM arm between two inputs: the calls of the current reply still to run, the hold it
      remembers, and whether the control ever refused it. */
  datatype Loop = Loop(turn: nat, batch: seq<Tool>, finished: bool, hold: Option<nat>, refused: bool,
                       pending: Option<Call>, stopped: bool)

  datatype Agent = Diligent(phase: Phase) | Model(loop: Loop)

  const MAX_STEPS := 6

  function Pending(a: Agent): Option<Call> {
    match a
    case Diligent(Observing) => Some(Observe)
    case Diligent(Reserving) => Some(Reserve)
    case Diligent(Creating(_, _)) => Some(Create)
    case Diligent(Releasing(id)) => Some(Release(id))
    case Diligent(Committing(id)) => Some(Commit(id))
    case Diligent(Stopped(_)) => None
    case Model(l) => l.pending
  }

  predicate Thinking(l: Loop) { !l.stopped && l.pending.None? && l.batch == [] }

  predicate Accepts(a: Agent, x: Input) {
    match x
    case Answered(_) => Pending(a).Some?
    case _ => a.Model? && Thinking(a.loop)
  }

  function Start(cfg: Config): Agent {
    if cfg.model then Model(Loop(0, [], false, None, false, None, !cfg.knownAction))
    else Diligent(if cfg.knownAction then Observing else Stopped(false))
  }

  /** The answer to the call a diligent agent is waiting on. */
  function Proceed(cfg: Config, p: Phase, x: Answer): Phase {
    match p
    case Observing =>
      if !x.Total? || x.observed + cfg.amount > cfg.authorized then Stopped(false)
      else if cfg.authority then Reserving
      else Creating(None, 1)
    case Reserving =>
      if !x.Granted? || cfg.abandonAfterReserve then Stopped(false) else Creating(Some(x.id), 1)
    case Creating(hold, attempt) =>
      if x.Ok? then (if hold.Some? then Committing(hold.value) else Stopped(true))
      else if cfg.retryOnFailure && attempt == 1 then Creating(hold, 2)
      else if hold.Some? then Releasing(hold.value)
      else Stopped(false)
    case Releasing(_) => Stopped(false)
    case Committing(_) => Stopped(true)
    case Stopped(_) => p
  }

  function NextTool(l: Loop): Loop
    requires l.batch != []
  {
    l.(batch := l.batch[1..], pending := None)
  }

  /** Run the rest of the batch up to the first call that leaves the agent. */
  function Dispatch(cfg: Config, l: Loop): Loop
    decreases |l.batch|
  {
    if l.stopped || l.pending.Some? then l
    else if l.batch == [] then
      if l.finished || l.turn >= MAX_STEPS then l.(stopped := true) else l
    else match l.batch[0]
      case ReadCompensation => l.(pending := Some(Observe))
      case ReserveBudget => if cfg.authority then l.(pending := Some(Reserve)) else l.(stopped := true)
      case Issue =>
        if cfg.authority && l.hold.None? then Dispatch(cfg, NextTool(l)) else l.(pending := Some(Create))
      case Decline =>
        if l.hold.Some? then l.(pending := Some(Release(l.hold.value)))
        else Dispatch(cfg, NextTool(l).(finished := true))
      case UnknownTool => l.(stopped := true)
  }

  function Resume(cfg: Config, l: Loop, x: Answer): Loop
    requires l.pending.Some?
  {
    if l.batch == [] then l.(pending := None, stopped := true)
    else match l.pending.value
      case Observe =>
        if x.Total? then Dispatch(cfg, NextTool(l)) else l.(pending := None, stopped := true)
      case Reserve =>
        if x.Granted? then Dispatch(cfg, NextTool(l).(hold := if l.refused then l.hold else Some(x.id)))
        else if x.Refused? then Dispatch(cfg, NextTool(l).(refused := true))
        else l.(pending := None, stopped := true)
      case Create =>
        if !x.Ok? then l.(pending := None, stopped := true)
        else if l.hold.Some? then l.(pending := Some(Commit(l.hold.value)))
        else Dispatch(cfg, NextTool(l).(finished := true))
      case _ =>
        if x.Ok? then Dispatch(cfg, NextTool(l).(finished := true)) else l.(pending := None, stopped := true)
  }

  function Feed(cfg: Config, a: Agent, x: Input): Agent
    requires Accepts(a, x)
  {
    match a
    case Diligent(p) => Diligent(Proceed(cfg, p, x.answer))
    case Model(l) =>
      Model(match x
            case Answered(answer) => Resume(cfg, l, answer)
            case Reply(tools) =>
              if tools == [] then l.(stopped := true)
              else Dispatch(cfg, l.(turn := l.turn + 1, batch := tools))
            case ModelUnavailable => l.(stopped := true))
  }

  // --------------------------------------------------- what an agent has done, call by call

  datatype Journey = Journey(agent: Agent, sent: seq<Call>)

  function Note(a: Agent): seq<Call> {
    match Pending(a) case Some(c) => [c] case None => []
  }

  function Begin(cfg: Config): Journey { Journey(Start(cfg), Note(Start(cfg))) }

  function Advance(cfg: Config, j: Journey, x: Input): Journey {
    if !Accepts(j.agent, x) then j
    else
      var a := Feed(cfg, j.agent, x);
      Journey(a, j.sent + Note(a))
  }

  function Travel(cfg: Config, xs: seq<Input>): Journey {
    if |xs| == 0 then Begin(cfg) else Advance(cfg, Travel(cfg, xs[..|xs| - 1]), xs[|xs| - 1])
  }

  /** The automaton, fed `inputs`, made `calls` and is at `a`. */
  ghost predicate Follows(cfg: Config, inputs: seq<Input>, calls: seq<Call>, a: Agent) {
    Travel(cfg, inputs) == Journey(a, calls + Note(a))
  }

  /** How often the model was asked for a reply. */
  function Thoughts(xs: seq<Input>): nat {
    if |xs| == 0 then 0 else Thoughts(xs[..|xs| - 1]) + if xs[|xs| - 1].Answered? then 0 else 1
  }

  lemma ThoughtsOne(xs: seq<Input>, x: Input)
    ensures Thoughts(xs + [x]) == Thoughts(xs) + if x.Answered? then 0 else 1
  {
    assert (xs + [x])[..|xs|] == xs;
  }

  /** The world an agent runs in: it answers anything, and records what was asked. `agent` is the
      automaton fed the same inputs; a program may only ask what the automaton asks. */
  class World {
    const cfg: Config
    const answers: nat -> Answer
    const replies: nat -> Option<seq<Tool>>
    var inputs: seq<Input>
    var calls: seq<Call>
    ghost var agent: Agent

    ghost predicate Valid()
      reads this
    {
      Follows(cfg, inputs, calls, agent)
    }

    constructor (cfg: Config, answers: nat -> Answer, replies: nat -> Option<seq<Tool>>)
      ensures Valid() && inputs == [] && calls == [] && agent == Start(cfg)
      ensures this.cfg == cfg && this.answers == answers && this.replies == replies
    {
      this.cfg, this.answers, this.replies, inputs, calls := cfg, answers, replies, [], [];
      agent := Start(cfg);
    }

    method Ask(c: Call) returns (x: Answer)
      requires Valid() && Pending(agent) == Some(c)
      modifies this
      ensures Valid() && agent == Feed(cfg, old(agent), Answered(x))
      ensures x == answers(old(|inputs|)) && inputs == old(inputs) + [Answered(x)] && calls == old(calls) + [c]
      ensures Thoughts(inputs) == old(Thoughts(inputs))
    {
      x := answers(|inputs|);
      ThoughtsOne(inputs, Answered(x));
      TravelOne(cfg, inputs, Answered(x));
      agent := Feed(cfg, agent, Answered(x));
      inputs, calls := inputs + [Answered(x)], calls + [c];
    }

    method Think() returns (r: Option<seq<Tool>>)
      requires Valid() && agent.Model? && Thinking(agent.loop)
      modifies this
      ensures Valid() && agent == Feed(cfg, old(agent), if r.Some? then Reply(r.value) else ModelUnavailable)
      ensures r == replies(old(|inputs|)) && calls == old(calls)
      ensures inputs == old(inputs) + [if r.Some? then Reply(r.value) else ModelUnavailable]
      ensures Thoughts(inputs) == old(Thoughts(inputs)) + 1
    {
      r := replies(|inputs|);
      var x := if r.Some? then Reply(r.value) else ModelUnavailable;
      ThoughtsOne(inputs, x);
      TravelOne(cfg, inputs, x);
      agent := Feed(cfg, agent, x);
      inputs := inputs + [x];
    }
  }

  lemma TravelOne(cfg: Config, xs: seq<Input>, x: Input)
    ensures Travel(cfg, xs + [x]) == Advance(cfg, Travel(cfg, xs), x)
  {
  }

  /** The calls of a create, the first of them answered `a(n)`: once, or again if it raised and the
      agent retries, and then what becomes of its hold. */
  ghost predicate Concludes(cfg: Config, hold: Option<nat>, a: nat -> Answer, n: nat, made: seq<Call>, acted: bool) {
    var twice := !a(n).Ok? && cfg.retryOnFailure;
    && acted == (a(n).Ok? || (twice && a(n + 1).Ok?))
    && made == (if twice then [Create, Create] else [Create])
               + (if hold.None? then [] else if acted then [Commit(hold.value)] else [Release(hold.value)])
  }

  /** What a diligent agent does about the answers from `a(n)` on. It acts exactly when what it observed
      and its amount are within the ceiling, inclusive, and then, where there is an authority, exactly
      when that grants it a hold and it does not abandon it. */
  ghost predicate Diligently(cfg: Config, a: nat -> Answer, n: nat, made: seq<Call>, acted: bool) {
    if !cfg.knownAction then made == [] && !acted
    else if !a(n).Total? || a(n).observed + cfg.amount > cfg.authorized then made == [Observe] && !acted
    else if !cfg.authority then
      exists rest :: made == [Observe] + rest && Concludes(cfg, None, a, n + 1, rest, acted)
    else if !a(n + 1).Granted? || cfg.abandonAfterReserve then made == [Observe, Reserve] && !acted
    else
      exists rest :: made == [Observe, Reserve] + rest && Concludes(cfg, Some(a(n + 1).id), a, n + 2, rest, acted)
  }

  /** agents/diligent/policy.py's run_case: it makes exactly the calls the automaton makes and
      ends where the automaton ends. A raised exception ends it like a return. */
  method RunDiligent(w: World) returns (acted: bool, ghost made: seq<Call>)
    requires w.Valid() && !w.cfg.model && w.agent == Start(w.cfg)
    modifies w
    ensures w.Valid() && w.agent == Diligent(Stopped(acted))
    ensures w.calls == old(w.calls) + made && Diligently(w.cfg, w.answers, old(|w.inputs|), made, acted)
  {
    made := [];
    if !w.cfg.knownAction {
      return false, made;
    }
    var seen := w.Ask(Observe);
    made := [Observe];
    if !seen.Total? || seen.observed + w.cfg.amount > w.cfg.authorized {
      return false, made;
    }
    var reservation: Option<nat> := None;
    if w.cfg.authority {
      var r := w.Ask(Reserve);
      made := [Observe, Reserve];
      if !r.Granted? || w.cfg.abandonAfterReserve {
        return false, made;
      }
      reservation := Some(r.id);
    }
    ghost var rest;
    acted, rest := CreateAndSettle(w, reservation);
    made := made + rest;
  }

  /** Its try block: create, perhaps again, then commit the hold or release it. */
  method CreateAndSettle(w: World, reservation: Option<nat>) returns (acted: bool, ghost made: seq<Call>)
    requires w.Valid() && w.agent == Diligent(Creating(reservation, 1))
    modifies w
    ensures w.Valid() && w.agent == Diligent(Stopped(acted))
    ensures w.calls == old(w.calls) + made && Concludes(w.cfg, reservation, w.answers, old(|w.inputs|), made, acted)
  {
    var created := w.Ask(Create);
    made := [Create];
    if !created.Ok? && w.cfg.retryOnFailure {
      created := w.Ask(Create);
      made := [Create, Create];
    }
    if !created.Ok? {
      if reservation.Some? {
        var released := w.Ask(Release(reservation.value));
        made := made + [Release(reservation.value)];
      }
      return false, made;
    }
    if reservation.Some? {
      var committed := w.Ask(Commit(reservation.value));
      made := made + [Commit(reservation.value)];
    }
    return true, made;
  }

  /** What one tool call does, `l` being the loop before it and `a(n)` the first answer it gets: the calls
      it makes, whether it raises, whether it finishes the run, and what it leaves remembered. */
  ghost predicate ToolDone(cfg: Config, l: Loop, a: nat -> Answer, n: nat, made: seq<Call>, raised: bool,
                           finished: bool, hold: Option<nat>, refused: bool)
    requires l.batch != []
  {
    match l.batch[0]
    case ReadCompensation =>
      made == [Observe] && raised == !a(n).Total? && (finished, hold, refused) == (l.finished, l.hold, l.refused)
    case ReserveBudget =>
      if !cfg.authority then made == [] && raised
      else
        && made == [Reserve] && raised == !(a(n).Granted? || a(n).Refused?) && finished == l.finished
        && refused == (l.refused || a(n).Refused?)
        && hold == if a(n).Granted? && !l.refused then Some(a(n).id) else l.hold
    case Issue =>
      if cfg.authority && l.hold.None? then
        made == [] && !raised && (finished, hold, refused) == (l.finished, l.hold, l.refused)
      else
        && made == [Create] + (if a(n).Ok? && l.hold.Some? then [Commit(l.hold.value)] else [])
        && raised == (!a(n).Ok? || (l.hold.Some? && !a(n + 1).Ok?))
        && (hold, refused) == (l.hold, l.refused) && (!raised ==> finished)
    case Decline =>
      && made == (if l.hold.Some? then [Release(l.hold.value)] else []) && raised == (l.hold.Some? && !a(n).Ok?)
      && finished && (hold, refused) == (l.hold, l.refused)
    case UnknownTool => made == [] && raised
  }

  /** agents/llm/policy.py's _dispatch: one tool call of a reply, the rest of it still to come. */
  method DispatchTool(w: World, l: Loop)
    returns (raised: bool, finished: bool, hold: Option<nat>, refused: bool, ghost made: seq<Call>)
    requires w.Valid() && l.batch != [] && !l.stopped && l.pending.None?
    requires w.agent == Model(Dispatch(w.cfg, l))
    modifies w
    ensures w.Valid() && w.agent.Model? && Thoughts(w.inputs) == old(Thoughts(w.inputs))
    ensures old(w.inputs) <= w.inputs && w.calls == old(w.calls) + made
    ensures ToolDone(w.cfg, l, w.answers, old(|w.inputs|), made, raised, finished, hold, refused)
    ensures raised ==> w.agent.loop.stopped && w.agent.loop.pending.None?
    ensures !raised ==>
              w.agent == Model(Dispatch(w.cfg, NextTool(l).(finished := finished, hold := hold, refused := refused)))
  {
    raised, finished, hold, refused, made := false, l.finished, l.hold, l.refused, [];
    match l.batch[0]
    case ReadCompensation =>
      var x := w.Ask(Observe);
      raised, made := !x.Total?, [Observe];
    case ReserveBudget =>
      if w.cfg.authority {
        var x := w.Ask(Reserve);
        raised, made := !x.Granted? && !x.Refused?, [Reserve];
        refused := refused || x.Refused?;
        if x.Granted? && !refused {
          hold := Some(x.id);
        }
      } else {
        raised := true;
      }
    case Issue =>
      if w.cfg.authority && l.hold.None? {
        return;
      }
      raised, made := IssueTool(w, l);
      finished := finished || !raised;
    case Decline =>
      finished := true;
      if l.hold.Some? {
        var x := w.Ask(Release(l.hold.value));
        raised, made := !x.Ok?, [Release(l.hold.value)];
      }
    case UnknownTool =>
      raised := true;
  }

  /** Its issue branch: create, and commit the hold there is. */
  method IssueTool(w: World, l: Loop) returns (raised: bool, ghost made: seq<Call>)
    requires w.Valid() && l.batch != [] && l.batch[0] == Issue && !l.stopped
    requires (w.cfg.authority ==> l.hold.Some?) && w.agent == Model(l.(pending := Some(Create)))
    modifies w
    ensures w.Valid() && w.agent.Model? && Thoughts(w.inputs) == old(Thoughts(w.inputs))
    ensures old(w.inputs) <= w.inputs && w.calls == old(w.calls) + made
    ensures var x := w.answers(old(|w.inputs|));
            && made == [Create] + (if x.Ok? && l.hold.Some? then [Commit(l.hold.value)] else [])
            && raised == (!x.Ok? || (l.hold.Some? && !w.answers(old(|w.inputs|) + 1).Ok?))
    ensures raised ==> w.agent.loop.stopped && w.agent.loop.pending.None?
    ensures !raised ==> w.agent == Model(Dispatch(w.cfg, NextTool(l).(finished := true)))
  {
    var x := w.Ask(Create);
    raised, made := !x.Ok?, [Create];
    if x.Ok? && l.hold.Some? {
      assert w.agent == Model(l.(pending := Some(Commit(l.hold.value))));
      var y := w.Ask(Commit(l.hold.value));
      raised, made := !y.Ok?, [Create, Commit(l.hold.value)];
    }
  }

  /** The inner loop of agents/llm/policy.py's run_case: the tool calls of one reply, in order. */
  method RunReply(w: World, turn: nat, tools: seq<Tool>, held: Option<nat>, shut: bool)
    returns (raised: bool, finished: bool, hold: Option<nat>, refused: bool, ghost made: seq<Call>)
    requires w.Valid() && w.agent == Model(Dispatch(w.cfg, Loop(turn, tools, false, held, shut, None, false)))
    modifies w
    ensures w.Valid() && w.agent.Model? && Thoughts(w.inputs) == old(Thoughts(w.inputs))
    ensures raised ==> w.agent.loop.stopped && w.agent.loop.pending.None?
    ensures !raised ==> w.agent == Model(Dispatch(w.cfg, Loop(turn, [], finished, hold, refused, None, false)))
    ensures old(w.inputs) <= w.inputs && w.calls == old(w.calls) + made
    ensures !raised && Decline in tools ==> finished
    ensures !raised && Issue in tools && (!w.cfg.authority || held.Some?) ==> finished
    ensures !raised && finished ==> Decline in tools || Issue in tools
  {
    raised, finished, hold, refused, made := false, false, held, shut, [];
    for i := 0 to |tools|
      invariant w.Valid() && !raised && Thoughts(w.inputs) == old(Thoughts(w.inputs))
      invariant w.agent == Model(Dispatch(w.cfg, Loop(turn, tools[i..], finished, hold, refused, None, false)))
      invariant old(w.inputs) <= w.inputs && w.calls == old(w.calls) + made
      invariant held.Some? ==> hold.Some?
      invariant Decline in tools[..i] ==> finished
      invariant Issue in tools[..i] && (!w.cfg.authority || held.Some?) ==> finished
      invariant finished ==> Decline in tools[..i] || Issue in tools[..i]
    {
      ghost var more;
      assert tools[..i + 1] == tools[..i] + [tools[i]];
      raised, finished, hold, refused, more :=
        DispatchTool(w, Loop(turn, tools[i..], finished, hold, refused, None, false));
      made := made + more;
      if raised {
        return;
      }
      assert tools[i..][1..] == tools[i + 1..];
    }
    assert tools[..|tools|] == tools;
  }

  /** How a turn ends: an exception, a reply without tool calls, a tool call that finishes the run, or
      none of these. */
  datatype Turn = Broken | Silent | Finished | Unfinished

  /** One turn of the outer loop: a reply, and its tool calls. */
  method RunTurn(w: World, turn: nat, held: Option<nat>, shut: bool)
    returns (end: Turn, hold: Option<nat>, refused: bool)
    requires w.Valid() && w.agent == Model(Loop(turn, [], false, held, shut, None, false))
    modifies w
    ensures w.Valid() && w.agent.Model? && Thoughts(w.inputs) == old(Thoughts(w.inputs)) + 1
    ensures |w.inputs| > old(|w.inputs|)
    ensures !end.Unfinished? ==> w.agent.loop.stopped && w.agent.loop.pending.None?
    ensures var reply := w.replies(old(|w.inputs|));
            && (reply.None? ==> end.Broken?)
            && (end.Silent? <==> reply == Some([]))
            && (end.Silent? || end.Finished? ==> w.agent.loop.batch == [] && (w.agent.loop.finished <==> end.Finished?))
            && (end.Finished? ==> Decline in reply.value || Issue in reply.value)
            && (end.Unfinished? ==>
                  && Decline !in reply.value && (Issue in reply.value ==> w.cfg.authority && held.None?)
                  && w.agent == Model(Loop(turn + 1, [], false, hold, refused, None, turn + 1 >= MAX_STEPS)))
  {
    hold, refused := held, shut;
    var reply := w.Think();
    if reply.None? {
      return Broken, hold, refused;
    }
    if reply.value == [] {
      return Silent, hold, refused;
    }
    var raised, finished;
    ghost var made;
    raised, finished, hold, refused, made := RunReply(w, turn + 1, reply.value, hold, refused);
    end := if raised then Broken else if finished then Finished else Unfinished;
  }

  /** agents/llm/policy.py's run_case: the same for the model-driven loop, bounded by MAX_STEPS
      replies whatever the model says. None is an exception; otherwise whether the run ended
      without a tool call that finishes it: the model fell silent, or had its last turn. */
  method RunModel(w: World) returns (hitLimit: Option<bool>)
    requires w.Valid() && w.cfg.model && w.agent == Start(w.cfg)
    modifies w
    ensures w.Valid() && w.agent.Model? && w.agent.loop.stopped && Pending(w.agent).None?
    ensures hitLimit.Some? ==> w.agent.loop.batch == [] && (hitLimit.value <==> !w.agent.loop.finished)
    ensures !w.cfg.knownAction ==> hitLimit.None? && w.inputs == old(w.inputs)
    ensures Thoughts(w.inputs) <= old(Thoughts(w.inputs)) + 6
    ensures hitLimit == Some(true) ==>
              || Thoughts(w.inputs) == old(Thoughts(w.inputs)) + 6
              || exists n: nat :: old(|w.inputs|) <= n < |w.inputs| && w.replies(n) == Some([])
  {
    if !w.cfg.knownAction {
      return None;
    }
    var hold: Option<nat> := None;
    var refused := false;
    for turn := 0 to MAX_STEPS
      invariant w.Valid() && Thoughts(w.inputs) == old(Thoughts(w.inputs)) + turn && |w.inputs| >= old(|w.inputs|)
      invariant w.agent == Model(Loop(turn, [], false, hold, refused, None, turn == MAX_STEPS))
    {
      var end;
      end, hold, refused := RunTurn(w, turn, hold, refused);
      match end
      case Broken => return None;
      case Silent => return Some(true);
      case Finished => return Some(false);
      case Unfinished =>
    }
    hitLimit := Some(true);
  }
}
