/** apps/crm/projector.py over the two services' outboxes: any number of projectors, each holding
    a listing that may be stale, may crash between any two steps and start again; events may be
    redelivered; other clients keep writing. */
module Projection {
  import opened Base
  import S = Stores

  datatype Service = Billing | Ledger
  datatype Applied = Applied(service: Service, id: nat, caseId: string, amount: int)
  datatype Delivery = Delivery(id: nat, caseId: string, amount: int)
  datatype Row = Row(total: int, eventsApplied: int)

  /** Next: about to look at listing[pos]. Fresh: its transaction saw the event as not applied.
      Marking: the projection committed, the source is not marked yet. */
  datatype Phase = Next | Fresh | Marking
  datatype Projector = Projector(service: Service, listing: seq<Delivery>, pos: nat, phase: Phase)

  datatype World = World(billing: S.Store, ledger: S.Store,
                         applied: seq<Applied>, projection: map<string, Row>, projectors: map<nat, Projector>)

  datatype Event =
    | Client(service: Service, request: S.Event)
    | Poll(p: nat, service: Service, caseId: Option<string>)
    | Check(p: nat)
    | Commit(p: nat)
    | Mark(p: nat)
    | Crash(p: nat)

  const Start: World := World(S.Empty, S.Empty, [], map[], map[])

  function Source(w: World, s: Service): S.Store { if s.Billing? then w.billing else w.ledger }

  function WithSource(w: World, s: Service, store: S.Store): World {
    if s.Billing? then w.(billing := store) else w.(ledger := store)
  }

  /** GET /events: the unapplied events of a source, of one case if one is named, by id. */
  function Listing(outbox: seq<S.OutboxRow>, c: Option<string>): (r: seq<Delivery>)
    ensures forall d :: d in r ==> d.id < |outbox| && outbox[d.id].caseId == d.caseId && outbox[d.id].amount == d.amount
  {
    var ids := S.Unapplied(outbox, c);
    seq(|ids|, i requires 0 <= i < |ids| => Delivery(ids[i], outbox[ids[i]].caseId, outbox[ids[i]].amount))
  }

  predicate IsApplied(applied: seq<Applied>, s: Service, id: nat) {
    exists i :: 0 <= i < |applied| && applied[i].service == s && applied[i].id == id
  }

  /** INSERT ... ON CONFLICT (case_id) DO UPDATE. */
  function Upsert(projection: map<string, Row>, c: string, amount: int): map<string, Row> {
    if c in projection
    then projection[c := Row(projection[c].total + amount, projection[c].eventsApplied + 1)]
    else projection[c := Row(amount, 1)]
  }

  predicate AtEvent(w: World, p: nat, phase: Phase) {
    p in w.projectors && w.projectors[p].phase == phase && w.projectors[p].pos < |w.projectors[p].listing|
  }

  function Goto(w: World, p: nat, pos: nat, phase: Phase): World
    requires p in w.projectors
  {
    w.(projectors := w.projectors[p := w.projectors[p].(pos := pos, phase := phase)])
  }

  /** The projector's transaction: remember the event and add it to its case. */
  function Folded(w: World, s: Service, d: Delivery): World {
    w.(applied := w.applied + [Applied(s, d.id, d.caseId, d.amount)],
       projection := Upsert(w.projection, d.caseId, d.amount))
  }

  function Marked(w: World, s: Service, id: nat): World {
    WithSource(w, s, S.WithMark(Source(w, s), id))
  }

  function MarkStep(w: World, p: nat): World
    requires AtEvent(w, p, Marking)
  {
    var pr := w.projectors[p];
    Marked(Goto(w, p, pr.pos + 1, Next), pr.service, pr.listing[pr.pos].id)
  }

  function Apply(w: World, e: Event): World {
    match e
    case Client(s, request) =>
      if request.MarkApplied? then w else WithSource(w, s, S.Apply(Source(w, s), request))
    case Poll(p, s, c) =>
      w.(projectors := w.projectors[p := Projector(s, Listing(Source(w, s).outbox, c), 0, Next)])
    case Check(p) =>
      if !AtEvent(w, p, Next) then w
      else
        var pr := w.projectors[p];
        Goto(w, p, pr.pos, if IsApplied(w.applied, pr.service, pr.listing[pr.pos].id) then Marking else Fresh)
    case Commit(p) =>
      if !AtEvent(w, p, Fresh) then w
      else
        var pr := w.projectors[p];
        var d := pr.listing[pr.pos];
        // PRIMARY KEY: the run fails
        if IsApplied(w.applied, pr.service, d.id) then w.(projectors := w.projectors - {p})
        else Goto(Folded(w, pr.service, d), p, pr.pos, Marking)
    case Mark(p) =>
      if !AtEvent(w, p, Marking) then w else MarkStep(w, p)
    case Crash(p) => w.(projectors := w.projectors - {p})
  }

  function Exec(w: World, es: seq<Event>): World {
    if |es| == 0 then w else Apply(Exec(w, es[..|es| - 1]), es[|es| - 1])
  }

  // ------------------------------------------------- one weight for the total and for the count

  function Weigh(count: bool, amount: int): int { if count then 1 else amount }

  function AppliedWeight(c: string, count: bool): Applied -> int {
    (a: Applied) => if a.caseId == c then Weigh(count, a.amount) else 0
  }

  function OutboxWeight(c: string, count: bool): S.OutboxRow -> int {
    (o: S.OutboxRow) => if o.caseId == c then Weigh(count, o.amount) else 0
  }

  /** Everything ever created for a case, whatever state it is in now. */
  function CreatedWeight(c: string, count: bool): S.Effect -> int {
    (e: S.Effect) => if e.caseId == c then Weigh(count, e.amount) else 0
  }

  function Projected(projection: map<string, Row>, c: string, count: bool): int {
    if c !in projection then 0 else if count then projection[c].eventsApplied else projection[c].total
  }

  /** The events of a case, among the first `n` of one outbox, that are not in applied_events. */
  function Unfolded(outbox: seq<S.OutboxRow>, s: Service, applied: seq<Applied>, c: string, count: bool, n: nat): int
    requires n <= |outbox|
  {
    if n == 0 then 0
    else Unfolded(outbox, s, applied, c, count, n - 1)
         + if IsApplied(applied, s, n - 1) then 0 else OutboxWeight(c, count)(outbox[n - 1])
  }

  function UnfoldedAt(w: World, s: Service, c: string, count: bool): int {
    Unfolded(Source(w, s).outbox, s, w.applied, c, count, |Source(w, s).outbox|)
  }

  function Created(w: World, c: string, count: bool): int {
    Sum(w.billing.rows, CreatedWeight(c, count)) + Sum(w.ledger.rows, CreatedWeight(c, count))
  }

  function Published(w: World, c: string, count: bool): int {
    Sum(w.billing.outbox, OutboxWeight(c, count)) + Sum(w.ledger.outbox, OutboxWeight(c, count))
  }

  // ---------------------------------------------------------------------------- the invariant

  ghost predicate AppliedTrue(w: World) {
    && (forall i: nat :: i < |w.applied| ==>
          var a := w.applied[i];
          a.id < |Source(w, a.service).outbox| && Source(w, a.service).outbox[a.id].caseId == a.caseId
          && Source(w, a.service).outbox[a.id].amount == a.amount)
    && (forall i: nat, j: nat :: i < j < |w.applied| ==>
          w.applied[i].service != w.applied[j].service || w.applied[i].id != w.applied[j].id)
  }

  ghost predicate Names(w: World, s: Service, d: Delivery) {
    d.id < |Source(w, s).outbox| && Source(w, s).outbox[d.id].caseId == d.caseId
    && Source(w, s).outbox[d.id].amount == d.amount
  }

  ghost predicate ProjectorTrue(w: World, pr: Projector) {
    && (forall i: nat :: i < |pr.listing| ==> Names(w, pr.service, pr.listing[i]))
    && (pr.phase.Marking? && pr.pos < |pr.listing| ==> IsApplied(w.applied, pr.service, pr.listing[pr.pos].id))
  }

  ghost predicate ProjectorsTrue(w: World) {
    forall p :: p in w.projectors ==> ProjectorTrue(w, w.projectors[p])
  }

  ghost predicate MarksTrue(w: World) {
    forall s, id: nat :: id < |Source(w, s).outbox| && Source(w, s).outbox[id].applied ==> IsApplied(w.applied, s, id)
  }

  ghost predicate ProjectionTrue(w: World) {
    forall c, count :: Projected(w.projection, c, count) == Sum(w.applied, AppliedWeight(c, count))
  }

  ghost predicate Conserved(w: World) {
    forall c, count ::
      Sum(w.applied, AppliedWeight(c, count)) + UnfoldedAt(w, Billing, c, count) + UnfoldedAt(w, Ledger, c, count)
      == Published(w, c, count)
  }

  ghost predicate StoresTrue(w: World) { S.Inv(w.billing) && S.Inv(w.ledger) }

  ghost predicate Inv(w: World) {
    && AppliedTrue(w) && ProjectorsTrue(w) && MarksTrue(w) && ProjectionTrue(w) && Conserved(w)
  }

  lemma {:induction false} UnfoldedSame(o: seq<S.OutboxRow>, q: seq<S.OutboxRow>, s: Service, a: seq<Applied>,
                                        b: seq<Applied>,
                                        c: string, count: bool, n: nat)
    requires n <= |o| && n <= |q|
    requires forall i: nat :: i < n ==> o[i].caseId == q[i].caseId && o[i].amount == q[i].amount
    requires forall i: nat :: i < n ==> (IsApplied(a, s, i) <==> IsApplied(b, s, i))
    ensures Unfolded(o, s, a, c, count, n) == Unfolded(q, s, b, c, count, n)
  {
    if n > 0 {
      UnfoldedSame(o, q, s, a, b, c, count, n - 1);
    }
  }

  lemma AppendApplied(a: seq<Applied>, x: Applied)
    ensures forall s, id: nat :: IsApplied(a + [x], s, id) <==> IsApplied(a, s, id) || (x.service == s && x.id == id)
  {
    forall s, id: nat ensures IsApplied(a + [x], s, id) <==> IsApplied(a, s, id) || (x.service == s && x.id == id) {
      if IsApplied(a, s, id) {
        var i :| 0 <= i < |a| && a[i].service == s && a[i].id == id;
        assert (a + [x])[i] == a[i];
      }
      assert (a + [x])[|a|] == x;
    }
  }

  /** Folding one more event moves exactly its weight out of the unfolded part. */
  lemma {:induction false} UnfoldedDrops(o: seq<S.OutboxRow>, s: Service, a: seq<Applied>, x: Applied, c: string,
                                         count: bool, n: nat)
    requires n <= |o| && x.service == s && x.id < |o| && !IsApplied(a, s, x.id)
    ensures Unfolded(o, s, a + [x], c, count, n)
         == Unfolded(o, s, a, c, count, n) - if x.id < n then OutboxWeight(c, count)(o[x.id]) else 0
  {
    AppendApplied(a, x);
    if n > 0 {
      UnfoldedDrops(o, s, a, x, c, count, n - 1);
    }
  }

  lemma NotYetPublished(w: World, s: Service, id: nat)
    requires AppliedTrue(w) && IsApplied(w.applied, s, id)
    ensures id < |Source(w, s).outbox|
  {
  }

  lemma PublishedGrows(o: seq<S.OutboxRow>, q: seq<S.OutboxRow>, c: string, count: bool)
    requires |o| <= |q| <= |o| + 1
    requires forall i: nat :: i < |o| ==> q[i].caseId == o[i].caseId && q[i].amount == o[i].amount
    ensures Sum(q, OutboxWeight(c, count))
         == Sum(o, OutboxWeight(c, count)) + if |q| > |o| then OutboxWeight(c, count)(q[|o|]) else 0
  {
    var front := q[..|o|];
    SumEq(o, OutboxWeight(c, count), front, OutboxWeight(c, count));
    if |q| == |o| {
      assert front == q;
    }
  }

  /** An outbox that keeps its events and perhaps gains one, not folded yet, gains as much in what
      it published as in what is unfolded. */
  lemma GrowthBalances(o: seq<S.OutboxRow>, q: seq<S.OutboxRow>, s: Service, applied: seq<Applied>,
                         c: string, count: bool)
    requires |o| <= |q| <= |o| + 1 && !IsApplied(applied, s, |o|)
    requires forall i: nat :: i < |o| ==> q[i].caseId == o[i].caseId && q[i].amount == o[i].amount
    ensures Unfolded(q, s, applied, c, count, |q|) - Unfolded(o, s, applied, c, count, |o|)
         == Sum(q, OutboxWeight(c, count)) - Sum(o, OutboxWeight(c, count))
  {
    UnfoldedSame(o, q, s, applied, applied, c, count, |o|);
    PublishedGrows(o, q, c, count);
  }

  lemma ConservedBySource(w: World, s: Service, store: S.Store)
    requires AppliedTrue(w) && Conserved(w) && S.OutboxGrows(Source(w, s), store)
    ensures Conserved(WithSource(w, s, store))
  {
    var v := WithSource(w, s, store);
    var o, q := Source(w, s).outbox, store.outbox;
    if IsApplied(w.applied, s, |o|) { NotYetPublished(w, s, |o|); assert false; }
    forall c, count
      ensures Sum(v.applied, AppliedWeight(c, count)) + UnfoldedAt(v, Billing, c, count)
              + UnfoldedAt(v, Ledger, c, count)
              == Published(v, c, count)
    {
      GrowthBalances(o, q, s, w.applied, c, count);
      assert Sum(w.applied, AppliedWeight(c, count)) + UnfoldedAt(w, Billing, c, count)
              + UnfoldedAt(w, Ledger, c, count)
          == Published(w, c, count);
    }
  }

  lemma AppliedBySource(w: World, s: Service, store: S.Store)
    requires AppliedTrue(w) && S.OutboxGrows(Source(w, s), store)
    ensures AppliedTrue(WithSource(w, s, store))
  {
  }

  lemma ProjectorsBySource(w: World, s: Service, store: S.Store)
    requires ProjectorsTrue(w) && S.OutboxGrows(Source(w, s), store)
    ensures ProjectorsTrue(WithSource(w, s, store))
  {
  }

  lemma MarksBySource(w: World, s: Service, e: S.Event)
    requires MarksTrue(w) && (e.MarkApplied? ==> IsApplied(w.applied, s, e.id))
    ensures MarksTrue(WithSource(w, s, S.Apply(Source(w, s), e)))
  {
  }

  lemma SourceInv(w: World, s: Service, store: S.Store)
    requires Inv(w) && S.OutboxGrows(Source(w, s), store) && MarksTrue(WithSource(w, s, store))
    ensures Inv(WithSource(w, s, store))
  {
    ConservedBySource(w, s, store);
    AppliedBySource(w, s, store);
    ProjectorsBySource(w, s, store);
  }

  lemma SourceKeeps(w: World, s: Service, e: S.Event)
    requires Inv(w) && (e.MarkApplied? ==> IsApplied(w.applied, s, e.id))
    ensures Inv(WithSource(w, s, S.Apply(Source(w, s), e)))
  {
    S.OutboxStep(Source(w, s), e);
    MarksBySource(w, s, e);
    SourceInv(w, s, S.Apply(Source(w, s), e));
  }

  lemma MarkGrows(store: S.Store, id: nat)
    ensures S.OutboxGrows(store, S.WithMark(store, id))
  {
  }

  lemma MarkedMarks(w: World, s: Service, id: nat)
    requires MarksTrue(w) && IsApplied(w.applied, s, id)
    ensures MarksTrue(WithSource(w, s, S.WithMark(Source(w, s), id)))
  {
  }

  lemma CommitConserves(w: World, x: Applied)
    requires AppliedTrue(w) && Conserved(w) && !IsApplied(w.applied, x.service, x.id)
    requires Names(w, x.service, Delivery(x.id, x.caseId, x.amount))
    ensures Conserved(w.(applied := w.applied + [x]))
  {
    var v := w.(applied := w.applied + [x]);
    AppendApplied(w.applied, x);
    forall c, count
      ensures Sum(v.applied, AppliedWeight(c, count)) + UnfoldedAt(v, Billing, c, count)
              + UnfoldedAt(v, Ledger, c, count)
              == Published(v, c, count)
    {
      SumAppend(w.applied, x, AppliedWeight(c, count));
      var other := if x.service.Billing? then Ledger else Billing;
      var o, q := Source(w, x.service).outbox, Source(w, other).outbox;
      UnfoldedDrops(o, x.service, w.applied, x, c, count, |o|);
      UnfoldedSame(q, q, other, v.applied, w.applied, c, count, |q|);
      assert Sum(w.applied, AppliedWeight(c, count)) + UnfoldedAt(w, Billing, c, count)
              + UnfoldedAt(w, Ledger, c, count)
          == Published(w, c, count);
    }
  }

  lemma CommitProjects(w: World, x: Applied)
    requires ProjectionTrue(w)
    ensures forall c, count :: Projected(Upsert(w.projection, x.caseId, x.amount), c, count)
              == Sum(w.applied + [x], AppliedWeight(c, count))
  {
  }

  lemma CommitApplied(w: World, v: World, x: Applied)
    requires AppliedTrue(w) && !IsApplied(w.applied, x.service, x.id)
    requires Names(w, x.service, Delivery(x.id, x.caseId, x.amount))
    requires v.billing == w.billing && v.ledger == w.ledger && v.applied == w.applied + [x]
    ensures AppliedTrue(v)
  {
  }

  lemma CommitMarks(w: World, v: World, x: Applied)
    requires MarksTrue(w) && v.billing == w.billing && v.ledger == w.ledger && v.applied == w.applied + [x]
    ensures MarksTrue(v)
  {
    AppendApplied(w.applied, x);
  }

  lemma ConservedFrame(u: World, v: World)
    requires Conserved(u) && v.billing == u.billing && v.ledger == u.ledger && v.applied == u.applied
    ensures Conserved(v)
  {
  }

  lemma ProjectorsFold(w: World, v: World)
    requires ProjectorsTrue(w) && v.billing == w.billing && v.ledger == w.ledger && v.projectors == w.projectors
    requires forall s, id: nat :: IsApplied(w.applied, s, id) ==> IsApplied(v.applied, s, id)
    ensures ProjectorsTrue(v)
  {
  }

  lemma FoldedKeeps(w: World, s: Service, d: Delivery)
    requires Inv(w) && Names(w, s, d) && !IsApplied(w.applied, s, d.id)
    ensures Inv(Folded(w, s, d)) && IsApplied(Folded(w, s, d).applied, s, d.id)
  {
    var x := Applied(s, d.id, d.caseId, d.amount);
    var v := Folded(w, s, d);
    CommitConserves(w, x);
    ConservedFrame(w.(applied := w.applied + [x]), v);
    CommitProjects(w, x);
    AppendApplied(w.applied, x);
    CommitApplied(w, v, x);
    CommitMarks(w, v, x);
    ProjectorsFold(w, v);
  }

  lemma CommitKeeps(w: World, p: nat)
    requires Inv(w) && AtEvent(w, p, Fresh)
    requires !IsApplied(w.applied, w.projectors[p].service, w.projectors[p].listing[w.projectors[p].pos].id)
    ensures Inv(Apply(w, Commit(p)))
  {
    var pr := w.projectors[p];
    assert ProjectorTrue(w, pr) && Names(w, pr.service, pr.listing[pr.pos]);
    FoldedKeeps(w, pr.service, pr.listing[pr.pos]);
    GotoKeeps(Folded(w, pr.service, pr.listing[pr.pos]), p, pr.pos, Marking);
  }

  lemma GotoKeeps(w: World, p: nat, pos: nat, phase: Phase)
    requires Inv(w) && p in w.projectors
    requires var pr := w.projectors[p];
             phase.Marking? && pos < |pr.listing| ==> IsApplied(w.applied, pr.service, pr.listing[pos].id)
    ensures Inv(Goto(w, p, pos, phase))
  {
  }

  lemma PollKeeps(w: World, p: nat, s: Service, c: Option<string>)
    requires Inv(w)
    ensures Inv(Apply(w, Poll(p, s, c)))
  {
    var v := Apply(w, Poll(p, s, c));
    ConservedFrame(w, v);
    forall q | q in v.projectors ensures ProjectorTrue(v, v.projectors[q]) {
      var pr := v.projectors[q];
      if q == p {
        forall i: nat | i < |pr.listing| ensures Names(v, s, pr.listing[i]) { assert pr.listing[i] in pr.listing; }
      } else {
        assert ProjectorTrue(w, pr);
        forall i: nat | i < |pr.listing| ensures Names(v, pr.service, pr.listing[i]) {
          assert Names(w, pr.service, pr.listing[i]);
        }
      }
    }
  }

  lemma CrashKeeps(w: World, p: nat)
    requires Inv(w)
    ensures Inv(w.(projectors := w.projectors - {p}))
  {
  }

  lemma CheckKeeps(w: World, p: nat)
    requires Inv(w) && AtEvent(w, p, Next)
    ensures Inv(Apply(w, Check(p)))
  {
    var pr := w.projectors[p];
    GotoKeeps(w, p, pr.pos, if IsApplied(w.applied, pr.service, pr.listing[pr.pos].id) then Marking else Fresh);
  }

  lemma MarkingIsApplied(w: World, p: nat)
    requires ProjectorsTrue(w) && AtEvent(w, p, Marking)
    ensures IsApplied(w.applied, w.projectors[p].service, w.projectors[p].listing[w.projectors[p].pos].id)
  {
  }

  lemma MarkedKeeps(w: World, s: Service, id: nat)
    requires Inv(w) && IsApplied(w.applied, s, id)
    ensures Inv(Marked(w, s, id))
  {
    MarkGrows(Source(w, s), id);
    MarkedMarks(w, s, id);
    SourceInv(w, s, S.WithMark(Source(w, s), id));
  }

  lemma SameInv(w: World, v: World)
    requires v == w && Inv(w)
    ensures Inv(v)
  {
  }

  lemma MovesOn(w: World, p: nat) returns (v: World)
    requires Inv(w) && AtEvent(w, p, Marking)
    ensures v == Goto(w, p, w.projectors[p].pos + 1, Next) && Inv(v)
    ensures IsApplied(v.applied, w.projectors[p].service, w.projectors[p].listing[w.projectors[p].pos].id)
  {
    MarkingIsApplied(w, p);
    GotoKeeps(w, p, w.projectors[p].pos + 1, Next);
    v := Goto(w, p, w.projectors[p].pos + 1, Next);
  }

  lemma MarksNext(v: World, s: Service, id: nat) returns (u: World)
    requires Inv(v) && IsApplied(v.applied, s, id)
    ensures u == Marked(v, s, id) && Inv(u)
  {
    MarkedKeeps(v, s, id);
    u := Marked(v, s, id);
  }

  lemma MarkKeeps(w: World, p: nat)
    requires Inv(w) && AtEvent(w, p, Marking)
    ensures Inv(MarkStep(w, p))
  {
    var v := MovesOn(w, p);
    var u := MarksNext(v, w.projectors[p].service, w.projectors[p].listing[w.projectors[p].pos].id);
    SameInv(u, MarkStep(w, p));
  }

  lemma ProjectorStep(w: World, p: nat, e: Event)
    requires Inv(w) && (e == Check(p) || e == Commit(p) || e == Mark(p))
    ensures Inv(Apply(w, e))
  {
    if e.Check? && AtEvent(w, p, Next) {
      CheckKeeps(w, p);
    } else if e.Mark? && AtEvent(w, p, Marking) {
      MarkKeeps(w, p);
    } else if e.Commit? && AtEvent(w, p, Fresh) {
      if IsApplied(w.applied, w.projectors[p].service, w.projectors[p].listing[w.projectors[p].pos].id) {
        CrashKeeps(w, p);
      } else {
        CommitKeeps(w, p);
      }
    }
  }

  lemma ApplyKeeps(w: World, e: Event)
    requires Inv(w)
    ensures Inv(Apply(w, e))
  {
    match e
    case Client(s, request) => if !request.MarkApplied? { SourceKeeps(w, s, request); }
    case Poll(p, s, c) => PollKeeps(w, p, s, c);
    case Crash(p) => CrashKeeps(w, p);
    case Check(p) => ProjectorStep(w, p, e);
    case Commit(p) => ProjectorStep(w, p, e);
    case Mark(p) => ProjectorStep(w, p, e);
  }

  lemma MarkedStores(w: World, s: Service, id: nat)
    requires StoresTrue(w)
    ensures StoresTrue(Marked(w, s, id))
  {
    S.MarkKeeps(Source(w, s), id);
  }

  lemma StoresKeep(w: World, e: Event)
    requires StoresTrue(w)
    ensures StoresTrue(Apply(w, e))
  {
    match e
    case Client(s, request) => S.ApplyKeeps(Source(w, s), request);
    case Mark(p) =>
      if AtEvent(w, p, Marking) {
        var pr := w.projectors[p];
        MarkedStores(Goto(w, p, pr.pos + 1, Next), pr.service, pr.listing[pr.pos].id);
      }
    case _ =>
  }

  lemma {:induction false} RunKeeps(es: seq<Event>)
    ensures Inv(Exec(Start, es)) && StoresTrue(Exec(Start, es))
  {
    if |es| == 0 {
      forall c, count ensures Projected(map[], c, count) == 0 {}
    } else {
      RunKeeps(es[..|es| - 1]);
      ApplyKeeps(Exec(Start, es[..|es| - 1]), es[|es| - 1]);
      StoresKeep(Exec(Start, es[..|es| - 1]), es[|es| - 1]);
    }
  }

  // ------------------------------------------------------------------------------ consequences

  ghost predicate Reachable(w: World) { exists es :: w == Exec(Start, es) }

  lemma ReachableInv(w: World)
    requires Reachable(w)
    ensures Inv(w) && StoresTrue(w)
  {
    var es :| w == Exec(Start, es);
    RunKeeps(es);
  }

  /** Exactly once: the projection's total and event count are those of applied_events, which holds
      each event of each source at most once and every event a source believes applied. */
  lemma ExactlyOnce(w: World, c: string)
    requires Reachable(w)
    ensures Projected(w.projection, c, false) == Sum(w.applied, AppliedWeight(c, false))
    ensures Projected(w.projection, c, true) == Sum(w.applied, AppliedWeight(c, true))
    ensures forall i: nat, j: nat :: i < j < |w.applied| ==>
              w.applied[i].service != w.applied[j].service || w.applied[i].id != w.applied[j].id
    ensures forall s, id: nat :: id < |Source(w, s).outbox| && Source(w, s).outbox[id].applied ==>
              IsApplied(w.applied, s, id)
  {
    ReachableInv(w);
  }

  lemma PublishedIsCreated(w: World, c: string, count: bool)
    requires S.OutboxTrue(w.billing) && S.OutboxTrue(w.ledger)
    ensures Published(w, c, count) == Created(w, c, count)
  {
    SumEq(w.billing.outbox, OutboxWeight(c, count), w.billing.rows, CreatedWeight(c, count));
    SumEq(w.ledger.outbox, OutboxWeight(c, count), w.ledger.rows, CreatedWeight(c, count));
  }

  /** Conservation: at every moment the projection plus the events not yet folded in is everything
      ever created for the case, in money and in number, whatever was voided since. */
  lemma Conservation(w: World, c: string, count: bool)
    requires Reachable(w)
    ensures Projected(w.projection, c, count) + UnfoldedAt(w, Billing, c, count) + UnfoldedAt(w, Ledger, c, count)
         == Created(w, c, count)
  {
    ReachableInv(w);
    PublishedIsCreated(w, c, count);
    assert Sum(w.applied, AppliedWeight(c, count)) + UnfoldedAt(w, Billing, c, count) + UnfoldedAt(w, Ledger, c, count)
        == Published(w, c, count);
  }

  ghost predicate Drained(w: World, c: string) {
    forall s, id: nat :: id < |Source(w, s).outbox| && Source(w, s).outbox[id].caseId == c ==>
      IsApplied(w.applied, s, id)
  }

  lemma {:induction false} DrainedUnfoldsNothing(w: World, s: Service, c: string, count: bool, n: nat)
    requires Drained(w, c) && n <= |Source(w, s).outbox|
    ensures Unfolded(Source(w, s).outbox, s, w.applied, c, count, n) == 0
  {
    if n > 0 {
      DrainedUnfoldsNothing(w, s, c, count, n - 1);
    }
  }

  lemma DrainedProjectsPublished(w: World, c: string, count: bool)
    requires Inv(w) && Drained(w, c)
    ensures Projected(w.projection, c, count) == Published(w, c, count)
  {
    DrainedUnfoldsNothing(w, Billing, c, count, |w.billing.outbox|);
    DrainedUnfoldsNothing(w, Ledger, c, count, |w.ledger.outbox|);
    assert Sum(w.applied, AppliedWeight(c, count)) + UnfoldedAt(w, Billing, c, count) + UnfoldedAt(w, Ledger, c, count)
        == Published(w, c, count);
  }

  /** Confluence: however the work was ordered, divided, repeated and interrupted, two drained
      worlds in which the same was created for a case hold the same projection of it. */
  lemma DrainedWorldsAgree(w: World, v: World, c: string)
    requires Reachable(w) && Reachable(v) && Drained(w, c) && Drained(v, c)
    requires Created(w, c, false) == Created(v, c, false) && Created(w, c, true) == Created(v, c, true)
    ensures forall count ::
              Projected(w.projection, c, count) == Projected(v.projection, c, count) == Created(w, c, count)
  {
    forall count
      ensures Projected(w.projection, c, count) == Projected(v.projection, c, count) == Created(w, c, count)
    {
      ReachableInv(w);
      ReachableInv(v);
      DrainedProjectsPublished(w, c, count);
      DrainedProjectsPublished(v, c, count);
      PublishedIsCreated(w, c, count);
      PublishedIsCreated(v, c, count);
    }
  }

  function VoidedWeight(c: string): S.Effect -> int {
    (e: S.Effect) => if e.caseId == c && !S.IsCommitted(e.state) then e.amount else 0
  }

  function VoidedTotal(w: World, c: string): int {
    Sum(w.billing.rows, VoidedWeight(c)) + Sum(w.ledger.rows, VoidedWeight(c))
  }

  function AuthoritativeTotal(w: World, c: string): int {
    S.CommittedTotal(w.billing, c) + S.CommittedTotal(w.ledger, c)
  }

  function ProjectionLag(w: World, c: string): int { AuthoritativeTotal(w, c) - Projected(w.projection, c, false) }

  /** What `projection_lag` measures: unfolded money less voided money, because `void` publishes
      nothing. It is the staleness it is documented as only while nothing was voided, and it is
      negative exactly when more was voided than is still unfolded. */
  lemma LagIsUnfoldedLessVoided(w: World, c: string)
    requires Reachable(w)
    ensures ProjectionLag(w, c)
         == UnfoldedAt(w, Billing, c, false) + UnfoldedAt(w, Ledger, c, false) - VoidedTotal(w, c)
  {
    Conservation(w, c, false);
    SumSplit(w.billing.rows, CreatedWeight(c, false), S.Committed(c), VoidedWeight(c));
    SumSplit(w.ledger.rows, CreatedWeight(c, false), S.Committed(c), VoidedWeight(c));
  }
}
