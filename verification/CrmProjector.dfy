/** `apply_pending` of apps/crm/projector.py run by one process to its end, over the two services. */
module CrmProjector {
  import opened Base
  import opened Projection
  import S = Stores
  import E = EffectService

  function DeliveryAt(w: World, s: Service, id: nat): Delivery
    requires id < |Source(w, s).outbox|
  {
    Delivery(id, Source(w, s).outbox[id].caseId, Source(w, s).outbox[id].amount)
  }

  /** What one projector does about one event when nothing interferes. */
  function FoldOnce(w: World, s: Service, id: nat): World
    requires id < |Source(w, s).outbox|
  {
    Marked(if IsApplied(w.applied, s, id) then w else Folded(w, s, DeliveryAt(w, s, id)), s, id)
  }

  predicate Within(ids: seq<nat>, n: nat) {
    forall i :: 0 <= i < |ids| ==> ids[i] < n
  }

  function FoldAll(w: World, s: Service, ids: seq<nat>): (v: World)
    requires Within(ids, |Source(w, s).outbox|)
    ensures |Source(v, s).outbox| == |Source(w, s).outbox|
  {
    if |ids| == 0 then w else FoldOnce(FoldAll(w, s, ids[..|ids| - 1]), s, ids[|ids| - 1])
  }

  lemma FoldAllOne(w: World, s: Service, ids: seq<nat>, i: nat)
    requires Within(ids, |Source(w, s).outbox|) && i < |ids|
    ensures FoldAll(w, s, ids[..i + 1]) == FoldOnce(FoldAll(w, s, ids[..i]), s, ids[i])
  {
    assert ids[..i + 1][..i] == ids[..i];
  }

  /** The same events, none of them unmarked. */
  ghost predicate SameEvents(before: seq<S.OutboxRow>, after: seq<S.OutboxRow>) {
    && |after| == |before|
    && forall id: nat :: id < |before| ==> after[id] == before[id] || after[id] == before[id].(applied := true)
  }

  lemma FoldOnceKeeps(w: World, s: Service, id: nat)
    requires Inv(w) && id < |Source(w, s).outbox|
    ensures Inv(FoldOnce(w, s, id))
  {
    if IsApplied(w.applied, s, id) {
      MarkedKeeps(w, s, id);
    } else {
      FoldedKeeps(w, s, DeliveryAt(w, s, id));
      MarkedKeeps(Folded(w, s, DeliveryAt(w, s, id)), s, id);
    }
  }

  lemma FoldOnceMarks(w: World, s: Service, id: nat)
    requires id < |Source(w, s).outbox|
    ensures var o, v := Source(w, s).outbox, FoldOnce(w, s, id);
            && Source(v, s).outbox == o[id := o[id].(applied := true)]
            && w.applied <= v.applied
            && |v.applied| == |w.applied| + if IsApplied(w.applied, s, id) then 0 else 1
  {
  }

  lemma {:induction false} FoldAllKeeps(w: World, s: Service, ids: seq<nat>)
    requires Inv(w) && Within(ids, |Source(w, s).outbox|)
    ensures Inv(FoldAll(w, s, ids))
  {
    if |ids| > 0 {
      FoldAllKeeps(w, s, ids[..|ids| - 1]);
      FoldOnceKeeps(FoldAll(w, s, ids[..|ids| - 1]), s, ids[|ids| - 1]);
    }
  }

  lemma {:induction false} FoldAllGrows(w: World, s: Service, ids: seq<nat>)
    requires Within(ids, |Source(w, s).outbox|)
    ensures var v := FoldAll(w, s, ids);
            && SameEvents(Source(w, s).outbox, Source(v, s).outbox)
            && Source(v, Other(s)) == Source(w, Other(s)) && w.applied <= v.applied
  {
    if |ids| > 0 {
      FoldAllGrows(w, s, ids[..|ids| - 1]);
      FoldOnceMarks(FoldAll(w, s, ids[..|ids| - 1]), s, ids[|ids| - 1]);
    }
  }

  ghost predicate AllMarked(outbox: seq<S.OutboxRow>, ids: seq<nat>) {
    forall i :: 0 <= i < |ids| ==> ids[i] < |outbox| && outbox[ids[i]].applied
  }

  lemma OneMoreMarked(outbox: seq<S.OutboxRow>, ids: seq<nat>)
    requires |ids| > 0 && AllMarked(outbox, ids[..|ids| - 1]) && ids[|ids| - 1] < |outbox|
    ensures AllMarked(outbox[ids[|ids| - 1] := outbox[ids[|ids| - 1]].(applied := true)], ids)
  {
    var front := ids[..|ids| - 1];
    forall i | 0 <= i < |front| ensures ids[i] < |outbox| && outbox[ids[i]].applied { assert ids[i] == front[i]; }
  }

  lemma {:induction false} FoldAllMarks(w: World, s: Service, ids: seq<nat>)
    requires Within(ids, |Source(w, s).outbox|)
    ensures AllMarked(Source(FoldAll(w, s, ids), s).outbox, ids)
  {
    if |ids| > 0 {
      var v := FoldAll(w, s, ids[..|ids| - 1]);
      FoldAllMarks(w, s, ids[..|ids| - 1]);
      FoldOnceMarks(v, s, ids[|ids| - 1]);
      OneMoreMarked(Source(v, s).outbox, ids);
    }
  }

  function Other(s: Service): Service { if s.Billing? then Ledger else Billing }
  function Name(s: Service): string { if s.Billing? then "billing" else "ledger" }
  function SourceNamed(name: string): Service { if name == "billing" then Billing else Ledger }

  lemma SourceNamedBack(s: Service)
    ensures SourceNamed(Name(s)) == s
  {
  }

  predicate InScope(c: Option<string>, o: S.OutboxRow) { c.Some? ==> o.caseId == c.value }

  /** Folding the sources one after another, each over the listing it gives when its turn comes.
      A source named twice has nothing left to list, as if it were named once. */
  function FoldNames(w: World, c: Option<string>, names: seq<string>): World {
    if |names| == 0 then w
    else
      var v := FoldNames(w, c, names[..|names| - 1]);
      var s := SourceNamed(names[|names| - 1]);
      FoldAll(v, s, S.Unapplied(Source(v, s).outbox, c))
  }

  lemma {:induction false} FoldNamesKeeps(w: World, c: Option<string>, names: seq<string>)
    requires Inv(w)
    ensures Inv(FoldNames(w, c, names))
  {
    if |names| > 0 {
      FoldNamesKeeps(w, c, names[..|names| - 1]);
      var v := FoldNames(w, c, names[..|names| - 1]);
      var s := SourceNamed(names[|names| - 1]);
      FoldAllKeeps(v, s, S.Unapplied(Source(v, s).outbox, c));
    }
  }

  ghost predicate MarkedInScope(c: Option<string>, outbox: seq<S.OutboxRow>) {
    forall id: nat :: id < |outbox| && InScope(c, outbox[id]) ==> outbox[id].applied
  }

  lemma UnappliedMarked(w: World, s: Service, c: Option<string>)
    ensures MarkedInScope(c, Source(FoldAll(w, s, S.Unapplied(Source(w, s).outbox, c)), s).outbox)
  {
    var ids := S.Unapplied(Source(w, s).outbox, c);
    FoldAllGrows(w, s, ids);
    FoldAllMarks(w, s, ids);
    var before, after := Source(w, s).outbox, Source(FoldAll(w, s, ids), s).outbox;
    forall id: nat | id < |after| && InScope(c, after[id]) ensures after[id].applied {
      if !before[id].applied {
        assert id in ids;
        var k :| 0 <= k < |ids| && ids[k] == id;
      }
    }
  }

  lemma {:induction false} FoldNamesSame(w: World, c: Option<string>, names: seq<string>, s: Service)
    ensures SameEvents(Source(w, s).outbox, Source(FoldNames(w, c, names), s).outbox)
  {
    if |names| > 0 {
      var m := FoldNames(w, c, names[..|names| - 1]);
      var last := SourceNamed(names[|names| - 1]);
      FoldNamesSame(w, c, names[..|names| - 1], s);
      FoldAllGrows(m, last, S.Unapplied(Source(m, last).outbox, c));
    }
  }

  lemma {:induction false} FoldNamesMarks(w: World, c: Option<string>, names: seq<string>)
    ensures forall i :: 0 <= i < |names| ==>
              MarkedInScope(c, Source(FoldNames(w, c, names), SourceNamed(names[i])).outbox)
  {
    if |names| > 0 {
      var front := names[..|names| - 1];
      FoldNamesMarks(w, c, front);
      var m := FoldNames(w, c, front);
      var s := SourceNamed(names[|names| - 1]);
      FoldAllGrows(m, s, S.Unapplied(Source(m, s).outbox, c));
      UnappliedMarked(m, s, c);
      var v := FoldNames(w, c, names);
      forall i | 0 <= i < |names| ensures MarkedInScope(c, Source(v, SourceNamed(names[i])).outbox) {
        if i < |front| && SourceNamed(names[i]) == Other(s) {
          assert MarkedInScope(c, Source(m, SourceNamed(front[i])).outbox);
        }
      }
    }
  }

  lemma FoldNamesDrains(w: World, scope: Option<string>, names: seq<string>, c: string)
    requires Inv(w) && "billing" in names && "ledger" in names && (scope.Some? ==> scope.value == c)
    ensures Drained(FoldNames(w, scope, names), c)
  {
    var v := FoldNames(w, scope, names);
    FoldNamesKeeps(w, scope, names);
    FoldNamesMarks(w, scope, names);
    forall s ensures MarkedInScope(scope, Source(v, s).outbox) {
      var i :| 0 <= i < |names| && names[i] == Name(s);
      SourceNamedBack(s);
    }
    assert MarksTrue(v);
  }

  lemma PublishedSame(w: World, v: World, c: string, count: bool)
    requires SameEvents(w.billing.outbox, v.billing.outbox) && SameEvents(w.ledger.outbox, v.ledger.outbox)
    ensures Published(v, c, count) == Published(w, c, count)
  {
    SumEq(w.billing.outbox, OutboxWeight(c, count), v.billing.outbox, OutboxWeight(c, count));
    SumEq(w.ledger.outbox, OutboxWeight(c, count), v.ledger.outbox, OutboxWeight(c, count));
  }

  /** A projector that runs to its end leaves every event in its scope, one case or all of them, in
      applied_events, whatever the order it takes the sources in, and each case of its scope projected
      at exactly what was created. */
  lemma FoldingDrains(w: World, scope: Option<string>, names: seq<string>, c: string, count: bool)
    requires Inv(w) && StoresTrue(w) && "billing" in names && "ledger" in names
    requires scope.Some? ==> scope.value == c
    ensures Projected(FoldNames(w, scope, names).projection, c, count) == Created(w, c, count)
  {
    var v := FoldNames(w, scope, names);
    FoldNamesKeeps(w, scope, names);
    FoldNamesDrains(w, scope, names, c);
    DrainedProjectsPublished(v, c, count);
    FoldNamesSame(w, scope, names, Billing);
    FoldNamesSame(w, scope, names, Ledger);
    PublishedSame(w, v, c, count);
    PublishedIsCreated(w, c, count);
  }

  /** Only the named sources are folded, and only their events in scope: nothing else is marked, and no
      other case's projection moves. */
  ghost predicate OnlyInScope(w: World, v: World, scope: Option<string>) {
    && (forall s, id: nat :: id < |Source(w, s).outbox| && !InScope(scope, Source(w, s).outbox[id]) ==>
          id < |Source(v, s).outbox| && Source(v, s).outbox[id] == Source(w, s).outbox[id])
    && (forall c, count :: scope.Some? && scope.value != c ==>
          Projected(v.projection, c, count) == Projected(w.projection, c, count))
  }

  lemma FoldOnceInScope(w: World, s: Service, id: nat, scope: Option<string>)
    requires id < |Source(w, s).outbox| && InScope(scope, Source(w, s).outbox[id])
    ensures OnlyInScope(w, FoldOnce(w, s, id), scope)
  {
  }

  lemma {:induction false} FoldAllInScope(w: World, s: Service, ids: seq<nat>, scope: Option<string>)
    requires Within(ids, |Source(w, s).outbox|)
    requires forall i :: 0 <= i < |ids| ==> InScope(scope, Source(w, s).outbox[ids[i]])
    ensures OnlyInScope(w, FoldAll(w, s, ids), scope)
  {
    if |ids| > 0 {
      var front, last := ids[..|ids| - 1], ids[|ids| - 1];
      FoldAllInScope(w, s, front, scope);
      FoldAllGrows(w, s, front);
      FoldOnceInScope(FoldAll(w, s, front), s, last, scope);
    }
  }

  ghost predicate NamesNone(names: seq<string>, s: Service) {
    forall i :: 0 <= i < |names| ==> SourceNamed(names[i]) != s
  }

  lemma {:induction false} FoldAllAppliesItsOwn(w: World, s: Service, ids: seq<nat>, id: nat)
    requires Within(ids, |Source(w, s).outbox|)
    ensures IsApplied(FoldAll(w, s, ids).applied, Other(s), id) <==> IsApplied(w.applied, Other(s), id)
  {
    if |ids| > 0 {
      var v, last := FoldAll(w, s, ids[..|ids| - 1]), ids[|ids| - 1];
      FoldAllAppliesItsOwn(w, s, ids[..|ids| - 1], id);
      if !IsApplied(v.applied, s, last) {
        var d := DeliveryAt(v, s, last);
        AppendApplied(v.applied, Applied(s, d.id, d.caseId, d.amount));
      }
    }
  }

  /** A projector does its work and no other: events out of its scope, and sources it was not told to
      fold, are left exactly as they were, and so is the projection of every other case. */
  lemma {:induction false} FoldNamesInScope(w: World, scope: Option<string>, names: seq<string>, s: Service)
    ensures OnlyInScope(w, FoldNames(w, scope, names), scope)
    ensures NamesNone(names, s) ==>
              Source(FoldNames(w, scope, names), s) == Source(w, s)
              && forall id: nat ::
                   IsApplied(FoldNames(w, scope, names).applied, s, id) <==> IsApplied(w.applied, s, id)
  {
    if |names| > 0 {
      var front := names[..|names| - 1];
      var m, last := FoldNames(w, scope, front), SourceNamed(names[|names| - 1]);
      FoldNamesInScope(w, scope, front, s);
      FoldNamesSame(w, scope, front, Billing);
      FoldNamesSame(w, scope, front, Ledger);
      FoldAllInScope(m, last, S.Unapplied(Source(m, last).outbox, scope), scope);
      FoldAllGrows(m, last, S.Unapplied(Source(m, last).outbox, scope));
      if NamesNone(names, s) {
        forall id: nat ensures IsApplied(FoldNames(w, scope, names).applied, s, id) <==> IsApplied(w.applied, s, id) {
          FoldAllAppliesItsOwn(m, last, S.Unapplied(Source(m, last).outbox, scope), id);
        }
      }
    }
  }

  /** The sources are folded in the order they are named. */
  lemma {:induction false} FoldsInOrder(w: World, scope: Option<string>, first: seq<string>, rest: seq<string>)
    ensures FoldNames(w, scope, first + rest) == FoldNames(FoldNames(w, scope, first), scope, rest)
  {
    if |rest| == 0 {
      assert first + rest == first;
    } else {
      assert (first + rest)[..|first + rest| - 1] == first + rest[..|rest| - 1];
      FoldsInOrder(w, scope, first, rest[..|rest| - 1]);
    }
  }

  // --------------------------------------------------------------------------------- redelivery

  /** Both sources offer the events of a case again. */
  function Offered(w: World, c: string): World {
    var v := WithSource(w, Billing, S.Apply(w.billing, S.Redeliver(c)));
    WithSource(v, Ledger, S.Apply(w.ledger, S.Redeliver(c)))
  }

  lemma {:induction false} FoldingAppliedFoldsNothing(w: World, s: Service, ids: seq<nat>)
    requires Within(ids, |Source(w, s).outbox|)
    requires forall i :: 0 <= i < |ids| ==> IsApplied(w.applied, s, ids[i])
    ensures FoldAll(w, s, ids).applied == w.applied && FoldAll(w, s, ids).projection == w.projection
  {
    if |ids| > 0 {
      FoldingAppliedFoldsNothing(w, s, ids[..|ids| - 1]);
    }
  }

  lemma {:induction false} DrainedFoldsNothing(w: World, c: string, names: seq<string>)
    requires Drained(w, c)
    ensures FoldNames(w, Some(c), names).applied == w.applied
    ensures FoldNames(w, Some(c), names).projection == w.projection
  {
    if |names| > 0 {
      var front := names[..|names| - 1];
      var m, s := FoldNames(w, Some(c), front), SourceNamed(names[|names| - 1]);
      DrainedFoldsNothing(w, c, front);
      FoldNamesSame(w, Some(c), front, s);
      FoldingAppliedFoldsNothing(m, s, S.Unapplied(Source(m, s).outbox, Some(c)));
    }
  }

  lemma OfferedAgain(w: World, c: string, s: Service)
    ensures |Source(Offered(w, c), s).outbox| == |Source(w, s).outbox|
    ensures forall id: nat :: id < |Source(w, s).outbox| ==>
              var o := Source(w, s).outbox[id];
              Source(Offered(w, c), s).outbox[id] == if o.caseId == c then o.(applied := false) else o
    ensures Source(Offered(w, c), s).rows == Source(w, s).rows
  {
  }

  lemma OfferedKeeps(w: World, c: string)
    requires Inv(w) && StoresTrue(w)
    ensures Inv(Offered(w, c)) && StoresTrue(Offered(w, c))
  {
    var v := WithSource(w, Billing, S.Apply(w.billing, S.Redeliver(c)));
    SourceKeeps(w, Billing, S.Redeliver(c));
    SourceKeeps(v, Ledger, S.Redeliver(c));
    S.ApplyKeeps(w.billing, S.Redeliver(c));
    S.ApplyKeeps(w.ledger, S.Redeliver(c));
  }

  lemma OfferedFoldsToCreated(w: World, c: string, names: seq<string>, count: bool)
    requires Inv(w) && StoresTrue(w) && "billing" in names && "ledger" in names
    ensures Projected(FoldNames(Offered(w, c), Some(c), names).projection, c, count) == Created(w, c, count)
  {
    OfferedKeeps(w, c);
    FoldingDrains(Offered(w, c), Some(c), names, c, count);
    OfferedAgain(w, c, Billing);
    OfferedAgain(w, c, Ledger);
  }

  lemma OfferedDrainedFoldsNothing(w: World, c: string, names: seq<string>)
    requires Drained(w, c)
    ensures FoldNames(Offered(w, c), Some(c), names).applied == w.applied
    ensures FoldNames(Offered(w, c), Some(c), names).projection == w.projection
  {
    OfferedAgain(w, c, Billing);
    OfferedAgain(w, c, Ledger);
    DrainedFoldsNothing(Offered(w, c), c, names);
  }

  lemma OfferedIsMarkedAgain(w: World, c: string, names: seq<string>, s: Service, id: nat)
    requires "billing" in names && "ledger" in names
    requires id < |Source(w, s).outbox| && Source(w, s).outbox[id].caseId == c
    ensures var again := FoldNames(Offered(w, c), Some(c), names);
            id < |Source(again, s).outbox| && Source(again, s).outbox[id].applied
  {
    var v := Offered(w, c);
    OfferedAgain(w, c, s);
    FoldNamesMarks(v, Some(c), names);
    FoldNamesSame(v, Some(c), names, s);
    var i :| 0 <= i < |names| && names[i] == Name(s);
    SourceNamedBack(s);
    assert MarkedInScope(Some(c), Source(FoldNames(v, Some(c), names), SourceNamed(names[i])).outbox);
  }

  /** Redelivery: it puts every event of the case, marked or not, back on its source's list, and folding
      them counts nothing twice: the case is projected at exactly what was created, every event is marked,
      and if all had been folded already then applied_events and the projection are as they were. */
  lemma RedeliveryCountsNothingTwice(w: World, c: string, names: seq<string>)
    requires Reachable(w) && "billing" in names && "ledger" in names
    ensures var v := Offered(w, c);
            var again := FoldNames(v, Some(c), names);
            && (forall s, id: nat :: id in S.Unapplied(Source(v, s).outbox, Some(c)) <==>
                  id < |Source(w, s).outbox| && Source(w, s).outbox[id].caseId == c)
            && (forall s, id: nat :: id < |Source(w, s).outbox| && Source(w, s).outbox[id].caseId == c ==>
                  id < |Source(again, s).outbox| && Source(again, s).outbox[id].applied)
            && (forall count :: Projected(again.projection, c, count) == Created(w, c, count))
            && (Drained(w, c) ==> again.applied == w.applied && again.projection == w.projection)
  {
    ReachableInv(w);
    OfferedAgain(w, c, Billing);
    OfferedAgain(w, c, Ledger);
    forall s, id: nat | id < |Source(w, s).outbox| && Source(w, s).outbox[id].caseId == c
      ensures var again := FoldNames(Offered(w, c), Some(c), names);
              id < |Source(again, s).outbox| && Source(again, s).outbox[id].applied
    {
      OfferedIsMarkedAgain(w, c, names, s, id);
    }
    forall count
      ensures Projected(FoldNames(Offered(w, c), Some(c), names).projection, c, count) == Created(w, c, count)
    {
      OfferedFoldsToCreated(w, c, names, count);
    }
    if Drained(w, c) { OfferedDrainedFoldsNothing(w, c, names); }
  }

  class Projector {
    const billing: E.Service
    const ledger: E.Service
    const caseId: Option<string>       // the event sources are scoped to it
    var applied: seq<Applied>
    var projection: map<string, Row>

    ghost function World(): World
      reads this, billing, ledger
    {
      Projection.World(billing.State(), ledger.State(), applied, projection, map[])
    }

    constructor (billing: E.Service, ledger: E.Service, caseId: Option<string>)
      ensures this.billing == billing && this.ledger == ledger && this.caseId == caseId
      ensures applied == [] && projection == map[]
    {
      this.billing, this.ledger, this.caseId := billing, ledger, caseId;
      applied, projection := [], map[];
    }

    function SourceObject(s: Service): E.Service { if s.Billing? then billing else ledger }

    /** One event: folded unless it was already, then marked at its source. True if folded. */
    method ApplyEvent(s: Service, id: nat) returns (isNew: bool)
      requires billing != ledger && id < |SourceObject(s).outbox|
      modifies this, SourceObject(s)`outbox
      ensures World() == FoldOnce(old(World()), s, id)
      ensures isNew <==> !IsApplied(old(applied), s, id)
    {
      var src := SourceObject(s);
      isNew := !IsApplied(applied, s, id);
      if isNew {
        applied := applied + [Applied(s, id, src.outbox[id].caseId, src.outbox[id].amount)];
        projection := Upsert(projection, src.outbox[id].caseId, src.outbox[id].amount);
      }
      var found := src.MarkApplied(id);
    }

    /** Folds one source; the count is how many events applied_events gained. */
    method ApplySource(s: Service) returns (count: nat)
      requires billing != ledger
      modifies this, SourceObject(s)`outbox
      ensures World() == FoldAll(old(World()), s, S.Unapplied(old(SourceObject(s).outbox), caseId))
      ensures |applied| == |old(applied)| + count
    {
      var src := SourceObject(s);
      count := 0;
      var events := src.ListUnapplied(caseId);
      ghost var w := World();
      for i := 0 to |events|
        invariant World() == FoldAll(w, s, events[..i])
        invariant |applied| == |old(applied)| + count
      {
        FoldAllOne(w, s, events, i);
        FoldOnceMarks(World(), s, events[i]);
        var isNew := ApplyEvent(s, events[i]);
        if isNew {
          count := count + 1;
        }
      }
      assert events[..|events|] == events;
    }

    /** None is KeyError: `order` names a source that does not exist, and nothing was touched. */
    method ApplyPending(order: Option<seq<string>>) returns (r: Option<nat>)
      requires billing != ledger
      modifies this, billing`outbox, ledger`outbox
      ensures r.None? <==> order.Some? && exists name :: name in order.value && name !in {"billing", "ledger"}
      ensures r.None? ==> World() == old(World())
      ensures r.Some? ==>
                && World() == FoldNames(old(World()), caseId,
                                           if order.Some? then order.value else ["billing", "ledger"])
                && |applied| == |old(applied)| + r.value
    {
      var names := ["billing", "ledger"];
      if order.Some? {
        if exists name | name in order.value :: name !in {"billing", "ledger"} {
          return None;
        }
        names := order.value;
      }
      var count := 0;
      ghost var w := World();
      for i := 0 to |names|
        invariant World() == FoldNames(w, caseId, names[..i])
        invariant |applied| == |old(applied)| + count
      {
        assert names[..i + 1][..i] == names[..i];
        var n := ApplySource(SourceNamed(names[i]));
        count := count + n;
      }
      assert names[..|names|] == names;
      r := Some(count);
    }
  }
}
