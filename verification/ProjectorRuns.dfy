/** The uninterrupted projector is one run of the split machine, so what Projection proves of every
    run holds of what the projector object computes. */
module ProjectorRuns {
  import opened Base
  import opened Projection
  import S = Stores
  import K = CrmProjector

  lemma ExecOne(w: World, es: seq<Event>, e: Event)
    ensures Exec(w, es + [e]) == Apply(Exec(w, es), e)
  {
  }

  lemma {:induction false} ExecMore(w: World, es: seq<Event>, more: seq<Event>)
    ensures Exec(w, es + more) == Exec(Exec(w, es), more)
  {
    if |more| == 0 {
      assert es + more == es;
    } else {
      ExecMore(w, es, more[..|more| - 1]);
      ExecOne(w, es + more[..|more| - 1], more[|more| - 1]);
      assert es + more == (es + more[..|more| - 1]) + [more[|more| - 1]];
    }
  }

  lemma ReachableMore(w: World, es: seq<Event>)
    requires Reachable(w)
    ensures Reachable(Exec(w, es))
  {
    var before :| w == Exec(Start, before);
    ExecMore(Start, before, es);
  }

  function Delivered(w: World, s: Service, ids: seq<nat>): seq<Delivery>
    requires K.Within(ids, |Source(w, s).outbox|)
  {
    seq(|ids|, i requires 0 <= i < |ids| => K.DeliveryAt(w, s, ids[i]))
  }

  function Running(w: World, p: nat, pr: Projector): World { w.(projectors := w.projectors[p := pr]) }

  lemma CheckRuns(w: World, p: nat, s: Service, listing: seq<Delivery>, k: nat)
    requires k < |listing|
    ensures Apply(Running(w, p, Projector(s, listing, k, Next)), Check(p))
         == Running(w, p, Projector(s, listing, k, if IsApplied(w.applied, s, listing[k].id) then Marking else Fresh))
  {
  }

  lemma CommitRuns(w: World, p: nat, s: Service, listing: seq<Delivery>, k: nat)
    requires k < |listing| && !IsApplied(w.applied, s, listing[k].id)
    ensures Apply(Running(w, p, Projector(s, listing, k, Fresh)), Commit(p))
         == Running(Folded(w, s, listing[k]), p, Projector(s, listing, k, Marking))
  {
  }

  lemma MarkRuns(w: World, p: nat, s: Service, listing: seq<Delivery>, k: nat)
    requires k < |listing|
    ensures Apply(Running(w, p, Projector(s, listing, k, Marking)), Mark(p))
         == Running(Marked(w, s, listing[k].id), p, Projector(s, listing, k + 1, Next))
  {
  }

  /** Check, commit unless it was applied already, mark: one event, and on to the next. */
  lemma OneEventRuns(w: World, p: nat, s: Service, listing: seq<Delivery>, k: nat)
    requires k < |listing| && listing[k].id < |Source(w, s).outbox| && listing[k] == K.DeliveryAt(w, s, listing[k].id)
    ensures var v := Running(w, p, Projector(s, listing, k, Next));
            Apply(Apply(Apply(v, Check(p)), Commit(p)), Mark(p))
              == Running(K.FoldOnce(w, s, listing[k].id), p, Projector(s, listing, k + 1, Next))
  {
    CheckRuns(w, p, s, listing, k);
    if IsApplied(w.applied, s, listing[k].id) {
      MarkRuns(w, p, s, listing, k);
    } else {
      CommitRuns(w, p, s, listing, k);
      MarkRuns(Folded(w, s, listing[k]), p, s, listing, k);
    }
  }

  /** Two projectors that both saw an event not applied yet: the first to commit folds it, the second
      dies of the primary key without having folded or marked anything. */
  lemma SecondFolderDies(w: World, p: nat, q: nat)
    requires p != q && AtEvent(w, p, Fresh) && AtEvent(w, q, Fresh)
    requires var pr, qr := w.projectors[p], w.projectors[q];
             && pr.service == qr.service && pr.listing[pr.pos] == qr.listing[qr.pos]
             && !IsApplied(w.applied, pr.service, pr.listing[pr.pos].id)
    ensures var pr := w.projectors[p];
            var v := Apply(Apply(w, Commit(p)), Commit(q));
            && v == Goto(Folded(w, pr.service, pr.listing[pr.pos]), p, pr.pos, Marking).(projectors := v.projectors)
            && p in v.projectors && q !in v.projectors
  {
    var pr := w.projectors[p];
    var d := pr.listing[pr.pos];
    AppendApplied(w.applied, Applied(pr.service, d.id, d.caseId, d.amount));
  }

  function Steps(p: nat, n: nat): seq<Event> {
    if n == 0 then [] else Steps(p, n - 1) + [Check(p), Commit(p), Mark(p)]
  }

  lemma ExecThree(w: World, es: seq<Event>, a: Event, b: Event, c: Event)
    ensures Exec(w, es + [a, b, c]) == Apply(Apply(Apply(Exec(w, es), a), b), c)
  {
    ExecOne(w, es, a);
    ExecOne(w, es + [a], b);
    ExecOne(w, es + [a] + [b], c);
    assert es + [a] + [b] + [c] == es + [a, b, c];
  }

  lemma {:induction false} EventsRun(w: World, p: nat, s: Service, ids: seq<nat>, listing: seq<Delivery>, n: nat)
    requires K.Within(ids, |Source(w, s).outbox|) && n <= |ids| && listing == Delivered(w, s, ids)
    ensures Exec(Running(w, p, Projector(s, listing, 0, Next)), Steps(p, n))
         == Running(K.FoldAll(w, s, ids[..n]), p, Projector(s, listing, n, Next))
  {
    if n > 0 {
      var v := K.FoldAll(w, s, ids[..n - 1]);
      assert ids[..n][..n - 1] == ids[..n - 1];
      EventsRun(w, p, s, ids, listing, n - 1);
      K.FoldAllGrows(w, s, ids[..n - 1]);
      assert listing[n - 1] == K.DeliveryAt(v, s, ids[n - 1]);
      ExecThree(Running(w, p, Projector(s, listing, 0, Next)), Steps(p, n - 1), Check(p), Commit(p), Mark(p));
      OneEventRuns(v, p, s, listing, n - 1);
    }
  }

  lemma {:induction false} FoldingKeepsProjectors(w: World, s: Service, ids: seq<nat>)
    requires K.Within(ids, |Source(w, s).outbox|)
    ensures K.FoldAll(w, s, ids).projectors == w.projectors
  {
    if |ids| > 0 {
      FoldingKeepsProjectors(w, s, ids[..|ids| - 1]);
    }
  }

  lemma PollRuns(w: World, p: nat, s: Service, c: Option<string>)
    ensures Exec(w, [Poll(p, s, c)]) == Running(w, p, Projector(s, Listing(Source(w, s).outbox, c), 0, Next))
  {
  }

  lemma CrashRuns(w: World, p: nat, pr: Projector)
    requires p !in w.projectors
    ensures Apply(Running(w, p, pr), Crash(p)) == w
  {
  }

  lemma ListingDelivers(w: World, s: Service, c: Option<string>)
    ensures Listing(Source(w, s).outbox, c) == Delivered(w, s, S.Unapplied(Source(w, s).outbox, c))
  {
  }

  /** Folding one source to its end is a run of the split machine. */
  lemma FoldIsARun(w: World, s: Service, c: Option<string>, p: nat)
    requires p !in w.projectors
    ensures var ids := S.Unapplied(Source(w, s).outbox, c);
            Exec(w, [Poll(p, s, c)] + Steps(p, |ids|) + [Crash(p)]) == K.FoldAll(w, s, ids)
  {
    var ids := S.Unapplied(Source(w, s).outbox, c);
    var listing := Listing(Source(w, s).outbox, c);
    ListingDelivers(w, s, c);
    PollRuns(w, p, s, c);
    ExecMore(w, [Poll(p, s, c)], Steps(p, |ids|));
    EventsRun(w, p, s, ids, listing, |ids|);
    assert ids[..|ids|] == ids;
    ExecOne(w, [Poll(p, s, c)] + Steps(p, |ids|), Crash(p));
    FoldingKeepsProjectors(w, s, ids);
    CrashRuns(K.FoldAll(w, s, ids), p, Projector(s, listing, |ids|, Next));
  }

  lemma {:induction false} FoldNamesReachable(w: World, c: Option<string>, names: seq<string>)
    requires Reachable(w) && w.projectors == map[]
    ensures Reachable(K.FoldNames(w, c, names)) && K.FoldNames(w, c, names).projectors == map[]
  {
    if |names| > 0 {
      FoldNamesReachable(w, c, names[..|names| - 1]);
      var v := K.FoldNames(w, c, names[..|names| - 1]);
      var s := K.SourceNamed(names[|names| - 1]);
      var ids := S.Unapplied(Source(v, s).outbox, c);
      FoldIsARun(v, s, c, 0);
      ReachableMore(v, [Poll(0, s, c)] + Steps(0, |ids|) + [Crash(0)]);
      FoldingKeepsProjectors(v, s, ids);
    }
  }
}
