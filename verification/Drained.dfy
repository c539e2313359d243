/** Exactly which clusters drain. */
module Drained {
  import opened Basics
  import opened Identity
  import opened Cluster
  import opened Programs
  import opened Network
  import opened Wakeups
  import opened Quiescence
  import opened Stages
  import opened Frames
  import opened Drain
  import Flips
  import Handshake
  import Safety

  /******* An upload that never comes *******/

  /** The image waits for an upload, and the bucket has nothing for it. */
  predicate Pending(s: Store, id: Id) {
    id in s.objects && Building(s, id) && s.objects[id].spec.build.value.upload.Some? && id !in s.blobs
  }

  lemma PendingIsNotQuiet(s: Store, id: Id)
    requires Pending(s, id) && SchemaOk(s.objects[id].spec)
    ensures !Quiet(s, BuilderGet(id))
  {
    hide ImageUrl, Quiet;
    var o := s.objects[id];
    var upload := o.spec.build.value.upload.value;
    if upload.request == o.status.upload.request {
      StuckIsNotQuiet(s, Ticket(Builder, id));
    } else {
      Handshake.BuilderSigns(s, id, upload);
    }
  }

  lemma PendingStays(s: Store, t: Ticket, id: Id)
    requires Pending(s, id) && SchemaOk(s.objects[id].spec)
    ensures Pending(Reconcile(s, Start(t)).store, id)
  {
    hide Reconcile, ImageUrl, View;
    var s' := Reconcile(s, Start(t)).store;
    TurnFramed(s, t);
    assert ObjectFramed(t, id, s.objects[id], s'.objects[id]);
    if t == Ticket(Builder, id) {
      Handshake.BuilderSigns(s, id, s.objects[id].spec.build.value.upload.value);
    } else {
      OnlyTwo(t);
    }
  }

  /******* Two controllers at odds *******/

  /** A regular object whose two controllers contradict each other. */
  predicate AtOdds(s: Store, id: Id) {
    id in s.objects && Regular(s, id) && Clash(s, id)
  }

  /** A build controller that does not see its Job finished changes no spec, and no Job is finished afterwards. */
  lemma Unfinished(s: Store, id: Id)
    requires id in s.objects && Building(s, id) && s.objects[id].spec.build.value.upload.None?
    requires s.objects[id].spec.build.value.git.Some? && !BuildFinished(s, id)
    ensures var s' := Reconcile(s, BuilderGet(id)).store;
            id in s'.objects && s'.objects[id].spec == s.objects[id].spec && s'.cfg == s.cfg && !BuildFinished(s', id)
  {
    hide DesiredImage, Reconcile;
    var o := s.objects[id];
    var pc := BuildJobGet(id, o, FromGit);
    assert Next(s, BuilderGet(id)) == pc;
    Silently(s, BuilderGet(id));
    Silently(s, pc);
    if JobId(id, BuildJob) !in s.jobs {
      CreatesPending(s, id, o);
    } else if s.jobs[JobId(id, BuildJob)].image != DesiredImage(s.cfg, id, o.spec) {
      DeletesStale(s, id, o, s.jobs[JobId(id, BuildJob)]);
    } else {
      assert Next(s, pc) == BuildPending(id, o);
      PendingPublished(s, id, o);
    }
  }

  lemma PendingPublished(s: Store, id: Id, o: Object)
    requires id in s.objects && s.objects[id] == o && !BuildFinished(s, id)
    ensures var s' := Reconcile(s, BuildPending(id, o)).store;
            id in s'.objects && s'.objects[id].spec == o.spec && s'.cfg == s.cfg && !BuildFinished(s', id)
  {
    hide DesiredImage, Reconcile, BuildPendingStatus;
    ReconcileNext(s, BuildPending(id, o));
    Returned(Serve(s, CallOf(s.cfg, BuildPending(id, o))).store, Settle);
    Handshake.PublishNext(s, id, o, BuildPendingStatus(o));
  }

  lemma CreatesPending(s: Store, id: Id, o: Object)
    requires id in s.objects && s.objects[id] == o && JobId(id, BuildJob) !in s.jobs
    ensures var s' := Reconcile(s, BuildJobCreate(id, o, FromGit)).store;
            id in s'.objects && s'.objects[id].spec == o.spec && s'.cfg == s.cfg && !BuildFinished(s', id)
  {
    hide DesiredImage, Reconcile, BuildPendingStatus;
    var pc := BuildJobCreate(id, o, FromGit);
    var s1 := Serve(s, CallOf(s.cfg, pc)).store;
    ReconcileNext(s, pc);
    assert Next(s, pc) == BuildPending(id, o);
    PendingPublished(s1, id, o);
  }

  lemma DeletesStale(s: Store, id: Id, o: Object, job: Job)
    requires id in s.objects && s.objects[id] == o && JobId(id, BuildJob) in s.jobs
    ensures var s' := Reconcile(s, BuildJobDelete(id, o, job)).store;
            id in s'.objects && s'.objects[id].spec == o.spec && s'.cfg == s.cfg && !BuildFinished(s', id)
  {
    hide DesiredImage, Reconcile, Quiet, ModelBegin;
    var pc := BuildJobDelete(id, o, job);
    var s1 := Serve(s, CallOf(s.cfg, pc)).store;
    ReconcileNext(s, pc);
    assert Next(s, pc) == BuildJobRecreate(id, o, job);
    assert Next(s1, BuildJobRecreate(id, o, job)) == Return(Retry);
    Silently(s1, BuildJobRecreate(id, o, job));
    Returned(s1, Retry);
  }

  lemma OddsStay(s: Store, t: Ticket, id: Id)
    requires AtOdds(s, id)
    ensures AtOdds(Reconcile(s, Start(t)).store, id)
  {
    hide Reconcile, ImageUrl, View, JobResult, Constructible, References;
    var s' := Reconcile(s, Start(t)).store;
    TurnFramed(s, t);
    assert ObjectFramed(t, id, s.objects[id], s'.objects[id]);
    assert SameAt(s.jobs, s'.jobs, JobId(id, RunJob)) by {
      assert Spared(s, t, JobId(id, RunJob));
    }
    if t == Ticket(Builder, id) {
      Unfinished(s, id);
    } else {
      OnlyTwo(t);
      assert SameAt(s.jobs, s'.jobs, JobId(id, BuildJob)) by {
        assert Spared(s, t, JobId(id, BuildJob));
      }
    }
  }

  /** Where the build controller has nothing to say, the runner has. */
  lemma OddsAreNotQuiet(s: Store, id: Id)
    requires AtOdds(s, id)
    ensures !Quiet(s, BuilderGet(id)) || !Quiet(s, RunnerGet(id))
  {
    hide DesiredImage, Quiet, Reconcile, JobResult, Constructible, References;
    var o := s.objects[id];
    if Quiet(s, BuilderGet(id)) && Quiet(s, RunnerGet(id)) {
      QuietNext(s, BuilderGet(id));
      assert Next(s, BuilderGet(id)) == BuildJobGet(id, o, FromGit);
      GitQuiet(s, id, o);
      assert Flips.Flipping(s, id, false);
      Flips.FlipUp(s, id);
      QuietStays(s, RunnerGet(id));
    }
  }

  /******* Draining *******/

  /** Every object is regular, and the Pods of Notebooks and Servers can be constructed. */
  ghost predicate AllOrdinary(s: Store) {
    forall id :: id in s.objects ==> Regular(s, id) && (Trained(id) || Constructible(s.cfg, s.objects[id].spec))
  }

  /** No pending upload is missing from the bucket, and no old image is contested. */
  ghost predicate Unblocked(s: Store) {
    forall id :: !Pending(s, id) && !AtOdds(s, id)
  }

  lemma {:induction false} BlockedAlong(cfg: Config, steps: seq<Step>, run: nat -> Plant, id: Id, n: nat)
    requires Legal(Initial(cfg), steps) && TurnRun(run)
    requires var w := Execute(Initial(cfg), steps);
             w.active == map[] && AllSourced(w.store) && run(0) == Plant(w.store, w.dirty)
    requires Pending(run(0).store, id) || AtOdds(run(0).store, id)
    ensures Pending(run(n).store, id) || AtOdds(run(n).store, id)
  {
    hide AllSourced, Pending, AtOdds, Apply, Reconcile;
    if n > 0 {
      BlockedAlong(cfg, steps, run, id, n - 1);
      assert Turns(run(n - 1), run(n - 1 + 1));
      if run(n - 1).dirty != {} {
        var t :| t in run(n - 1).dirty && run(n) == Turn(run(n - 1), t);
        if AtOdds(run(n - 1).store, id) {
          OddsStay(run(n - 1).store, t, id);
        } else {
          var more := RunIsReachable(cfg, steps, run, n - 1);
          ReachableSchema(cfg, more);
          PendingThere(run(n - 1).store, id);
          PendingStays(run(n - 1).store, t, id);
        }
      }
    }
  }

  lemma PendingThere(s: Store, id: Id)
    requires Pending(s, id)
    ensures id in s.objects
  {
  }

  lemma ReachableSchema(cfg: Config, steps: seq<Step>)
    requires Legal(Initial(cfg), steps)
    ensures var s := Execute(Initial(cfg), steps).store; forall id :: id in s.objects ==> SchemaOk(s.objects[id].spec)
  {
    hide Apply, Legal, Execute, SchemaOk;
    Safety.Reachable(cfg, steps);
    SafeIsTidy(Execute(Initial(cfg), steps));
  }

  lemma BlockedOwesNothing(w: World, id: Id)
    requires w.owed <= w.store.blobs.Keys && (Pending(w.store, id) || AtOdds(w.store, id))
    ensures !Owing(w, Ticket(Builder, id))
  {
    hide DesiredImage, RunDone, BuildFinished;
  }

  /** A blocked object keeps one of its keys queued for ever. */
  lemma BlockedNeverEmpties(cfg: Config, steps: seq<Step>, run: nat -> Plant, id: Id, n: nat)
    requires Legal(Initial(cfg), steps) && TurnRun(run)
    requires var w := Execute(Initial(cfg), steps);
             w.active == map[] && AllSourced(w.store) && run(0) == Plant(w.store, w.dirty)
    requires Pending(run(0).store, id) || AtOdds(run(0).store, id)
    ensures Ticket(Builder, id) in run(n).dirty || Ticket(Runner, id) in run(n).dirty
  {
    hide AllSourced, Pending, AtOdds, Apply, Reconcile, Legal, Execute, Quiet;
    BlockedAlong(cfg, steps, run, id, n);
    var more := RunIsReachable(cfg, steps, run, n);
    NothingOwedUnstored(cfg, more);
    BlockedOwesNothing(Execute(Initial(cfg), more), id);
    NoLostWakeups(cfg, more, Ticket(Builder, id));
    NoLostWakeups(cfg, more, Ticket(Runner, id));
    if AtOdds(run(n).store, id) {
      OddsAreNotQuiet(run(n).store, id);
    } else {
      ReachableSchema(cfg, more);
      PendingThere(run(n).store, id);
      PendingIsNotQuiet(run(n).store, id);
    }
  }

  lemma OrdinaryIsSourced(s: Store)
    requires AllOrdinary(s)
    ensures AllSourced(s)
  {
    hide Stale, References;
  }

  lemma UnblockedIsProvided(s: Store)
    requires AllOrdinary(s) && Unblocked(s)
    ensures AllRegular(s) && AllProvided(s)
  {
    hide Stale, References, Building, BuildFinished, RunDone;
    forall id | id in s.objects ensures Regular(s, id) && !Clash(s, id) && Provided(s, id) {
      assert !Pending(s, id) && !AtOdds(s, id);
    }
  }

  /** From any reachable state with no reconcile in flight, in a cluster of ordinary objects: a run of
      turns reaches empty queues if and only if every pending upload is already in the bucket and no old image left
      beside an unfinished build belongs to a finished Job. Then the cluster is at rest; otherwise a key of the blocked
      object stays queued for ever, whichever keys are taken. */
  lemma DrainsExactly(cfg: Config, steps: seq<Step>, run: nat -> Plant)
    requires Legal(Initial(cfg), steps) && TurnRun(run)
    requires var w := Execute(Initial(cfg), steps);
             w.active == map[] && AllOrdinary(w.store) && run(0) == Plant(w.store, w.dirty)
    ensures (exists n: nat :: run(n).dirty == {}) <==> Unblocked(run(0).store)
    ensures forall n: nat :: run(n).dirty == {} ==> AtRest(run(n).store)
  {
    hide AllOrdinary, AllSourced, AllRegular, AllProvided, Pending, AtOdds, Apply, Turn, Quiet, AtRest;
    OrdinaryIsSourced(run(0).store);
    if Unblocked(run(0).store) {
      UnblockedIsProvided(run(0).store);
      var end := DrainsToRest(cfg, steps, run);
    } else {
      var id :| Pending(run(0).store, id) || AtOdds(run(0).store, id);
      forall n: nat ensures run(n).dirty != {} {
        BlockedNeverEmpties(cfg, steps, run, id, n);
      }
    }
    forall n: nat | run(n).dirty == {} ensures AtRest(run(n).store) {
      var more := RunIsReachable(cfg, steps, run, n);
      EmptyQueuesAtRest(cfg, more);
    }
  }
}
