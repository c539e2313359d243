/** The object whose readiness flips for ever. */
module Flips {
  import opened Basics
  import opened Identity
  import opened Cluster
  import opened Programs
  import opened Quiescence
  import opened Idempotence
  import opened Drain
  import BucketUrls

  /******* Readiness that flips for ever *******/

  /** A trained object with a Git build, an old image that was not cleared, a build Job that has not finished and a
      finished modeller or loader Job. */
  ghost predicate Flipping(s: Store, id: Id, ready: bool) {
    id in s.objects && Trained(id) && Building(s, id)
    && var o := s.objects[id];
       o.spec.image != "" && o.spec.build.value.upload.None? && o.spec.build.value.git.Some?
       && Constructible(s.cfg, o.spec) && References(id, o.spec) == {} && o.status.ready == ready
       && JobId(id, BuildJob) in s.jobs
       && BuildJobSeen(s.cfg, id, o, s.jobs[JobId(id, BuildJob)]) == BuildPending(id, o)
       && JobId(id, RunJob) in s.jobs && JobResult(s.jobs[JobId(id, RunJob)].conditions).complete
  }

  lemma PublishDone(s: Store, id: Id, o: Object, st: Status)
    requires id in s.objects && s.objects[id] == o && o.status != st
    ensures Reconcile(s, Publish(id, o, st, Settle)) ==
            var s' := Revise(s, id, o.spec, st, o.stamp); Completion(s', Wake(s', ObjectRef(id)), Settle)
  {
    hide Wake;
    var s' := Revise(s, id, o.spec, st, o.stamp);
    var done := Reconcile(s', Return(Settle));
    assert done == Completion(s', {}, Settle);
    assert Next(s, Publish(id, o, st, Settle)) == Return(Settle);
    assert Woken(s, PutStatus(id, o.version, st)) == Wake(s', ObjectRef(id));
  }

  lemma RunJobTail(s: Store, id: Id, o: Object)
    requires JobId(id, RunJob) in s.jobs && JobResult(s.jobs[JobId(id, RunJob)].conditions).complete
    ensures Reconcile(s, RunJobCreate(id, o)) ==
            Reconcile(s, Publish(id, o, CompletionStatus(s.cfg, id, o, true, JobComplete), Settle))
  {
    hide BucketUrls.Print, ArtifactUrl, Reconcile;
    Silently(s, RunJobCreate(id, o));
    assert Next(s, RunJobCreate(id, o)) == RunJobGet(id, o);
    Silently(s, RunJobGet(id, o));
  }

  lemma FlipsTo(s: Store, id: Id, st: Status)
    requires id in s.objects && Flipping(s, id, s.objects[id].status.ready)
    ensures var o := s.objects[id]; Flipping(Revise(s, id, o.spec, st, o.stamp), id, st.ready)
  {
    hide Constructible, JobResult, BuildJobSeen;
    var o := s.objects[id];
    var s' := Revise(s, id, o.spec, st, o.stamp);
    SameDesired(s.cfg, id, o, s'.objects[id]);
    SeenAgain(s.cfg, id, o, s'.objects[id], s.jobs[JobId(id, BuildJob)]);
  }

  lemma SeenAgain(cfg: Config, id: Id, o: Object, o': Object, job: Job)
    requires Alike(o, o') && BuildJobSeen(cfg, id, o, job) == BuildPending(id, o)
    ensures BuildJobSeen(cfg, id, o', job) == BuildPending(id, o')
  {
    hide ImageUrl;
    SameDesired(cfg, id, o, o');
  }

  /** The runner finds its old Job complete and marks the object Ready, which wakes the build controller. */
  lemma FlipUp(s: Store, id: Id)
    requires Flipping(s, id, false)
    ensures var done := Reconcile(s, RunnerGet(id));
            Flipping(done.store, id, true) && Ticket(Builder, id) in done.woken && done.outcome == Settle
  {
    hide Flipping, Reconcile, BucketUrls.Print, ArtifactUrl;
    FlipPath(s, id);
    var o := s.objects[id];
    Silently(s, RunnerGet(id));
    if id.kind == Model {
      RunJobTail(s, id, o);
      FlipPublish(s, id, o, CompletionStatus(s.cfg, id, o, true, JobComplete));
    } else {
      FlipDataset(s, id, o);
    }
  }

  lemma FlipPath(s: Store, id: Id)
    requires Flipping(s, id, false)
    ensures id in s.objects && (id.kind == Model || id.kind == Dataset) && !s.objects[id].status.ready
    ensures Next(s, RunnerGet(id)) ==
            if id.kind == Model then RunJobCreate(id, s.objects[id]) else DataUrlPut(id, s.objects[id])
    ensures JobId(id, RunJob) in s.jobs && JobResult(s.jobs[JobId(id, RunJob)].conditions).complete
  {
    hide DesiredImage, JobResult, Constructible, BuildJobSeen;
    var spec := s.objects[id].spec;
    NoReferences(id, spec);
  }

  lemma FlipPublish(s: Store, id: Id, o: Object, st: Status)
    requires id in s.objects && s.objects[id] == o && Flipping(s, id, o.status.ready) && st.ready != o.status.ready
    ensures var done := Reconcile(s, Publish(id, o, st, Settle));
            Flipping(done.store, id, st.ready) && done.outcome == Settle
            && Ticket(Builder, id) in done.woken && Ticket(Runner, id) in done.woken
  {
    hide Flipping, Reconcile;
    PublishDone(s, id, o, st);
    FlipsTo(s, id, st);
  }

  lemma FlipDataset(s: Store, id: Id, o: Object)
    requires Flipping(s, id, false) && id in s.objects && s.objects[id] == o && id.kind == Dataset
    ensures var done := Reconcile(s, DataUrlPut(id, o));
            Flipping(done.store, id, true) && Ticket(Builder, id) in done.woken && done.outcome == Settle
  {
    hide Flipping, BucketUrls.Print, ArtifactUrl;
    var st := WithUrl(s.cfg, id, o.status);
    var s1 := Serve(s, CallOf(s.cfg, DataUrlPut(id, o))).store;
    FlipPath(s, id);
    if st != o.status {
      FlipsTo(s, id, st);
      FlipPath(s1, id);
    }
    var o1 := s1.objects[id];
    assert Next(s, DataUrlPut(id, o)) == RunJobCreate(id, o1);
    RunJobTail(s1, id, o1);
    FlipPublish(s1, id, o1, CompletionStatus(s1.cfg, id, o1, true, JobComplete));
  }

  /** The build controller finds its Job unfinished and takes Ready away, which wakes the runner. */
  lemma FlipDown(s: Store, id: Id)
    requires Flipping(s, id, true)
    ensures var done := Reconcile(s, BuilderGet(id));
            Flipping(done.store, id, false) && Ticket(Runner, id) in done.woken && done.outcome == Settle
  {
    hide Flipping, Reconcile, DesiredImage;
    FlipBuildPath(s, id);
    var o := s.objects[id];
    Silently(s, BuilderGet(id));
    Silently(s, BuildJobGet(id, o, FromGit));
    FlipPublish(s, id, o, BuildPendingStatus(o));
  }

  lemma FlipBuildPath(s: Store, id: Id)
    requires Flipping(s, id, true)
    ensures id in s.objects && s.objects[id].status.ready
    ensures Next(s, BuilderGet(id)) == BuildJobGet(id, s.objects[id], FromGit)
    ensures Next(s, BuildJobGet(id, s.objects[id], FromGit)) == BuildPending(id, s.objects[id])
  {
    hide DesiredImage, JobResult, Constructible, BuildJobSeen;
  }

  function FlipRun(p: Plant, id: Id, n: nat): Plant {
    if n == 0 then p
    else
      var before := FlipRun(p, id, n - 1);
      Turn(before, Ticket(if (n - 1) % 2 == 0 then Runner else Builder, id))
  }

  lemma {:induction false} FlipAt(p: Plant, id: Id, n: nat)
    requires Flipping(p.store, id, false) && Ticket(Runner, id) in p.dirty
    ensures var q := FlipRun(p, id, n);
            Flipping(q.store, id, n % 2 == 1) && Ticket(if n % 2 == 0 then Runner else Builder, id) in q.dirty
  {
    hide Flipping, Reconcile;
    if n > 0 {
      FlipAt(p, id, n - 1);
      var q := FlipRun(p, id, n - 1);
      if (n - 1) % 2 == 0 {
        FlipUp(q.store, id);
      } else {
        FlipDown(q.store, id);
      }
    }
  }

  /** An old image beside a pending build: there is a run of turns in which Ready goes up and down for ever and the
      queue is never empty, although nothing but the two controllers moves. */
  lemma StaleImageFlips(p: Plant, id: Id)
    requires Flipping(p.store, id, false) && Ticket(Runner, id) in p.dirty
    ensures TurnRun((n: nat) => FlipRun(p, id, n))
    ensures forall n: nat :: FlipRun(p, id, n).dirty != {}
    ensures forall n: nat :: id in FlipRun(p, id, n).store.objects
                             && FlipRun(p, id, n).store.objects[id].status.ready == (n % 2 == 1)
  {
    hide Flipping, Turn, FlipRun;
    var run := (n: nat) => FlipRun(p, id, n);
    forall n: nat
      ensures FlipRun(p, id, n).dirty != {} && Turns(run(n), run(n + 1)) && id in FlipRun(p, id, n).store.objects
              && FlipRun(p, id, n).store.objects[id].status.ready == (n % 2 == 1)
    {
      FlipAt(p, id, n);
      FlipTurn(p, id, n);
      FlipReady(FlipRun(p, id, n).store, id, n % 2 == 1);
    }
  }

  lemma FlipReady(s: Store, id: Id, ready: bool)
    requires Flipping(s, id, ready)
    ensures id in s.objects && s.objects[id].status.ready == ready
  {
  }

  lemma FlipTurn(p: Plant, id: Id, n: nat)
    ensures FlipRun(p, id, n + 1) == Turn(FlipRun(p, id, n), Ticket(if n % 2 == 0 then Runner else Builder, id))
  {
  }
}
