/** Every failure of draining occurs: legal runs from the empty cluster that lead to each of them. */
module Failures {
  import opened Basics
  import opened Identity
  import opened Cluster
  import opened Programs
  import opened Network
  import opened Quiescence
  import opened Stuck
  import opened Drain
  import opened Frames
  import opened Verdicts
  import Drained
  import Flips
  import Handshake

  /** The world after `id` is created in an empty cluster. */
  lemma Created(cfg: Config, id: Id, spec: Spec)
    requires SchemaOk(spec)
    ensures var w := Execute(Initial(cfg), [Create(id, spec)]);
            Legal(Initial(cfg), [Create(id, spec)])
            && w.store == Store(cfg, 1, map[id := Object(1, 1, "", spec, NEW_STATUS)], map[], map[], {}, map[], map[])
            && w.active == map[] && w.owed == {} && Ticket(Runner, id) in w.dirty && Ticket(Builder, id) in w.dirty
  {
    hide Dependents;
    Once(Initial(cfg), Create(id, spec));
  }

  /** A reconcile of a queued key, appended to a run after which nothing is in flight. */
  lemma ThenTurn(cfg: Config, steps: seq<Step>, t: Ticket) returns (more: seq<Step>)
    requires Legal(Initial(cfg), steps)
    requires var w := Execute(Initial(cfg), steps); t in w.dirty && w.active == map[]
    requires Reconcile(Execute(Initial(cfg), steps).store, Start(t)).outcome != Crash
    ensures Legal(Initial(cfg), more)
    ensures var w, w' := Execute(Initial(cfg), steps), Execute(Initial(cfg), more);
            w'.active == map[] && w'.owed == w.owed && Plant(w'.store, w'.dirty) == Turn(Plant(w.store, w.dirty), t)
  {
    hide Apply, Reconcile, TurnSteps, Legal, Execute;
    var w := Execute(Initial(cfg), steps);
    TurnEffect(w, t);
    RunThen(Initial(cfg), steps, TurnSteps(w.store, t));
    more := steps + TurnSteps(w.store, t);
  }

  /** A build without a source: one step from the empty cluster. */
  lemma SourcelessReached(cfg: Config, id: Id, spec: Spec)
    requires spec.build == Some(Build(None, None)) && spec.image != DesiredImage(cfg, id, spec)
    ensures Legal(Initial(cfg), [Create(id, spec)])
    ensures Sourceless(Execute(Initial(cfg), [Create(id, spec)]).store, id)
  {
    hide ImageUrl, Legal, Execute;
    Created(cfg, id, spec);
  }

  /** A Notebook that asks for a GPU type its cloud does not offer, and for nothing else. */
  lemma StuckPodReached(cfg: Config, id: Id, spec: Spec)
    requires id.kind == Notebook && spec.image != "" && !spec.suspend
    requires cfg.cloud == Gcp && spec.gpu.Some? && spec.gpu.value !in {NvidiaT4, NvidiaL4, NvidiaA100}
    requires SchemaOk(spec) && References(id, spec) == {}
    ensures Legal(Initial(cfg), [Create(id, spec)])
    ensures StuckPod(Execute(Initial(cfg), [Create(id, spec)]).store, id)
  {
    hide Legal, Execute, Constructible;
    Created(cfg, id, spec);
    NoReferences(id, spec);
    GpusOffered(cfg, spec);
  }

  /** An upload for which nobody has used the signed URL yet: the user creates the object, the build controller
      signs. */
  lemma StuckUploadReached(cfg: Config, id: Id, spec: Spec, upload: Upload) returns (steps: seq<Step>)
    requires spec.build == Some(Build(None, Some(upload))) && |upload.md5| == 32
    requires spec.image != DesiredImage(cfg, id, spec)
    ensures Legal(Initial(cfg), steps)
    ensures var w := Execute(Initial(cfg), steps);
            w.active == map[] && w.owed == {} && StuckUpload(w.store, id) && Drained.Pending(w.store, id)
  {
    hide ImageUrl, Legal, Execute, Reconcile;
    Created(cfg, id, spec);
    var t := Ticket(Builder, id);
    var s := Execute(Initial(cfg), [Create(id, spec)]).store;
    CrashesExactly(s, t);
    Handshake.BuilderSigns(s, id, upload);
    steps := ThenTurn(cfg, [Create(id, spec)], t);
  }

  /******* The way to an object that flips *******/

  lemma WakesFirst(s: Store, pc: Pc)
    requires !pc.Return?
    ensures Woken(s, CallOf(s.cfg, pc)) <= Reconcile(s, pc).woken
  {
    hide Serve, CallOf, Resume, Woken;
  }

  /** A Git build without a Job gets one; that takes Ready away and wakes the runner. */
  lemma BuilderStarts(s: Store, id: Id)
    requires id in s.objects && Building(s, id) && JobId(id, BuildJob) !in s.jobs
    requires s.objects[id].spec.build.value.upload.None? && s.objects[id].spec.build.value.git.Some?
    ensures var done := Reconcile(s, BuilderGet(id));
            var s' := done.store;
            s'.jobs == s.jobs[JobId(id, BuildJob) := Job(DesiredImage(s.cfg, id, s.objects[id].spec), 0, [], FromGit)]
            && id in s'.objects && s'.objects[id].spec == s.objects[id].spec
            && !s'.objects[id].status.ready && Ticket(Runner, id) in done.woken
  {
    hide Reconcile, DesiredImage;
    var o := s.objects[id];
    var pc := BuildJobCreate(id, o, FromGit);
    GitReachesJob(s, id);
    BuildWaits(s, id, o, FromGit);
    assert Next(s, BuildJobGet(id, o, FromGit)) == pc;
    Silently(s, BuildJobGet(id, o, FromGit));
    WakesFirst(s, pc);
    assert Ticket(Runner, id) in Woken(s, CallOf(s.cfg, pc));
  }

  /** A Model is created with a Git build beside an old image; its runner starts a Job; the Job completes before the
      build controller gets to look; the build Job is created and is not finished. From here Ready flips for ever. */
  lemma FlippingReached(cfg: Config, id: Id, spec: Spec) returns (steps: seq<Step>)
    requires id.kind == Model && References(id, spec) == {} && Constructible(cfg, spec)
    requires spec.build.Some? && spec.build.value.upload.None? && spec.build.value.git.Some?
    requires spec.image != "" && spec.image != DesiredImage(cfg, id, spec)
    ensures Legal(Initial(cfg), steps)
    ensures var w := Execute(Initial(cfg), steps);
            w.active == map[] && w.owed == {} && Ticket(Runner, id) in w.dirty
            && Flips.Flipping(w.store, id, false) && Drained.AtOdds(w.store, id)
  {
    hide ImageUrl, Legal, Execute, Reconcile, Apply, Constructible, References, Flips.Flipping, Drained.AtOdds;
    Created(cfg, id, spec);
    var s1 := Execute(Initial(cfg), [Create(id, spec)]).store;
    CrashesExactly(s1, Ticket(Runner, id));
    NoReferences(id, spec);
    TrainedVerdict(s1, id);
    NotReported(s1, JobId(id, RunJob));
    TurnFramed(s1, Ticket(Runner, id));
    var steps2 := ThenTurn(cfg, [Create(id, spec)], Ticket(Runner, id));
    var w2 := Execute(Initial(cfg), steps2);
    var moves := JobMoves(JobId(id, RunJob), 1, [JobCondition(CompleteCondition, true)]);
    RunCompletes(w2, id, moves);
    RunThen(Initial(cfg), steps2, [moves]);
    var w3 := Execute(Initial(cfg), steps2 + [moves]);
    FlippingStarts(w3.store, id);
    steps := ThenTurn(cfg, steps2 + [moves], Ticket(Builder, id));
  }

  /** The modeller Job is complete before the build controller gets to look. */
  lemma FlippingStarts(s: Store, id: Id)
    requires id in s.objects && id.kind == Model && Building(s, id) && JobId(id, BuildJob) !in s.jobs
    requires JobId(id, RunJob) in s.jobs
    requires s.jobs[JobId(id, RunJob)].conditions == [JobCondition(CompleteCondition, true)]
    requires var spec := s.objects[id].spec;
             References(id, spec) == {} && Constructible(s.cfg, spec) && spec.image != ""
             && spec.build.value.upload.None? && spec.build.value.git.Some?
    ensures var done := Reconcile(s, BuilderGet(id));
            Flips.Flipping(done.store, id, false) && Drained.AtOdds(done.store, id)
            && Ticket(Runner, id) in done.woken && done.outcome != Crash
  {
    hide ImageUrl, Reconcile, Constructible, References;
    CrashesExactly(s, Ticket(Builder, id));
    TurnFramed(s, Ticket(Builder, id));
    BuilderStarts(s, id);
    assert JobResult([JobCondition(CompleteCondition, true)]).complete;
  }

  lemma NotReported(s: Store, job: JobId)
    requires job !in s.jobs
    ensures !Completed(s, job) && !HasFailed(s, job)
  {
  }

  lemma RunCompletes(w: World, id: Id, moves: Step)
    requires JobId(id, RunJob) in w.store.jobs
    requires moves == JobMoves(JobId(id, RunJob), 1, [JobCondition(CompleteCondition, true)])
    ensures Legal(w, [moves])
    ensures var w' := Execute(w, [moves]);
            var job := w.store.jobs[JobId(id, RunJob)].(succeeded := 1, conditions := moves.jobConditions);
            w'.store == w.store.(jobs := w.store.jobs[JobId(id, RunJob) := job]) && w'.active == w.active
            && w'.owed == w.owed && Ticket(Builder, id) in w'.dirty
  {
    hide Legal, Execute, Dependents;
    Once(w, moves);
  }
}
