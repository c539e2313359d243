/** The stages an object has left while users, Jobs, Pods and Deployments hold still, and how one reconcile moves
    them. */
module Stages {
  import opened Basics
  import opened Identity
  import opened Cluster
  import opened Programs
  import opened Wakeups
  import opened Quiescence
  import opened Stuck
  import Network
  import BucketUrls

  /******* One object at a time *******/

  /** The build Job for the current image has succeeded. */
  predicate BuildFinished(s: Store, id: Id)
    requires id in s.objects
  {
    var job := JobId(id, BuildJob);
    job in s.jobs && s.jobs[job].image == DesiredImage(s.cfg, id, s.objects[id].spec) && s.jobs[job].succeeded >= 1
  }

  /** The modeller or loader Job is complete, and would be looked at. */
  predicate RunDone(s: Store, id: Id)
    requires id in s.objects
  {
    Constructible(s.cfg, s.objects[id].spec) && JobId(id, RunJob) in s.jobs
    && JobResult(s.jobs[JobId(id, RunJob)].conditions).complete
  }

  /** An old image was left beside a build. */
  predicate Stale(s: Store, id: Id)
    requires id in s.objects
  {
    Building(s, id) && s.objects[id].spec.image != ""
  }

  /** The two controllers of the object contradict each other: one will not see the build finished, the other sees the
      old Job complete. */
  predicate Clash(s: Store, id: Id)
    requires id in s.objects
  {
    Stale(s, id) && !BuildFinished(s, id) && RunDone(s, id)
  }

  predicate Sourced(spec: Spec) {
    spec.build.Some? ==> spec.build.value.upload.Some? || spec.build.value.git.Some?
  }

  /** What every object must satisfy for the claims about draining: a build has a source, and an old image is left
      beside a build only on a Model or Dataset without references that is built from Git. */
  predicate Regular(s: Store, id: Id)
    requires id in s.objects
  {
    var spec := s.objects[id].spec;
    Sourced(spec)
    && (Stale(s, id) ==> Trained(id) && References(id, spec) == {} && spec.build.value.upload.None?)
  }

  /** Besides, no clash; and, as in every reachable state, checksums as the schema demands and the persisted artifact
      URL the computed one. */
  predicate CalmObject(s: Store, id: Id)
    requires id in s.objects
  {
    Regular(s, id) && !Clash(s, id) && Network.SchemaOk(s.objects[id].spec)
    && s.objects[id].status.url in {"", BucketUrls.Print(ArtifactUrl(s.cfg, id))}
  }

  ghost predicate Calm(s: Store) {
    forall id :: id in s.objects ==> CalmObject(s, id)
  }

  function RefUrl(cfg: Config, ref: Option<Id>): Option<string> {
    if ref.Some? then Some(BucketUrls.Print(ArtifactUrl(cfg, ref.value))) else None
  }

  function DesiredPod(s: Store, id: Id): PodTemplate
    requires id in s.objects
  {
    var o := s.objects[id];
    NotebookTemplate(s.cfg, id, o, RefUrl(s.cfg, ModelRef(id, o.spec)), RefUrl(s.cfg, DatasetRef(id, o.spec)))
  }

  function DesiredDeployment(s: Store, id: Id): PodTemplate
    requires id in s.objects && id.kind == Server
  {
    var o := s.objects[id];
    ServerTemplate(o, RefUrl(s.cfg, ModelRef(id, o.spec)).value)
  }

  /******* Stages left *******/

  function ImageStage(s: Store, id: Id): nat
    requires id in s.objects
  {
    var ready := s.objects[id].status.ready;
    if Trained(id) then
      if !Building(s, id) then (if ready then 0 else 1)
      else if s.objects[id].spec.image != "" && RunDone(s, id) then (if ready then 2 else 3)
      else if ready then 3 else 2
    else if Building(s, id) then 2 else 0
  }

  function BuildStage(s: Store, id: Id): nat
    requires id in s.objects
  {
    var job := JobId(id, BuildJob);
    if !Building(s, id) then 0
    else if job !in s.jobs then 1
    else if s.jobs[job].image != DesiredImage(s.cfg, id, s.objects[id].spec) then 2
    else 0
  }

  function RunStage(s: Store, id: Id): nat {
    if Trained(id) && JobId(id, RunJob) !in s.jobs then 1 else 0
  }

  function PodStage(s: Store, id: Id): nat
    requires id in s.objects
  {
    if id.kind != Notebook then 0
    else if s.objects[id].spec.suspend then (if id in s.pods then 1 else 0)
    else if id !in s.pods then 2
    else if s.pods[id].template.fixed != DesiredPod(s, id).fixed then 3
    else if s.pods[id].template != DesiredPod(s, id) then 1
    else 0
  }

  function ServeStage(s: Store, id: Id): nat
    requires id in s.objects
  {
    if id.kind != Server then 0
    else
      (if id in s.services then 0 else 1)
      + (if id in s.deployments && s.deployments[id].template == DesiredDeployment(s, id) then 0 else 1)
  }

  function StageOf(s: Store, id: Id): nat
    requires id in s.objects
  {
    ImageStage(s, id) + BuildStage(s, id) + RunStage(s, id) + PodStage(s, id) + ServeStage(s, id)
  }

  predicate SameStage(s: Store, s': Store, id: Id) {
    id in s.objects && id in s'.objects && StageOf(s', id) == StageOf(s, id)
  }

  /** Only the status of `id` differs, and nothing that anyone else reads of it. */
  ghost predicate Mild(s: Store, s': Store, id: Id) {
    id in s.objects && id in s'.objects
    && s' == s.(clock := s'.clock, objects := s'.objects) && s'.objects == s.objects[id := s'.objects[id]]
    && s'.objects[id] == s.objects[id].(version := s'.objects[id].version, status := s'.objects[id].status)
    && (Trained(id) ==> s'.objects[id].status.ready == s.objects[id].status.ready)
    && s'.objects[id].status.url in {s.objects[id].status.url, BucketUrls.Print(ArtifactUrl(s.cfg, id))}
  }

  /** The calls of one reconcile of `t`: nobody else's stages move, its own go down unless the change is mild. */
  ghost predicate Progress(s: Store, s': Store, id: Id) {
    id in s.objects && s'.objects.Keys == s.objects.Keys && s'.cfg == s.cfg
    && Calm(s')
    && (forall other :: other in s.objects && other != id ==> StageOf(s', other) == StageOf(s, other))
    && (StageOf(s', id) < StageOf(s, id) || s' == s || (StageOf(s', id) == StageOf(s, id) && Mild(s, s', id)))
  }

  /******* Program counters that fit a calm store *******/

  predicate FitsRunner(s: Store, t: Ticket, pc: Pc)
    requires t.id in s.objects && Copy(pc).Some?
  {
    var id, o := t.id, s.objects[t.id];
    (InCompletion(pc) ==> !o.status.ready)
    && (pc.DataUrlPut? || pc.RunJobCreate? || pc.RunJobGet? ==> Constructible(s.cfg, o.spec))
    && (pc.RunJobGet? ==> JobId(id, RunJob) in s.jobs)
    && (pc.SuspendPut? || pc.SuspendDelete? ==> o.spec.suspend)
    && (pc.NotebookModelGet? || pc.NotebookDatasetGet? || pc.PodApply? || pc.PodEvict? || pc.PodGet? ==>
          !o.spec.suspend)
    && (pc.NotebookDatasetGet? ==>
          pc.model == RefUrl(s.cfg, ModelRef(id, o.spec)) && ReadyThere(s, ModelRef(id, o.spec)))
    && (pc.PodApply? ==> pc.template == DesiredPod(s, id))
    && (pc.PodEvict? ==> id in s.pods && s.pods[id].template.fixed != DesiredPod(s, id).fixed)
    && (pc.PodGet? ==> id in s.pods)
    && (pc.ServiceApply? ==>
          Some(pc.url) == RefUrl(s.cfg, ModelRef(id, o.spec)) && ReadyThere(s, ModelRef(id, o.spec)))
    && (pc.DeploymentApply? ==> id.kind == Server && pc.template == DesiredDeployment(s, id))
    && (pc.DeploymentGet? ==> id in s.deployments)
  }

  predicate FitsBuilder(s: Store, t: Ticket, pc: Pc)
    requires t.id in s.objects && Copy(pc).Some?
  {
    var id, o := t.id, s.objects[t.id];
    var job := JobId(id, BuildJob);
    (InBuild(pc) ==> Building(s, id) && !pc.BuildJobRecreate?)
    && (pc.KnownUploadCheck? ==>
          o.spec.build.value.upload.Some? && o.spec.build.value.upload.value.request == o.status.upload.request)
    && (pc.StoredPut? ==> pc.status.ready == o.status.ready && pc.status.url == o.status.url)
    && (pc.BuildJobCreate? ==> job !in s.jobs)
    && (pc.BuildJobDelete? ==> job in s.jobs && s.jobs[job].image != DesiredImage(s.cfg, id, o.spec))
  }

  predicate FitsPublish(s: Store, t: Ticket, o: Object, st: Status)
    requires t.id in s.objects
  {
    st.url in {o.status.url, BucketUrls.Print(ArtifactUrl(s.cfg, t.id))}
    && (Trained(t.id) && o.status.ready && !st.ready ==> Building(s, t.id) && !(Stale(s, t.id) && RunDone(s, t.id)))
    && (Trained(t.id) && st.ready && !o.status.ready ==>
          t.controller == Runner && (Building(s, t.id) ==> Stale(s, t.id) && RunDone(s, t.id)))
  }

  predicate Fits(s: Store, t: Ticket, pc: Pc) {
    t.id in s.objects && Belongs(t, pc)
    && (pc.Return? ==> pc.outcome == Settle || (pc.outcome == Retry && StuckTicket(s, t)))
    && (Copy(pc).Some? ==>
          pc.local == s.objects[t.id]
          && (t.controller == Runner ==> pc.local.spec.image != "" && FitsRunner(s, t, pc))
          && (t.controller == Builder ==> FitsBuilder(s, t, pc))
          && (pc.Publish? ==> pc.outcome == Settle && FitsPublish(s, t, pc.local, pc.status)))
  }

  /******* One call *******/

  /** What one call leaves alone: every other object, its stages and its calm. */
  lemma OthersStay(s: Store, s': Store, r: Ref, id: Id, other: Id)
    requires OnlyAt(s, s', r) && other != id && other in s.objects
    requires r.ObjectRef? || r.PodRef? || r.ServiceRef? || r.DeploymentRef? ==> r.id == id
    requires r.JobRef? ==> r.job.owner == id
    requires !r.BlobRef?
    ensures other in s'.objects && StageOf(s', other) == StageOf(s, other)
    ensures CalmObject(s', other) == CalmObject(s, other)
  {
    hide DesiredImage, BucketUrls.Print, ArtifactUrl, NotebookTemplate, ServerTemplate;
    assert SameAt(s.objects, s'.objects, other);
    assert SameAt(s.jobs, s'.jobs, JobId(other, BuildJob)) && SameAt(s.jobs, s'.jobs, JobId(other, RunJob));
    assert SameAt(s.pods, s'.pods, other) && SameAt(s.deployments, s'.deployments, other);
    assert SameAt(s.blobs, s'.blobs, other);
  }

  /** The effect of one call on the object itself. */
  ghost predicate Moves(s: Store, s': Store, id: Id) {
    id in s.objects && id in s'.objects && CalmObject(s', id)
    && (StageOf(s', id) < StageOf(s, id) || s' == s || (StageOf(s', id) == StageOf(s, id) && Mild(s, s', id)))
  }

  lemma StatusPutMoves(s: Store, t: Ticket, o: Object, st: Status)
    requires t.id in s.objects && s.objects[t.id] == o && CalmObject(s, t.id)
    requires FitsPublish(s, t, o, st)
    ensures Moves(s, ServePut(s, t.id, o.version, None, Some(st)).store, t.id)
    ensures Serve(s, PutStatus(t.id, o.version, st)).response.TheObject?
  {
    hide CallOf, Resume, DesiredImage, BucketUrls.Print, ArtifactUrl, BuildStage, RunStage, PodStage, ServeStage;
    var s' := ServePut(s, t.id, o.version, None, Some(st)).store;
    StagesKept(s, s', t.id);
  }

  /** A status decides no stage but that of the image. */
  lemma StagesKept(s: Store, s': Store, id: Id)
    requires id in s.objects && id in s'.objects && s'.objects[id].spec == s.objects[id].spec
    requires s' == s.(clock := s'.clock, objects := s'.objects)
    requires s.objects[id].status.url in {"", BucketUrls.Print(ArtifactUrl(s.cfg, id))}
    requires s'.objects[id].status.url in {s.objects[id].status.url, BucketUrls.Print(ArtifactUrl(s.cfg, id))}
    ensures BuildStage(s', id) == BuildStage(s, id) && RunStage(s', id) == RunStage(s, id)
    ensures PodStage(s', id) == PodStage(s, id) && ServeStage(s', id) == ServeStage(s, id)
  {
    hide ImageUrl, BucketUrls.Print, ArtifactUrl, RefUrl;
    assert DesiredImage(s'.cfg, id, s'.objects[id].spec) == DesiredImage(s.cfg, id, s.objects[id].spec);
  }

  lemma ImagePutMoves(s: Store, id: Id, o: Object)
    requires id in s.objects && s.objects[id] == o && CalmObject(s, id) && Building(s, id)
    ensures var spec := o.spec.(image := DesiredImage(s.cfg, id, o.spec));
            Moves(s, ServePut(s, id, o.version, Some(spec), None).store, id)
  {
    hide ImageUrl, BucketUrls.Print, ArtifactUrl;
  }

  lemma JobMoves(s: Store, id: Id, job: JobId, manifest: Job)
    requires id in s.objects && CalmObject(s, id) && job.owner == id
    requires job.role == RunJob ==> Trained(id)
    requires job.role == BuildJob ==> Building(s, id) && manifest.image == DesiredImage(s.cfg, id, s.objects[id].spec)
    ensures Moves(s, ServeCreateJob(s, job, manifest, false).store, id)
  {
    hide DesiredImage, BucketUrls.Print, ArtifactUrl, NotebookTemplate, ServerTemplate;
  }

  lemma JobGoneMoves(s: Store, id: Id)
    requires id in s.objects && CalmObject(s, id) && Building(s, id)
    requires var job := JobId(id, BuildJob);
             job in s.jobs && s.jobs[job].image != DesiredImage(s.cfg, id, s.objects[id].spec)
    ensures Moves(s, s.(jobs := s.jobs - {JobId(id, BuildJob)}), id)
    ensures StageOf(s.(jobs := s.jobs - {JobId(id, BuildJob)}), id) < StageOf(s, id)
  {
    hide DesiredImage, BucketUrls.Print, ArtifactUrl, NotebookTemplate, ServerTemplate;
  }

  lemma PodMoves(s: Store, id: Id)
    requires id in s.objects && CalmObject(s, id) && id.kind == Notebook
    ensures !s.objects[id].spec.suspend ==> Moves(s, ServeApplyPod(s, id, DesiredPod(s, id)).store, id)
    ensures id in s.pods && (s.objects[id].spec.suspend || s.pods[id].template.fixed != DesiredPod(s, id).fixed) ==>
              Moves(s, s.(pods := s.pods - {id}), id)
  {
    hide DesiredImage, BucketUrls.Print, ArtifactUrl, DesiredDeployment;
  }

  lemma ServiceMoves(s: Store, id: Id)
    requires id in s.objects && CalmObject(s, id) && id.kind == Server
    ensures Moves(s, Serve(s, ApplyService(id)).store, id)
  {
    hide DesiredImage, BucketUrls.Print, ArtifactUrl, NotebookTemplate, ServerTemplate, CallOf, Resume;
  }

  lemma DeploymentMoves(s: Store, id: Id)
    requires id in s.objects && CalmObject(s, id) && id.kind == Server
    ensures Moves(s, ServeApplyDeployment(s, id, DesiredDeployment(s, id)).store, id)
  {
    hide DesiredImage, BucketUrls.Print, ArtifactUrl, NotebookTemplate, ServerTemplate, CallOf, Resume;
  }

  /** A calm object's mount URL is the computed one. */
  lemma CalmUrl(s: Store, id: Id)
    requires id in s.objects && CalmObject(s, id)
    ensures MountUrl(s.cfg, id, s.objects[id].status) == BucketUrls.Print(ArtifactUrl(s.cfg, id))
  {
  }

  lemma CompletionFits(s: Store, t: Ticket, pc: Pc)
    requires Fits(s, t, pc) && CalmObject(s, t.id) && InCompletion(pc)
    ensures Fits(Serve(s, CallOf(s.cfg, pc)).store, t, Next(s, pc))
  {
    hide ResumeNotebook;
    hide FitsBuilder, DesiredImage, BucketUrls.Print, ArtifactUrl, NotebookTemplate, ServerTemplate, JobResult;
    hide Constructible;
    CompletionBelongs(s.cfg, t, pc, Serve(s, CallOf(s.cfg, pc)).response);
  }

  lemma NotebookLooksFit(s: Store, t: Ticket, pc: Pc)
    requires Fits(s, t, pc) && Calm(s) && (pc.NotebookModelGet? || pc.NotebookDatasetGet?)
    ensures Fits(Serve(s, CallOf(s.cfg, pc)).store, t, Next(s, pc))
  {
    hide CalmObject;
    hide FitsBuilder, DesiredImage, BucketUrls.Print, ArtifactUrl, NotebookTemplate, ServerTemplate, Constructible;
    NotebookBelongs(s.cfg, t, pc, Serve(s, CallOf(s.cfg, pc)).response);
    if pc.ref in s.objects {
      CalmUrl(s, pc.ref);
    }
  }

  lemma NotebookPodFits(s: Store, t: Ticket, pc: Pc)
    requires Fits(s, t, pc) && Calm(s) && (pc.PodApply? || pc.PodEvict?)
    ensures Fits(Serve(s, CallOf(s.cfg, pc)).store, t, Next(s, pc))
  {
    hide References, CalmObject;
    hide FitsPublish, FitsBuilder, DesiredImage, BucketUrls.Print, ArtifactUrl, NotebookTemplate, ServerTemplate;
    hide IsPodReady, RefUrl;
    NotebookBelongs(s.cfg, t, pc, Serve(s, CallOf(s.cfg, pc)).response);
  }

  lemma NotebookSeenFits(s: Store, t: Ticket, pc: Pc)
    requires Fits(s, t, pc) && Calm(s) && pc.PodGet?
    ensures Fits(Serve(s, CallOf(s.cfg, pc)).store, t, Next(s, pc))
  {
    hide FitsBuilder, DesiredImage, BucketUrls.Print, ArtifactUrl, NotebookTemplate, ServerTemplate, IsPodReady, RefUrl;
    NotebookBelongs(s.cfg, t, pc, Serve(s, CallOf(s.cfg, pc)).response);
  }

  lemma NotebookSuspendFits(s: Store, t: Ticket, pc: Pc)
    requires Fits(s, t, pc) && Calm(s) && (pc.SuspendPut? || pc.SuspendDelete?)
    ensures Fits(Serve(s, CallOf(s.cfg, pc)).store, t, Next(s, pc))
  {
    hide FitsBuilder, DesiredImage, BucketUrls.Print, ArtifactUrl, NotebookTemplate, ServerTemplate, DesiredPod;
    NotebookBelongs(s.cfg, t, pc, Serve(s, CallOf(s.cfg, pc)).response);
  }

  lemma ServerLooksFit(s: Store, t: Ticket, pc: Pc)
    requires Fits(s, t, pc) && Calm(s) && pc.ServerModelGet?
    ensures Fits(Serve(s, CallOf(s.cfg, pc)).store, t, Next(s, pc))
  {
    hide FitsBuilder, DesiredImage, BucketUrls.Print, ArtifactUrl, NotebookTemplate, ServerTemplate, DesiredDeployment;
    ServerBelongs(s.cfg, t, pc, Serve(s, CallOf(s.cfg, pc)).response);
    if pc.ref in s.objects {
      CalmUrl(s, pc.ref);
    }
  }

  lemma ServerRestFits(s: Store, t: Ticket, pc: Pc)
    requires Fits(s, t, pc) && Calm(s) && (pc.ServiceApply? || pc.DeploymentApply?)
    ensures Fits(Serve(s, CallOf(s.cfg, pc)).store, t, Next(s, pc))
  {
    hide CalmObject, BuiltStatus;
    hide FitsBuilder, DesiredImage, BucketUrls.Print, ArtifactUrl, NotebookTemplate, ServerTemplate, FitsPublish;
    ServerBelongs(s.cfg, t, pc, Serve(s, CallOf(s.cfg, pc)).response);
  }

  lemma ServerSeenFits(s: Store, t: Ticket, pc: Pc)
    requires Fits(s, t, pc) && Calm(s) && pc.DeploymentGet?
    ensures Fits(Serve(s, CallOf(s.cfg, pc)).store, t, Next(s, pc))
  {
    hide FitsBuilder, DesiredImage, BucketUrls.Print, ArtifactUrl, NotebookTemplate, ServerTemplate;
    ServerBelongs(s.cfg, t, pc, Serve(s, CallOf(s.cfg, pc)).response);
  }

  lemma BuildFits(s: Store, t: Ticket, pc: Pc)
    requires Fits(s, t, pc) && CalmObject(s, t.id) && InBuild(pc) && !pc.BuildJobDelete?
    ensures Fits(Serve(s, CallOf(s.cfg, pc)).store, t, Next(s, pc))
  {
    hide ResumeServer, NotebookPod;
    hide FitsRunner, DesiredImage, BucketUrls.Print, ArtifactUrl, NotebookTemplate, ServerTemplate, Constructible;
    BuildBelongs(s.cfg, t, pc, Serve(s, CallOf(s.cfg, pc)).response);
  }

  lemma BeginFits(s: Store, t: Ticket)
    requires t.id in s.objects && CalmObject(s, t.id)
    ensures Fits(s, t, Next(s, Start(t)))
  {
    hide DesiredImage, BucketUrls.Print, ArtifactUrl, NotebookTemplate, ServerTemplate, Constructible;
    BelongsStep(s.cfg, t, Start(t), TheObject(s.objects[t.id]));
  }

  /** One call keeps the next program counter fitting, except that an out-of-date build Job is deleted. */
  lemma CallFits(s: Store, t: Ticket, pc: Pc)
    requires Fits(s, t, pc) && Calm(s) && !pc.Return? && !pc.BuildJobDelete?
    ensures Fits(Serve(s, CallOf(s.cfg, pc)).store, t, Next(s, pc))
  {
    hide FitsRunner, FitsBuilder, ResumeCompletion, ResumeNotebook, ResumeServer, ResumeBuild, Begin, BuilderBegin,
      CalmObject;
    if InCompletion(pc) {
      CompletionFits(s, t, pc);
    } else if pc.NotebookModelGet? || pc.NotebookDatasetGet? {
      NotebookLooksFit(s, t, pc);
    } else if pc.SuspendPut? || pc.SuspendDelete? {
      NotebookSuspendFits(s, t, pc);
    } else if pc.PodGet? {
      NotebookSeenFits(s, t, pc);
    } else if InNotebook(pc) {
      NotebookPodFits(s, t, pc);
    } else if pc.ServerModelGet? {
      ServerLooksFit(s, t, pc);
    } else if pc.DeploymentGet? {
      ServerSeenFits(s, t, pc);
    } else if InServer(pc) {
      ServerRestFits(s, t, pc);
    } else if InBuild(pc) {
      BuildFits(s, t, pc);
    } else if pc.Publish? {
    } else {
      assert pc == Start(t);
      BeginFits(s, t);
    }
  }

  lemma PutFits(s: Store, t: Ticket, pc: Pc)
    requires Fits(s, t, pc) && CalmObject(s, t.id) && !pc.Return? && CallOf(s.cfg, pc).PutStatus?
    ensures FitsPublish(s, t, pc.local, CallOf(s.cfg, pc).status)
  {
    hide DesiredImage, BucketUrls.Print, ArtifactUrl, NotebookTemplate, ServerTemplate;
  }

  lemma LoudJobMoves(s: Store, t: Ticket, pc: Pc)
    requires Fits(s, t, pc) && CalmObject(s, t.id)
    requires pc.RunJobCreate? || pc.BuildJobCreate? || pc.BuildJobDelete?
    ensures Moves(s, Serve(s, CallOf(s.cfg, pc)).store, t.id)
  {
    hide StageOf, Mild, CalmObject, DesiredImage, DesiredPod, DesiredDeployment, Moves;
    if pc.BuildJobDelete? {
      JobGoneMoves(s, t.id);
    } else {
      JobMoves(s, t.id, CallOf(s.cfg, pc).job, CallOf(s.cfg, pc).manifest);
    }
  }

  lemma NotebookCallMoves(s: Store, t: Ticket, pc: Pc)
    requires Fits(s, t, pc) && CalmObject(s, t.id) && (pc.SuspendDelete? || pc.PodApply? || pc.PodEvict?)
    ensures Moves(s, Serve(s, CallOf(s.cfg, pc)).store, t.id)
  {
    hide StageOf, Mild, CalmObject, DesiredImage, DesiredPod, FitsBuilder, Building, Resume, ServeApplyPod, FitsPublish;
    PodMoves(s, t.id);
  }

  lemma ServerCallMoves(s: Store, t: Ticket, pc: Pc)
    requires Fits(s, t, pc) && CalmObject(s, t.id) && (pc.ServiceApply? || pc.DeploymentApply?)
    ensures Moves(s, Serve(s, CallOf(s.cfg, pc)).store, t.id)
  {
    hide StageOf, Mild, CalmObject, DesiredImage, DesiredDeployment, FitsBuilder, Building, Resume, FitsPublish;
    ServiceMoves(s, t.id);
    DeploymentMoves(s, t.id);
  }

  lemma LoudPodMoves(s: Store, t: Ticket, pc: Pc)
    requires Fits(s, t, pc) && CalmObject(s, t.id)
             && (pc.SuspendDelete? || pc.PodApply? || pc.PodEvict? || pc.ServiceApply? || pc.DeploymentApply?)
    ensures Moves(s, Serve(s, CallOf(s.cfg, pc)).store, t.id)
  {
    hide Fits, CalmObject, Moves, Serve, CallOf;
    if pc.ServiceApply? || pc.DeploymentApply? {
      ServerCallMoves(s, t, pc);
    } else {
      NotebookCallMoves(s, t, pc);
    }
  }

  lemma StatusCallMoves(s: Store, t: Ticket, pc: Pc)
    requires Fits(s, t, pc) && CalmObject(s, t.id) && !pc.Return? && CallOf(s.cfg, pc).PutStatus?
    ensures Moves(s, Serve(s, CallOf(s.cfg, pc)).store, t.id)
  {
    hide StageOf, Mild, CalmObject, FitsRunner, FitsBuilder, FitsPublish, WithUrl, ServingStatus, Moves, ServePut;
    PutFits(s, t, pc);
    StatusPutMoves(s, t, pc.local, CallOf(s.cfg, pc).status);
  }

  lemma CallMoves(s: Store, t: Ticket, pc: Pc)
    requires Fits(s, t, pc) && CalmObject(s, t.id) && !pc.Return?
    ensures Moves(s, Serve(s, CallOf(s.cfg, pc)).store, t.id)
  {
    hide StageOf, Mild, CalmObject, FitsRunner, FitsPublish, WithUrl, ServingStatus, ServePut, ServeApplyPod,
      ServeApplyDeployment, ServeCreateJob, NotebookTemplate, ServerTemplate, DesiredImage;
    if CallOf(s.cfg, pc).PutStatus? {
      StatusCallMoves(s, t, pc);
    } else if pc.ImagePut? {
      ImagePutMoves(s, t.id, pc.local);
    } else if pc.RunJobCreate? || pc.BuildJobCreate? || pc.BuildJobDelete? {
      LoudJobMoves(s, t, pc);
    } else if pc.SuspendDelete? || pc.PodApply? || pc.PodEvict? || pc.ServiceApply? || pc.DeploymentApply? {
      LoudPodMoves(s, t, pc);
    } else {
      assert Serve(s, CallOf(s.cfg, pc)).store == s;
    }
  }

  /******* One reconcile *******/

  lemma ProgressThrough(s: Store, s1: Store, s2: Store, id: Id)
    requires Progress(s, s1, id) && Progress(s1, s2, id)
    ensures Progress(s, s2, id)
  {
    hide StageOf, CalmObject;
  }

  lemma CallProgress(s: Store, t: Ticket, pc: Pc)
    requires Fits(s, t, pc) && Calm(s) && !pc.Return?
    ensures Progress(s, Serve(s, CallOf(s.cfg, pc)).store, t.id)
  {
    hide StageOf, CalmObject, FitsRunner, FitsBuilder, FitsPublish, CallOf, Resume, Mild;
    var c := CallOf(s.cfg, pc);
    var s' := Serve(s, c).store;
    ServeOnlyAt(s, c);
    CallMoves(s, t, pc);
    if s' != s {
      OwnTarget(s, t, pc);
      assert s'.objects.Keys == s.objects.Keys by {
        forall id ensures id in s'.objects <==> id in s.objects {
          assert id != t.id ==> SameAt(s.objects, s'.objects, id);
        }
      }
      forall other | other in s.objects && other != t.id
        ensures StageOf(s', other) == StageOf(s, other) && CalmObject(s', other)
      {
        OthersStay(s, s', Target(c), t.id, other);
      }
    }
  }

  lemma OwnTarget(s: Store, t: Ticket, pc: Pc)
    requires Belongs(t, pc) && !pc.Return?
    requires Serve(s, CallOf(s.cfg, pc)).loud
    ensures var r := Target(CallOf(s.cfg, pc));
            !r.BlobRef? && (r.ObjectRef? || r.PodRef? || r.ServiceRef? || r.DeploymentRef? ==> r.id == t.id)
            && (r.JobRef? ==> r.job.owner == t.id)
  {
  }

  /** A reconcile in a calm cluster keeps it calm, moves nobody else's stages, and either brings its own object closer
      to done or returns no error and changes at most the status of that object. */
  lemma {:induction false} ReconcileProgress(s: Store, t: Ticket, pc: Pc)
    requires Calm(s) && Fits(s, t, pc)
    ensures Progress(s, Reconcile(s, pc).store, t.id)
    ensures var done := Reconcile(s, pc);
            done.outcome == Settle || StageOf(done.store, t.id) < StageOf(s, t.id)
            || (done.outcome == Retry && StuckTicket(done.store, t))
    ensures Reconcile(s, pc).outcome != Crash
    decreases Rank(pc)
  {
    hide StageOf, CalmObject, CallOf, Resume, Mild, FitsRunner, FitsBuilder, FitsPublish, StuckTicket;
    if !pc.Return? {
      var s1 := Serve(s, CallOf(s.cfg, pc)).store;
      CallProgress(s, t, pc);
      if pc.BuildJobDelete? {
        DeleteProgress(s, t, pc);
      } else {
        CallFits(s, t, pc);
        ReconcileProgress(s1, t, Next(s, pc));
        ProgressThrough(s, s1, Reconcile(s, pc).store, t.id);
      }
    }
  }

  lemma DeleteProgress(s: Store, t: Ticket, pc: Pc)
    requires Calm(s) && Fits(s, t, pc) && pc.BuildJobDelete?
    ensures Reconcile(s, pc).store == Serve(s, CallOf(s.cfg, pc)).store && Reconcile(s, pc).outcome == Retry
    ensures StageOf(Reconcile(s, pc).store, t.id) < StageOf(s, t.id)
  {
    hide StageOf, CalmObject, Moves, DesiredImage, FitsRunner, FitsPublish, Revise, ServePut, ServeApplyPod;
    hide ServeApplyDeployment, ResumeCompletion, ResumeNotebook, ResumeServer;
    var s1 := Serve(s, CallOf(s.cfg, pc)).store;
    JobGoneMoves(s, t.id);
    assert Next(s, pc) == BuildJobRecreate(t.id, pc.local, pc.job);
    assert Reconcile(s1, BuildJobRecreate(t.id, pc.local, pc.job)) == Completion(s1, {}, Retry);
  }
}
