/** What one undisturbed reconcile makes of the Jobs it finds, and what it writes. */
module Verdicts {
  import opened Basics
  import opened Identity
  import opened Cluster
  import opened Programs
  import opened Quiescence
  import BucketUrls

  /** The Job was seen to be complete, or to have failed, whichever it reported first. */
  ghost predicate Completed(s: Store, job: JobId) {
    job in s.jobs && Reports(s.jobs[job].conditions, CompleteCondition, FailedCondition)
  }

  ghost predicate HasFailed(s: Store, job: JobId) {
    job in s.jobs && Reports(s.jobs[job].conditions, FailedCondition, CompleteCondition)
  }

  /** Ready and the Complete condition are this verdict, and nothing else of the status has moved but the URL. */
  predicate Judged(cfg: Config, id: Id, o: Object, o': Object, ready: bool, reason: Reason) {
    o'.spec == o.spec && o'.generation == o.generation
    && o'.status.ready == ready && o'.status.upload == o.status.upload
    && o'.status.url == BucketUrls.Print(ArtifactUrl(cfg, id))
    && o'.status.conditions == o.status.conditions[Complete := Condition(ready, reason, o.generation)]
  }

  /** What is published is there afterwards, and nothing else has changed. */
  lemma Published(s: Store, id: Id, o: Object, st: Status)
    requires id in s.objects && s.objects[id] == o
    ensures var done := Reconcile(s, Publish(id, o, st, Settle));
            var s' := done.store;
            done.outcome == Settle && s' == s.(clock := s'.clock, objects := s'.objects)
            && s'.objects.Keys == s.objects.Keys
            && (forall other :: other in s.objects && other != id ==> s'.objects[other] == s.objects[other])
            && s'.objects[id] == o.(version := s'.objects[id].version, status := st)
  {
    hide Wake;
    var pc := Publish(id, o, st, Settle);
    var s' := Serve(s, CallOf(s.cfg, pc)).store;
    assert Next(s, pc) == Return(Settle);
    ReconcileEnds(s, pc);
    Returned(s', Settle);
  }

  lemma ReconcileEnds(s: Store, pc: Pc)
    requires !pc.Return?
    ensures var s1 := Serve(s, CallOf(s.cfg, pc)).store;
            Reconcile(s, pc).store == Reconcile(s1, Next(s, pc)).store
            && Reconcile(s, pc).outcome == Reconcile(s1, Next(s, pc)).outcome
  {
    hide Serve, CallOf, Resume;
  }

  /******* Modeller and loader Jobs *******/

  /** From the creation of the Job on: the verdict on a Job that exists is published, and a Job that does not is created
      with the image of the spec, unfinished. */
  lemma JobVerdictPublished(s: Store, id: Id, o: Object)
    requires id in s.objects && s.objects[id] == o && !o.status.ready
    ensures var job := JobId(id, RunJob);
            var done := Reconcile(s, RunJobCreate(id, o));
            done.outcome == Settle && id in done.store.objects
            && (job in s.jobs ==> done.store.jobs == s.jobs)
            && (job !in s.jobs ==> done.store.jobs == s.jobs[job := Job(o.spec.image, 0, [], FromSpec)])
            && (Completed(s, job) ==> Judged(s.cfg, id, o, done.store.objects[id], true, JobComplete))
            && (HasFailed(s, job) ==> Judged(s.cfg, id, o, done.store.objects[id], false, JobFailed))
            && (!Completed(s, job) && !HasFailed(s, job) ==>
                  Judged(s.cfg, id, o, done.store.objects[id], false, JobNotComplete))
  {
    hide Reconcile, BucketUrls.Print, ArtifactUrl, JobResult, Reports;
    var job := JobId(id, RunJob);
    var pc := RunJobCreate(id, o);
    var s1 := Serve(s, CallOf(s.cfg, pc)).store;
    JobThere(s, id, o);
    ReconcileEnds(s, pc);
    ReconcileEnds(s1, RunJobGet(id, o));
    JobResultTells(s1.jobs[job].conditions);
    if job !in s.jobs {
      NothingReported();
    }
    var verdict := JobResult(s1.jobs[job].conditions);
    var reason := if verdict.complete then JobComplete else if verdict.failed then JobFailed else JobNotComplete;
    Published(s1, id, o, CompletionStatus(s.cfg, id, o, verdict.complete, reason));
  }

  lemma NothingReported()
    ensures !Reports([], CompleteCondition, FailedCondition) && !Reports([], FailedCondition, CompleteCondition)
  {
  }

  lemma JobThere(s: Store, id: Id, o: Object)
    requires id in s.objects && s.objects[id] == o
    ensures var job := JobId(id, RunJob);
            var s1 := Serve(s, CallOf(s.cfg, RunJobCreate(id, o))).store;
            s1 == s.(jobs := if job in s.jobs then s.jobs else s.jobs[job := Job(o.spec.image, 0, [], FromSpec)])
            && Next(s, RunJobCreate(id, o)) == RunJobGet(id, o)
            && Serve(s1, CallOf(s1.cfg, RunJobGet(id, o))).store == s1
            && Next(s1, RunJobGet(id, o)) == RunJobSeen(s.cfg, id, o, s1.jobs[job])
  {
    hide RunJobSeen;
  }

  /** A Model or Dataset whose Job is due: Ready and reason become the verdict on the Job that is found, complete,
      failed or neither, and only a missing Job is created. A Job that failed leaves its object not Ready with reason
      JobFailed. */
  lemma TrainedVerdict(s: Store, id: Id)
    requires Trained(id) && id in s.objects && !s.objects[id].status.ready && s.objects[id].spec.image != ""
    requires var spec := s.objects[id].spec;
             Constructible(s.cfg, spec)
             && (id.kind == Model ==> ReadyNamed(s, id, Model, spec.model) && ReadyNamed(s, id, Dataset, spec.dataset))
    ensures var o, job := s.objects[id], JobId(id, RunJob);
            var done := Reconcile(s, RunnerGet(id));
            done.outcome == Settle && id in done.store.objects
            && (job in s.jobs ==> done.store.jobs == s.jobs)
            && (job !in s.jobs ==> done.store.jobs == s.jobs[job := Job(o.spec.image, 0, [], FromSpec)])
            && (Completed(s, job) ==> Judged(s.cfg, id, o, done.store.objects[id], true, JobComplete))
            && (HasFailed(s, job) ==> Judged(s.cfg, id, o, done.store.objects[id], false, JobFailed))
            && (!Completed(s, job) && !HasFailed(s, job) ==>
                  Judged(s.cfg, id, o, done.store.objects[id], false, JobNotComplete))
  {
    hide Reconcile, BucketUrls.Print, ArtifactUrl, Reports, Constructible, MountUrl, Completed, HasFailed;
    var o := s.objects[id];
    Silently(s, RunnerGet(id));
    if id.kind == Model {
      ModelReachesJob(s, id, o);
      JobVerdictPublished(s, id, o);
    } else {
      assert Next(s, RunnerGet(id)) == DataUrlPut(id, o);
      var s1 := Serve(s, CallOf(s.cfg, DataUrlPut(id, o))).store;
      DataReachesJob(s, id, o);
      ReconcileEnds(s, DataUrlPut(id, o));
      JobVerdictPublished(s1, id, s1.objects[id]);
      SameJobs(s, s1, JobId(id, RunJob));
    }
  }

  /******* Waiting for what a spec names *******/

  predicate Missing(s: Store, id: Id, kind: Kind, name: Option<string>) {
    name.Some? && Id(kind, id.ns, name.value) !in s.objects
  }

  predicate Unready(s: Store, id: Id, kind: Kind, name: Option<string>) {
    name.Some? && Id(kind, id.ns, name.value) in s.objects && !s.objects[Id(kind, id.ns, name.value)].status.ready
  }

  /** The named object of this kind, in the namespace of `id`, exists and is Ready, if there is a name at all. */
  predicate ReadyNamed(s: Store, id: Id, kind: Kind, name: Option<string>) {
    !Missing(s, id, kind, name) && !Unready(s, id, kind, name)
  }

  /** The first thing amiss with what a spec names, the Model before the Dataset; None means that all is Ready. */
  function Waits(s: Store, id: Id, model: Option<string>, dataset: Option<string>, base: bool): Option<Reason> {
    if Missing(s, id, Model, model) then Some(if base then BaseModelNotFound else ModelNotFound)
    else if Unready(s, id, Model, model) then Some(if base then BaseModelNotReady else ModelNotReady)
    else if Missing(s, id, Dataset, dataset) then Some(Reason.DatasetNotFound)
    else if Unready(s, id, Dataset, dataset) then Some(Reason.DatasetNotReady)
    else None
  }

  /** Only the status of `id` has changed. */
  ghost predicate OnlyStatus(s: Store, s': Store, id: Id) {
    id in s.objects && id in s'.objects
    && s' == s.(clock := s'.clock, objects := s.objects[id := s'.objects[id]])
    && s'.objects[id] == s.objects[id].(version := s'.objects[id].version, status := s'.objects[id].status)
  }

  lemma ModelPublishes(s: Store, id: Id, o: Object)
    requires id.kind == Model && id in s.objects && s.objects[id] == o && !o.status.ready && o.spec.image != ""
    ensures var reason := Waits(s, id, o.spec.model, o.spec.dataset, true);
            reason.Some? ==>
              Reconcile(s, RunnerGet(id)) ==
              Reconcile(s, Publish(id, o, CompletionStatus(s.cfg, id, o, false, reason.value), Settle))
  {
    hide Reconcile, CompletionStatus, Constructible, MountUrl;
    Silently(s, RunnerGet(id));
    if o.spec.model.Some? {
      Silently(s, BaseModelGet(id, o, Id(Model, id.ns, o.spec.model.value)));
    }
    if o.spec.dataset.Some? {
      Silently(s, DatasetGet(id, o, Id(Dataset, id.ns, o.spec.dataset.value)));
    }
  }

  /** A Model whose base Model or Dataset is missing or not Ready creates nothing, and says what it waits for. */
  lemma ModelWaits(s: Store, id: Id)
    requires id.kind == Model && id in s.objects && !s.objects[id].status.ready && s.objects[id].spec.image != ""
    ensures var o, s' := s.objects[id], Reconcile(s, RunnerGet(id)).store;
            var reason := Waits(s, id, o.spec.model, o.spec.dataset, true);
            reason.Some? ==>
              Reconcile(s, RunnerGet(id)).outcome == Settle && OnlyStatus(s, s', id)
              && Judged(s.cfg, id, o, s'.objects[id], false, reason.value)
  {
    hide Reconcile, BucketUrls.Print, ArtifactUrl, Waits;
    var o := s.objects[id];
    var reason := Waits(s, id, o.spec.model, o.spec.dataset, true);
    if reason.Some? {
      ModelPublishes(s, id, o);
      OnlyPublished(s, id, o, CompletionStatus(s.cfg, id, o, false, reason.value));
    }
  }

  lemma OnlyPublished(s: Store, id: Id, o: Object, st: Status)
    requires id in s.objects && s.objects[id] == o
    ensures var done := Reconcile(s, Publish(id, o, st, Settle));
            done.outcome == Settle && OnlyStatus(s, done.store, id) && done.store.objects[id].status == st
  {
    hide Reconcile;
    Published(s, id, o, st);
    var s' := Reconcile(s, Publish(id, o, st, Settle)).store;
    assert s'.objects == s.objects[id := s'.objects[id]];
  }

  /** Ready is false, the Serving condition says why, and nothing else of the status has moved. */
  predicate Declines(o: Object, o': Object, reason: Reason) {
    o'.status == o.status.(ready := false,
      conditions := o.status.conditions[Serving := Condition(false, reason, o.generation)])
  }

  /** An empty name is none. */
  function NonEmpty(name: Option<string>): Option<string> {
    if name == Some("") then None else name
  }

  lemma NotebookPublishes(s: Store, id: Id, o: Object)
    requires id.kind == Notebook && id in s.objects && s.objects[id] == o && !o.spec.suspend && o.spec.image != ""
    ensures var reason := Waits(s, id, NonEmpty(o.spec.model), NonEmpty(o.spec.dataset), false);
            reason.Some? ==>
              Reconcile(s, RunnerGet(id)) == Reconcile(s, Publish(id, o, ServingStatus(o, false, reason.value), Settle))
  {
    hide Reconcile, ServingStatus, Constructible, MountUrl;
    var model, dataset := NonEmpty(o.spec.model), NonEmpty(o.spec.dataset);
    Silently(s, RunnerGet(id));
    if model.Some? {
      Silently(s, NotebookModelGet(id, o, Id(Model, id.ns, model.value)));
    }
    if ReadyNamed(s, id, Model, model) && dataset.Some? {
      Silently(s, NotebookDatasetGet(id, o, Id(Dataset, id.ns, dataset.value), RefMount(s, ModelRef(id, o.spec))));
    }
  }

  /** The same for a Notebook that is not suspended; here an empty name is none. */
  lemma NotebookWaits(s: Store, id: Id)
    requires id.kind == Notebook && id in s.objects && !s.objects[id].spec.suspend && s.objects[id].spec.image != ""
    ensures var o, s' := s.objects[id], Reconcile(s, RunnerGet(id)).store;
            var reason := Waits(s, id, NonEmpty(o.spec.model), NonEmpty(o.spec.dataset), false);
            reason.Some? ==>
              Reconcile(s, RunnerGet(id)).outcome == Settle && OnlyStatus(s, s', id)
              && Declines(o, s'.objects[id], reason.value)
  {
    hide Reconcile, Waits;
    var o := s.objects[id];
    var reason := Waits(s, id, NonEmpty(o.spec.model), NonEmpty(o.spec.dataset), false);
    if reason.Some? {
      NotebookPublishes(s, id, o);
      OnlyPublished(s, id, o, ServingStatus(o, false, reason.value));
    }
  }

  lemma ServerPublishes(s: Store, id: Id, o: Object)
    requires id.kind == Server && id in s.objects && s.objects[id] == o && o.spec.image != ""
    ensures var reason := Waits(s, id, Some(if o.spec.model.Some? then o.spec.model.value else ""), None, false);
            reason.Some? ==>
              Reconcile(s, RunnerGet(id)) == Reconcile(s, Publish(id, o, ServingStatus(o, false, reason.value), Settle))
  {
    hide Reconcile, ServingStatus, Constructible, MountUrl;
    Silently(s, RunnerGet(id));
    Silently(s, ServerModelGet(id, o, Id(Model, id.ns, if o.spec.model.Some? then o.spec.model.value else "")));
  }

  /** The same for a Server, which waits for a Model also when it names none. */
  lemma ServerWaits(s: Store, id: Id)
    requires id.kind == Server && id in s.objects && s.objects[id].spec.image != ""
    ensures var o, s' := s.objects[id], Reconcile(s, RunnerGet(id)).store;
            var reason := Waits(s, id, Some(if o.spec.model.Some? then o.spec.model.value else ""), None, false);
            reason.Some? ==>
              Reconcile(s, RunnerGet(id)).outcome == Settle && OnlyStatus(s, s', id)
              && Declines(o, s'.objects[id], reason.value)
  {
    hide Reconcile, Waits;
    var o := s.objects[id];
    var reason := Waits(s, id, Some(if o.spec.model.Some? then o.spec.model.value else ""), None, false);
    if reason.Some? {
      ServerPublishes(s, id, o);
      OnlyPublished(s, id, o, ServingStatus(o, false, reason.value));
    }
  }

  lemma SameJobs(s: Store, s': Store, job: JobId)
    requires s'.jobs == s.jobs
    ensures Completed(s', job) == Completed(s, job) && HasFailed(s', job) == HasFailed(s, job)
  {
  }

  lemma DataReachesJob(s: Store, id: Id, o: Object)
    requires id in s.objects && s.objects[id] == o
    ensures var s1 := Serve(s, CallOf(s.cfg, DataUrlPut(id, o))).store;
            id in s1.objects && s1.cfg == s.cfg && s1.jobs == s.jobs
            && s1.objects[id] == o.(version := s1.objects[id].version, status := WithUrl(s.cfg, id, o.status))
            && Next(s, DataUrlPut(id, o)) == RunJobCreate(id, s1.objects[id])
  {
    hide BucketUrls.Print, ArtifactUrl;
  }

  lemma ModelReachesJob(s: Store, id: Id, o: Object)
    requires id.kind == Model && id in s.objects && s.objects[id] == o && !o.status.ready && o.spec.image != ""
    requires ReadyThere(s, ModelRef(id, o.spec)) && ReadyThere(s, DatasetRef(id, o.spec))
    requires Constructible(s.cfg, o.spec)
    ensures Reconcile(s, RunnerGet(id)) == Reconcile(s, RunJobCreate(id, o))
  {
    hide Reconcile, Constructible, MountUrl;
    Silently(s, RunnerGet(id));
    assert Next(s, RunnerGet(id)) == ModelBegin(s.cfg, id, o);
    if ModelRef(id, o.spec).Some? {
      Silently(s, BaseModelGet(id, o, ModelRef(id, o.spec).value));
    }
    if DatasetRef(id, o.spec).Some? {
      Silently(s, DatasetGet(id, o, DatasetRef(id, o.spec).value));
    }
  }

  /******* Build Jobs *******/

  /** A build whose Job for the current image has succeeded: the image is written, Built becomes True for the generation
      that this write makes, and nothing else of spec and status moves. */
  lemma BuildFinishes(s: Store, id: Id, o: Object, origin: Origin)
    requires id in s.objects && s.objects[id] == o && Building(s, id)
    requires var job := JobId(id, BuildJob);
             job in s.jobs && s.jobs[job].image == DesiredImage(s.cfg, id, o.spec) && s.jobs[job].succeeded >= 1
    ensures var done := Reconcile(s, BuildJobGet(id, o, origin));
            done.outcome == Settle && done.store.jobs == s.jobs && id in done.store.objects
            && var o' := done.store.objects[id];
               o'.spec == o.spec.(image := DesiredImage(s.cfg, id, o.spec)) && o'.generation == o.generation + 1
               && o'.status == o.status.(conditions :=
                    o.status.conditions[Built := Condition(true, JobComplete, o.generation + 1)])
  {
    hide Reconcile, DesiredImage, Serve, CallOf, Resume;
    var job := s.jobs[JobId(id, BuildJob)];
    var pc := BuildJobGet(id, o, origin);
    FinishedSeen(s, id, o, origin);
    Silently(s, pc);
    ImageWritten(s, id, o, job);
    var s1 := Serve(s, CallOf(s.cfg, ImagePut(id, o, job))).store;
    ReconcileEnds(s, ImagePut(id, o, job));
    Published(s1, id, s1.objects[id], BuiltStatus(s1.objects[id]));
  }

  lemma FinishedSeen(s: Store, id: Id, o: Object, origin: Origin)
    requires var job := JobId(id, BuildJob);
             job in s.jobs && s.jobs[job].image == DesiredImage(s.cfg, id, o.spec) && s.jobs[job].succeeded >= 1
    ensures var pc := BuildJobGet(id, o, origin);
            !Serve(s, CallOf(s.cfg, pc)).loud && Next(s, pc) == ImagePut(id, o, s.jobs[JobId(id, BuildJob)])
  {
    hide DesiredImage;
  }

  lemma ImageWritten(s: Store, id: Id, o: Object, job: Job)
    requires id in s.objects && s.objects[id] == o && Building(s, id)
    ensures var pc := ImagePut(id, o, job);
            var s1 := Serve(s, CallOf(s.cfg, pc)).store;
            id in s1.objects && s1.jobs == s.jobs && s1.cfg == s.cfg
            && s1.objects[id] == o.(version := s1.objects[id].version, generation := o.generation + 1,
                                    spec := o.spec.(image := DesiredImage(s.cfg, id, o.spec)))
            && Next(s, pc) == Publish(id, s1.objects[id], BuiltStatus(s1.objects[id]), Settle)
  {
    hide ImageUrl, BuiltStatus;
  }

  lemma ReachesPending(s: Store, id: Id, o: Object, origin: Origin)
    requires var job := JobId(id, BuildJob);
             job in s.jobs ==> s.jobs[job].image == DesiredImage(s.cfg, id, o.spec) && s.jobs[job].succeeded < 1
    ensures var job := JobId(id, BuildJob);
            var created := Job(DesiredImage(s.cfg, id, o.spec), 0, [], origin);
            var s1 := if job in s.jobs then s else s.(jobs := s.jobs[job := created]);
            Reconcile(s, BuildJobGet(id, o, origin)).store == Reconcile(s1, BuildPending(id, o)).store
            && Reconcile(s, BuildJobGet(id, o, origin)).outcome == Reconcile(s1, BuildPending(id, o)).outcome
  {
    hide Reconcile, DesiredImage, BuildPending;
    var pc := BuildJobGet(id, o, origin);
    Silently(s, pc);
    if JobId(id, BuildJob) !in s.jobs {
      assert Next(s, pc) == BuildJobCreate(id, o, origin);
      ReconcileEnds(s, BuildJobCreate(id, o, origin));
      assert Next(s, BuildJobCreate(id, o, origin)) == BuildPending(id, o);
    }
  }

  /** A build whose Job is not there yet, or for the current image but not finished: a missing Job is created for that
      image, and the object is not Ready and Built is False. */
  lemma BuildWaits(s: Store, id: Id, o: Object, origin: Origin)
    requires id in s.objects && s.objects[id] == o
    requires var job := JobId(id, BuildJob);
             job in s.jobs ==> s.jobs[job].image == DesiredImage(s.cfg, id, o.spec) && s.jobs[job].succeeded < 1
    ensures var job := JobId(id, BuildJob);
            var done := Reconcile(s, BuildJobGet(id, o, origin));
            done.outcome == Settle && id in done.store.objects
            && done.store.jobs ==
               (if job in s.jobs then s.jobs else s.jobs[job := Job(DesiredImage(s.cfg, id, o.spec), 0, [], origin)])
            && var o' := done.store.objects[id];
               o'.spec == o.spec && o'.generation == o.generation
               && o'.status == o.status.(ready := false, conditions :=
                    o.status.conditions[Built := Condition(false, JobNotComplete, o.generation)])
  {
    hide Reconcile, DesiredImage, Serve, CallOf, Resume;
    var job := JobId(id, BuildJob);
    var created := Job(DesiredImage(s.cfg, id, o.spec), 0, [], origin);
    var s1 := if job in s.jobs then s else s.(jobs := s.jobs[job := created]);
    ReachesPending(s, id, o, origin);
    Published(s1, id, o, BuildPendingStatus(o));
  }

  /** A build whose Job is for another image: the Job is deleted, and the attempt to create it again fails. */
  lemma BuildReplaces(s: Store, id: Id, o: Object, origin: Origin)
    requires id in s.objects && s.objects[id] == o
    requires var job := JobId(id, BuildJob); job in s.jobs && s.jobs[job].image != DesiredImage(s.cfg, id, o.spec)
    ensures var done := Reconcile(s, BuildJobGet(id, o, origin));
            done.outcome == Retry && done.store == s.(jobs := s.jobs - {JobId(id, BuildJob)})
  {
    hide Reconcile, DesiredImage;
    var job := s.jobs[JobId(id, BuildJob)];
    var pc := BuildJobGet(id, o, origin);
    Silently(s, pc);
    assert Next(s, pc) == BuildJobDelete(id, o, job);
    var s1 := Serve(s, CallOf(s.cfg, BuildJobDelete(id, o, job))).store;
    ReconcileEnds(s, BuildJobDelete(id, o, job));
    Silently(s1, BuildJobRecreate(id, o, job));
    Returned(s1, Retry);
  }

  /** A Git build looks at its Job at once. */
  lemma GitReachesJob(s: Store, id: Id)
    requires id in s.objects && Building(s, id) && s.objects[id].spec.build.value.upload.None?
    requires s.objects[id].spec.build.value.git.Some?
    ensures Reconcile(s, BuilderGet(id)) == Reconcile(s, BuildJobGet(id, s.objects[id], FromGit))
  {
    hide Reconcile, DesiredImage;
    Silently(s, BuilderGet(id));
  }

  /******* Calls that do not succeed *******/

  /** A failed call ends the reconcile, which will be retried. Two calls about the Job of a Model or Dataset publish
      that it is not complete first; and a checksum that cannot be read for a new request counts as none. */
  lemma FailedCall(cfg: Config, pc: Pc)
    requires !pc.Return?
    ensures var next := Resume(cfg, pc, Failed);
            if pc.NewUploadCheck? then
              next == if pc.upload.md5 == "" then StoredPut(pc.id, pc.local, StoredStatus(pc.local, "", ""), "")
                      else UrlSign(pc.id, pc.local, pc.upload)
            else if pc.RunJobCreate? || pc.RunJobGet? then
              next.Publish? && next.outcome == Retry && next.id == pc.id && next.local == pc.local
              && Judged(cfg, pc.id, pc.local, pc.local.(status := next.status), false, JobNotComplete)
            else next == Return(Retry)
  {
    hide BucketUrls.Print, ArtifactUrl;
  }

  /** A refused write is retried as a whole, but for two: a Job that is there already is as good as a created one, and a
      Pod that cannot be changed is deleted. */
  lemma RefusedCall(cfg: Config, pc: Pc)
    requires !pc.Return? && !pc.NewUploadCheck?
    ensures var next := Resume(cfg, pc, Refused);
            match pc
            case RunJobCreate(id, o) => next == RunJobGet(id, o)
            case BuildJobCreate(id, o, _) => next == BuildPending(id, o)
            case PodApply(id, o, _) => next == PodEvict(id, o)
            case _ => next == Resume(cfg, pc, Failed)
  {
    hide BucketUrls.Print, ArtifactUrl;
  }

  /** What is gone is done with for the object itself, the Pod of a suspended Notebook and a Job to be replaced. A Pod
      that is gone right after it was applied counts as it was then. */
  lemma AbsentTarget(cfg: Config, pc: Pc)
    requires pc.RunnerGet? || pc.BuilderGet? || pc.SuspendDelete? || pc.BuildJobDelete? || pc.PodGet? || pc.PodEvict?
             || pc.DeploymentGet? || pc.KnownUploadCheck? || pc.Publish? || pc.ImagePut? || pc.StoredPut?
             || pc.DataUrlPut? || pc.SuspendPut?
    ensures var next := Resume(cfg, pc, Absent);
            if pc.RunnerGet? || pc.BuilderGet? || pc.SuspendDelete? then next == Return(Settle)
            else if pc.BuildJobDelete? then next == BuildJobRecreate(pc.id, pc.local, pc.job)
            else if pc.PodGet? then next == Resume(cfg, pc, ThePod(pc.pod))
            else next == Return(Retry)
  {
  }

  /******* Nothing to do *******/

  /** An object without an image, and a Model or Dataset that is Ready, is left alone by its runner; one without a
      build, or with the image it asks for, by its build controller. */
  lemma LeftAlone(s: Store, id: Id)
    requires id in s.objects
    ensures s.objects[id].spec.image == "" || (Trained(id) && s.objects[id].status.ready) ==>
              Reconcile(s, RunnerGet(id)) == Completion(s, {}, Settle)
    ensures var spec := s.objects[id].spec;
            spec.build.None? || spec.image == ImageUrl(s.cfg, id, spec.build.value) ==>
              Reconcile(s, BuilderGet(id)) == Completion(s, {}, Settle)
  {
    hide Reconcile, ImageUrl, Constructible;
    Silently(s, RunnerGet(id));
    Silently(s, BuilderGet(id));
    Returned(s, Settle);
  }
}
