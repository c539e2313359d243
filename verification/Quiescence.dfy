/** What statuses say once nothing is left to reconcile. */
module Quiescence {
  import opened Basics
  import opened Identity
  import opened Cluster
  import opened Programs
  import opened Network
  import opened Wakeups
  import BucketUrls

  /** The program counter after one call. */
  function Next(s: Store, pc: Pc): Pc
    requires !pc.Return?
  {
    Resume(s.cfg, pc, Serve(s, CallOf(s.cfg, pc)).response)
  }

  lemma QuietNext(s: Store, pc: Pc)
    requires Quiet(s, pc) && !pc.Return?
    ensures !Serve(s, CallOf(s.cfg, pc)).loud && Quiet(s, Next(s, pc))
  {
  }

  lemma Silently(s: Store, pc: Pc)
    requires !pc.Return? && !Serve(s, CallOf(s.cfg, pc)).loud
    ensures Reconcile(s, pc) == Reconcile(s, Next(s, pc))
    ensures Quiet(s, pc) <==> Quiet(s, Next(s, pc))
  {
    hide Resume, CallOf;
    ServeOnlyAt(s, CallOf(s.cfg, pc));
  }

  lemma Returned(s: Store, outcome: Outcome)
    ensures Reconcile(s, Return(outcome)) == Completion(s, {}, outcome)
    ensures Quiet(s, Return(outcome)) <==> outcome == Settle
  {
  }

  lemma QuietBack(s: Store, pc: Pc)
    requires !pc.Return? && !Serve(s, CallOf(s.cfg, pc)).loud && Quiet(s, Next(s, pc))
    ensures Quiet(s, pc)
  {
    hide Resume, CallOf, Serve;
  }

  lemma ReconcileNext(s: Store, pc: Pc)
    requires !pc.Return?
    ensures Reconcile(s, pc).store == Reconcile(Serve(s, CallOf(s.cfg, pc)).store, Next(s, pc)).store
  {
    hide Serve, CallOf, Resume;
  }

  /** A silent final write finds the status already there. */
  lemma PublishedStatus(s: Store, id: Id, o: Object, st: Status, outcome: Outcome)
    requires Quiet(s, Publish(id, o, st, outcome)) && id in s.objects && s.objects[id] == o
    ensures o.status == st && outcome == Settle
  {
    QuietNext(s, Publish(id, o, st, outcome));
  }

  predicate ReadyThere(s: Store, ref: Option<Id>) {
    ref.Some? ==> ref.value in s.objects && s.objects[ref.value].status.ready
  }

  /** The status of `o` is the verdict `reason` of a controller that owns condition `kind`. */
  predicate Says(o: Object, kind: ConditionType, reason: Reason, good: Reason) {
    o.status.ready == (reason == good)
    && kind in o.status.conditions && o.status.conditions[kind] == Condition(reason == good, reason, o.generation)
  }

  lemma PublishExactly(s: Store, id: Id, o: Object, st: Status)
    requires id in s.objects && s.objects[id] == o
    ensures Quiet(s, Publish(id, o, st, Settle)) <==> o.status == st
  {
    hide Quiet;
    var pc := Publish(id, o, st, Settle);
    if Quiet(s, pc) {
      PublishedStatus(s, id, o, st, Settle);
    } else if o.status == st {
      assert Next(s, pc) == Return(Settle);
      Returned(s, Settle);
      QuietBack(s, pc);
    }
  }

  lemma ServingExactly(s: Store, id: Id, o: Object, reason: Reason, good: Reason)
    requires id in s.objects && s.objects[id] == o
    ensures Quiet(s, Publish(id, o, ServingStatus(o, reason == good, reason), Settle))
            <==> Says(o, Serving, reason, good)
  {
    hide Quiet;
    var st := ServingStatus(o, reason == good, reason);
    PublishExactly(s, id, o, st);
    if Says(o, Serving, reason, good) {
      assert st.conditions == o.status.conditions;
    }
  }

  /******* Servers *******/

  function ServerVerdict(s: Store, id: Id, spec: Spec): Reason
    requires id.kind == Server
  {
    var model := ModelRef(id, spec).value;
    if model !in s.objects then ModelNotFound
    else if !s.objects[model].status.ready then ModelNotReady
    else DeploymentVerdict(s, id)
  }

  function DeploymentVerdict(s: Store, id: Id): Reason {
    if id !in s.deployments || s.deployments[id].readyReplicas == 0 then DeploymentNotReady else DeploymentReady
  }

  /** Service and Deployment are as the spec and the Model ask for, and can be. */
  predicate Deployed(s: Store, id: Id, o: Object, url: string) {
    id in s.services && Constructible(s.cfg, o.spec)
    && id in s.deployments && s.deployments[id].template == ServerTemplate(o, url)
  }

  /** A Server is at rest if and only if it says the verdict on its Model and its Deployment, and, when the Model is
      Ready, Service and Deployment are up to date. So it is Ready if and only if its Model exists and is Ready and its
      Deployment has ready replicas. */
  lemma ServerAtRest(s: Store, id: Id)
    requires id.kind == Server && id in s.objects && s.objects[id].spec.image != ""
    ensures var o := s.objects[id];
            var model := ModelRef(id, o.spec).value;
            Quiet(s, Start(Ticket(Runner, id)))
            <==> Says(o, Serving, ServerVerdict(s, id, o.spec), DeploymentReady)
                 && (ReadyThere(s, Some(model)) ==>
                       Deployed(s, id, o, MountUrl(s.cfg, model, s.objects[model].status)))
  {
    hide Quiet, Says, MountUrl, Constructible, Deployed, ServingStatus, DeploymentVerdict;
    var o := s.objects[id];
    var model := ModelRef(id, o.spec).value;
    var pc := ServerModelGet(id, o, model);
    assert Next(s, RunnerGet(id)) == pc;
    Silently(s, RunnerGet(id));
    Silently(s, pc);
    if model !in s.objects {
      ServingExactly(s, id, o, ModelNotFound, DeploymentReady);
    } else if !s.objects[model].status.ready {
      ServingExactly(s, id, o, ModelNotReady, DeploymentReady);
    } else {
      var url := MountUrl(s.cfg, model, s.objects[model].status);
      assert Next(s, pc) == ServiceApply(id, o, url);
      ServerDeployed(s, id, o, url);
    }
  }

  lemma ServerDeployed(s: Store, id: Id, o: Object, url: string)
    requires id in s.objects && s.objects[id] == o
    ensures Quiet(s, ServiceApply(id, o, url))
            <==> Deployed(s, id, o, url)
                 && Says(o, Serving, DeploymentVerdict(s, id), DeploymentReady)
  {
    hide Constructible, Quiet, Says, ServingStatus;
    var pc := ServiceApply(id, o, url);
    Returned(s, Retry);
    if id !in s.services {
      if Quiet(s, pc) {
        QuietNext(s, pc);
      }
    } else {
      Silently(s, pc);
      assert Next(s, pc) == ServerDeployment(s.cfg, id, o, url);
      DeploymentThere(s, id, o, url);
    }
  }

  lemma DeploymentThere(s: Store, id: Id, o: Object, url: string)
    requires id in s.objects && s.objects[id] == o
    ensures var pc := DeploymentApply(id, o, ServerTemplate(o, url));
            Quiet(s, pc)
            <==> id in s.deployments && s.deployments[id].template == ServerTemplate(o, url)
                 && Says(o, Serving, DeploymentVerdict(s, id), DeploymentReady)
  {
    hide Quiet, Says, ServingStatus, ServerTemplate, Serve, CallOf, Resume;
    var template := ServerTemplate(o, url);
    var pc := DeploymentApply(id, o, template);
    DeploymentApplied(s, id, o, template);
    if id in s.deployments && s.deployments[id].template == template {
      Silently(s, pc);
      DeploymentFound(s, id, o);
      Silently(s, DeploymentGet(id, o));
      ServingExactly(s, id, o, DeploymentVerdict(s, id), DeploymentReady);
    } else if Quiet(s, pc) {
      QuietNext(s, pc);
    }
  }

  lemma DeploymentApplied(s: Store, id: Id, o: Object, template: PodTemplate)
    ensures var pc := DeploymentApply(id, o, template);
            Next(s, pc) == DeploymentGet(id, o)
            && (Serve(s, CallOf(s.cfg, pc)).loud <==> !(id in s.deployments && s.deployments[id].template == template))
  {
  }

  lemma DeploymentFound(s: Store, id: Id, o: Object)
    requires id in s.deployments
    ensures var pc := DeploymentGet(id, o);
            var verdict := DeploymentVerdict(s, id);
            !Serve(s, CallOf(s.cfg, pc)).loud
            && Next(s, pc) == Publish(id, o, ServingStatus(o, verdict == DeploymentReady, verdict), Settle)
  {
    hide ServingStatus;
  }

  /******* Notebooks *******/

  function NotebookVerdict(s: Store, id: Id, spec: Spec): Reason {
    var model, dataset := ModelRef(id, spec), DatasetRef(id, spec);
    if spec.suspend then Suspended
    else if model.Some? && model.value !in s.objects then ModelNotFound
    else if !ReadyThere(s, model) then ModelNotReady
    else if dataset.Some? && dataset.value !in s.objects then Reason.DatasetNotFound
    else if !ReadyThere(s, dataset) then Reason.DatasetNotReady
    else PodVerdict(s, id)
  }

  function PodVerdict(s: Store, id: Id): Reason {
    if id in s.pods && IsPodReady(s.pods[id]) then PodReady else PodNotReady
  }

  /** The URL under which a reference that is there is mounted. */
  function RefMount(s: Store, ref: Option<Id>): Option<string>
    requires ReadyThere(s, ref)
  {
    if ref.Some? then Some(MountUrl(s.cfg, ref.value, s.objects[ref.value].status)) else None
  }

  /** The Pod is as the spec and the references ask for, and can be. */
  predicate Running(s: Store, id: Id, o: Object, model: Option<string>, dataset: Option<string>) {
    Constructible(s.cfg, o.spec)
    && id in s.pods && s.pods[id].template == NotebookTemplate(s.cfg, id, o, model, dataset)
  }

  /** The Pod of a Notebook is as it should be: gone while suspended, up to date once all references are Ready. */
  predicate PodSettled(s: Store, id: Id)
    requires id in s.objects
  {
    var o := s.objects[id];
    var model, dataset := ModelRef(id, o.spec), DatasetRef(id, o.spec);
    if o.spec.suspend then id !in s.pods
    else ReadyThere(s, model) && ReadyThere(s, dataset) ==> Running(s, id, o, RefMount(s, model), RefMount(s, dataset))
  }

  /** A Notebook is at rest if and only if it says the verdict on suspension, references and Pod, and its Pod is as it
      should be. So it is Ready if and only if it is not suspended, what it names exists and is Ready, and its Pod is
      ready. */
  lemma NotebookAtRest(s: Store, id: Id)
    requires id.kind == Notebook && id in s.objects && s.objects[id].spec.image != ""
    ensures Quiet(s, Start(Ticket(Runner, id)))
            <==> Says(s.objects[id], Serving, NotebookVerdict(s, id, s.objects[id].spec), PodReady) && PodSettled(s, id)
  {
    hide Quiet, Says, MountUrl, IsPodReady, Constructible, NotebookTemplate, Running, ServingStatus;
    var o := s.objects[id];
    var model := ModelRef(id, o.spec);
    assert Next(s, RunnerGet(id)) == NotebookBegin(s.cfg, id, o);
    Silently(s, RunnerGet(id));
    if o.spec.suspend {
      SuspendedExactly(s, id, o);
    } else if model.Some? {
      var pc := NotebookModelGet(id, o, model.value);
      Silently(s, pc);
      if model.value !in s.objects {
        ServingExactly(s, id, o, ModelNotFound, PodReady);
      } else if !s.objects[model.value].status.ready {
        ServingExactly(s, id, o, ModelNotReady, PodReady);
      } else {
        NotebookWithModel(s, id, o);
      }
    } else {
      NotebookWithModel(s, id, o);
    }
  }

  lemma SuspendedExactly(s: Store, id: Id, o: Object)
    requires id in s.objects && s.objects[id] == o
    ensures Quiet(s, SuspendPut(id, o)) <==> Says(o, Serving, Suspended, PodReady) && id !in s.pods
  {
    hide Quiet, ServeApplyPod, ServeCreateJob, ServeApplyDeployment;
    var pc := SuspendPut(id, o);
    var st := ServingStatus(o, false, Suspended);
    if Says(o, Serving, Suspended, PodReady) {
      assert st.conditions == o.status.conditions;
      Silently(s, pc);
      assert Next(s, pc) == SuspendDelete(id, o);
      if id in s.pods {
        if Quiet(s, SuspendDelete(id, o)) {
          QuietNext(s, SuspendDelete(id, o));
        }
      } else {
        Silently(s, SuspendDelete(id, o));
        Returned(s, Settle);
      }
    } else if Quiet(s, pc) {
      QuietNext(s, pc);
    }
  }

  lemma NotebookWithModel(s: Store, id: Id, o: Object)
    requires id.kind == Notebook && id in s.objects && s.objects[id] == o && !o.spec.suspend
    requires ReadyThere(s, ModelRef(id, o.spec))
    ensures Quiet(s, NotebookDataset(s.cfg, id, o, RefMount(s, ModelRef(id, o.spec))))
            <==> Says(o, Serving, NotebookVerdict(s, id, o.spec), PodReady) && PodSettled(s, id)
  {
    hide Quiet, Says, MountUrl, IsPodReady, Constructible, NotebookTemplate, Running, ServingStatus;
    var dataset := DatasetRef(id, o.spec);
    var url := RefMount(s, ModelRef(id, o.spec));
    if dataset.Some? {
      var pc := NotebookDatasetGet(id, o, dataset.value, url);
      Silently(s, pc);
      if dataset.value !in s.objects {
        ServingExactly(s, id, o, Reason.DatasetNotFound, PodReady);
      } else if !s.objects[dataset.value].status.ready {
        ServingExactly(s, id, o, Reason.DatasetNotReady, PodReady);
      } else {
        NotebookPodThere(s, id, o, url, RefMount(s, dataset));
      }
    } else {
      NotebookPodThere(s, id, o, url, None);
    }
  }

  lemma NotebookPodThere(s: Store, id: Id, o: Object, model: Option<string>, dataset: Option<string>)
    requires id in s.objects && s.objects[id] == o
    ensures Quiet(s, NotebookPod(s.cfg, id, o, model, dataset))
            <==> Running(s, id, o, model, dataset)
                 && Says(o, Serving, PodVerdict(s, id), PodReady)
  {
    hide Quiet, Says, NotebookTemplate, PodVerdict, Constructible, ServingStatus, Serve, CallOf, Resume;
    Returned(s, Retry);
    var template := NotebookTemplate(s.cfg, id, o, model, dataset);
    var pc := PodApply(id, o, template);
    PodApplied(s, id, o, template);
    EvictIsNeverQuiet(s, id, o);
    if id in s.pods && s.pods[id].template == template {
      Silently(s, pc);
      PodFound(s, id, o);
      Silently(s, PodGet(id, o, s.pods[id]));
      ServingExactly(s, id, o, PodVerdict(s, id), PodReady);
    } else if Quiet(s, pc) {
      QuietNext(s, pc);
    }
  }

  lemma PodApplied(s: Store, id: Id, o: Object, template: PodTemplate)
    ensures var pc := PodApply(id, o, template);
            if id in s.pods && s.pods[id].template == template then
              !Serve(s, CallOf(s.cfg, pc)).loud && Next(s, pc) == PodGet(id, o, s.pods[id])
            else Serve(s, CallOf(s.cfg, pc)).loud || Next(s, pc) == PodEvict(id, o)
  {
  }

  lemma PodFound(s: Store, id: Id, o: Object)
    requires id in s.pods
    ensures var pc := PodGet(id, o, s.pods[id]);
            var verdict := PodVerdict(s, id);
            !Serve(s, CallOf(s.cfg, pc)).loud
            && Next(s, pc) == Publish(id, o, ServingStatus(o, verdict == PodReady, verdict), Settle)
  {
    hide ServingStatus, IsPodReady;
  }

  lemma EvictIsNeverQuiet(s: Store, id: Id, o: Object)
    ensures !Quiet(s, PodEvict(id, o))
  {
  }

  /******* Models and Datasets *******/

  /** The first unmet stage in the order of the code, for a Model that is not Ready. */
  function ModelStage(s: Store, id: Id, spec: Spec): Reason {
    var base, dataset := ModelRef(id, spec), DatasetRef(id, spec);
    if base.Some? && base.value !in s.objects then BaseModelNotFound
    else if !ReadyThere(s, base) then BaseModelNotReady
    else if dataset.Some? && dataset.value !in s.objects then Reason.DatasetNotFound
    else if !ReadyThere(s, dataset) then Reason.DatasetNotReady
    else JobStage(s, id)
  }

  function JobStage(s: Store, id: Id): Reason {
    var job := JobId(id, RunJob);
    if job !in s.jobs then JobNotComplete
    else
      var verdict := JobResult(s.jobs[job].conditions);
      if verdict.complete then JobComplete else if verdict.failed then JobFailed else JobNotComplete
  }

  /** The URL of the artifacts is persisted and the Complete condition is the verdict `reason`. */
  predicate SaysOfJob(s: Store, id: Id, o: Object, reason: Reason) {
    Says(o, Complete, reason, JobComplete) && o.status.url == BucketUrls.Print(ArtifactUrl(s.cfg, id))
  }

  lemma CompletionExactly(s: Store, id: Id, o: Object, reason: Reason)
    requires id in s.objects && s.objects[id] == o
    ensures Quiet(s, Publish(id, o, CompletionStatus(s.cfg, id, o, reason == JobComplete, reason), Settle))
            <==> SaysOfJob(s, id, o, reason)
  {
    hide Quiet, BucketUrls.Print, ArtifactUrl;
    var st := CompletionStatus(s.cfg, id, o, reason == JobComplete, reason);
    PublishExactly(s, id, o, st);
    if SaysOfJob(s, id, o, reason) {
      assert st.conditions == o.status.conditions;
    }
  }

  lemma RunJobExactly(s: Store, id: Id, o: Object)
    requires id in s.objects && s.objects[id] == o
    ensures Quiet(s, RunJobCreate(id, o)) <==> JobId(id, RunJob) in s.jobs && SaysOfJob(s, id, o, JobStage(s, id))
  {
    hide Quiet, SaysOfJob, CompletionStatus;
    var pc := RunJobCreate(id, o);
    if JobId(id, RunJob) in s.jobs {
      assert Next(s, pc) == RunJobGet(id, o);
      Silently(s, pc);
      Silently(s, RunJobGet(id, o));
      CompletionExactly(s, id, o, JobStage(s, id));
    } else if Quiet(s, pc) {
      QuietNext(s, pc);
    }
  }

  /** The Job of a Model or Dataset cannot be constructed, and nothing before it is missing. */
  predicate Mute(s: Store, id: Id)
    requires id in s.objects
  {
    var spec := s.objects[id].spec;
    !Constructible(s.cfg, spec) && ReadyThere(s, ModelRef(id, spec)) && ReadyThere(s, DatasetRef(id, spec))
  }

  /** What the Complete condition of a Model says once its runner has nothing to do: the first unmet stage, and a Job is
      there if that is the Job. */
  predicate ModelSays(s: Store, id: Id)
    requires id in s.objects
  {
    var stage := ModelStage(s, id, s.objects[id].spec);
    SaysOfJob(s, id, s.objects[id], stage) && (stage in {JobNotComplete, JobFailed} ==> JobId(id, RunJob) in s.jobs)
  }

  /** A Model is at rest if and only if it is Ready, or says the first unmet stage, or its GPU type is not offered and
      nothing else is missing: then it is at rest whatever it says. */
  lemma ModelAtRest(s: Store, id: Id)
    requires id.kind == Model && id in s.objects && s.objects[id].spec.image != ""
    ensures Quiet(s, Start(Ticket(Runner, id)))
            <==> s.objects[id].status.ready || Mute(s, id) || ModelSays(s, id)
  {
    hide Quiet, SaysOfJob, CompletionStatus, Constructible, MountUrl;
    var o := s.objects[id];
    var base := ModelRef(id, o.spec);
    assert Next(s, RunnerGet(id)) == ModelBegin(s.cfg, id, o);
    Silently(s, RunnerGet(id));
    Returned(s, Settle);
    if !o.status.ready {
      if base.Some? {
        var pc := BaseModelGet(id, o, base.value);
        Silently(s, pc);
        if base.value !in s.objects {
          CompletionExactly(s, id, o, BaseModelNotFound);
        } else if !s.objects[base.value].status.ready {
          CompletionExactly(s, id, o, BaseModelNotReady);
        } else {
          ModelWithBase(s, id, o);
        }
      } else {
        ModelWithBase(s, id, o);
      }
    }
  }

  lemma ModelWithBase(s: Store, id: Id, o: Object)
    requires id.kind == Model && id in s.objects && s.objects[id] == o && !o.status.ready
    requires ReadyThere(s, ModelRef(id, o.spec))
    ensures Quiet(s, ModelDataset(s.cfg, id, o)) <==> Mute(s, id) || ModelSays(s, id)
  {
    hide Quiet, CompletionStatus, Constructible, BucketUrls.Print, ArtifactUrl, MountUrl;
    var dataset := DatasetRef(id, o.spec);
    if dataset.Some? {
      var pc := DatasetGet(id, o, dataset.value);
      Silently(s, pc);
      if dataset.value !in s.objects {
        CompletionExactly(s, id, o, Reason.DatasetNotFound);
      } else if !s.objects[dataset.value].status.ready {
        CompletionExactly(s, id, o, Reason.DatasetNotReady);
      } else {
        ModelJobExactly(s, id, o);
      }
    } else {
      ModelJobExactly(s, id, o);
    }
  }

  lemma ModelJobExactly(s: Store, id: Id, o: Object)
    requires id.kind == Model && id in s.objects && s.objects[id] == o && !o.status.ready
    requires ReadyThere(s, ModelRef(id, o.spec)) && ReadyThere(s, DatasetRef(id, o.spec))
    ensures Quiet(s, ModelJob(s.cfg, id, o)) <==> Mute(s, id) || ModelSays(s, id)
  {
    hide Quiet, Constructible, BucketUrls.Print, ArtifactUrl;
    RunJobExactly(s, id, o);
    Returned(s, Settle);
  }

  /** The same for a Dataset, whose only stage is its Job. */
  lemma DatasetAtRest(s: Store, id: Id)
    requires id.kind == Dataset && id in s.objects && s.objects[id].spec.image != ""
    ensures Quiet(s, Start(Ticket(Runner, id)))
            <==> s.objects[id].status.ready || Mute(s, id)
                 || (SaysOfJob(s, id, s.objects[id], JobStage(s, id)) && JobId(id, RunJob) in s.jobs)
  {
    hide Quiet, CompletionStatus, Constructible, BucketUrls.Print, ArtifactUrl;
    var o := s.objects[id];
    assert Next(s, RunnerGet(id)) == DatasetBegin(s.cfg, id, o);
    Silently(s, RunnerGet(id));
    Returned(s, Settle);
    if !o.status.ready && Constructible(s.cfg, o.spec) {
      var pc := DataUrlPut(id, o);
      RunJobExactly(s, id, o);
      if Quiet(s, pc) {
        QuietNext(s, pc);
        assert Next(s, pc) == RunJobCreate(id, o);
      } else if o.status.url == BucketUrls.Print(ArtifactUrl(s.cfg, id)) {
        assert Next(s, pc) == RunJobCreate(id, o);
        Silently(s, pc);
      }
    }
  }

  /** The reference that the runner of an object waits for, the first unmet one in the order of the code. */
  function WaitsFor(s: Store, id: Id): Option<Id>
    requires id in s.objects
  {
    var o := s.objects[id];
    if (id.kind == Model && o.status.ready) || (id.kind == Notebook && o.spec.suspend) then None
    else if !ReadyThere(s, ModelRef(id, o.spec)) then ModelRef(id, o.spec)
    else if !ReadyThere(s, DatasetRef(id, o.spec)) then DatasetRef(id, o.spec)
    else None
  }

  /** A referrer at rest, and a reference that is not Ready. */
  ghost predicate Resting(s: Store, ref: Id, id: Id) {
    id in s.objects && ref in s.objects && id != ref && s.objects[id].spec.image != ""
    && ref in References(id, s.objects[id].spec) && !s.objects[ref].status.ready && Quiet(s, Start(Ticket(Runner, id)))
  }

  /** When a reference becomes Ready, its referrers are woken through the index alone. If that listing fails, a referrer
      of any kind that was at rest is not queued although it has work, exactly if it was waiting for this reference; but
      a Model whose Job cannot be constructed has no work then. */
  lemma WakeupMatters(s: Store, ref: Id, id: Id, st: Status)
    requires Resting(s, ref, id) && st.ready
    ensures var s' := Revise(s, ref, s.objects[ref].spec, st, s.objects[ref].stamp);
            Ticket(Runner, id) in Wake(s', ObjectRef(ref)) && id in Dependents(s', ref) && id in s'.objects
            && (Quiet(s', Start(Ticket(Runner, id)))
                <==> WaitsFor(s, id) != Some(ref) || (id.kind == Model && Mute(s', id)))
  {
    hide Quiet, Dependents, Wake, Mute, WaitsFor;
    RefWakes(s, Revise(s, ref, s.objects[ref].spec, st, s.objects[ref].stamp), ref, id);
    if id.kind == Model {
      ModelResumes(s, ref, id, st);
    } else if id.kind == Notebook {
      NotebookResumes(s, ref, id, st);
    } else {
      ServerResumes(s, ref, id, st);
    }
  }

  lemma ModelResumes(s: Store, ref: Id, id: Id, st: Status)
    requires Resting(s, ref, id) && st.ready && id.kind == Model
    ensures var s' := Revise(s, ref, s.objects[ref].spec, st, s.objects[ref].stamp);
            Quiet(s', Start(Ticket(Runner, id))) <==> WaitsFor(s, id) != Some(ref) || Mute(s', id)
  {
    hide Quiet, Constructible, BucketUrls.Print, ArtifactUrl;
    ModelAtRest(s, id);
    ModelAtRest(Revise(s, ref, s.objects[ref].spec, st, s.objects[ref].stamp), id);
  }

  lemma NotebookResumes(s: Store, ref: Id, id: Id, st: Status)
    requires Resting(s, ref, id) && st.ready && id.kind == Notebook
    ensures var s' := Revise(s, ref, s.objects[ref].spec, st, s.objects[ref].stamp);
            Quiet(s', Start(Ticket(Runner, id))) <==> WaitsFor(s, id) != Some(ref)
  {
    hide Quiet, PodSettled, PodVerdict;
    var s' := Revise(s, ref, s.objects[ref].spec, st, s.objects[ref].stamp);
    NotebookAtRest(s, id);
    NotebookAtRest(s', id);
    if WaitsFor(s, id) != Some(ref) {
      PodUnsettled(s, s', ref, id);
    } else {
      PodSays(s');
    }
  }

  lemma PodSays(s: Store)
    ensures forall id :: PodVerdict(s, id) in {PodReady, PodNotReady}
    ensures forall id :: DeploymentVerdict(s, id) in {DeploymentReady, DeploymentNotReady}
  {
  }

  lemma ServerResumes(s: Store, ref: Id, id: Id, st: Status)
    requires Resting(s, ref, id) && st.ready && (id.kind == Server || id.kind == Dataset)
    ensures var s' := Revise(s, ref, s.objects[ref].spec, st, s.objects[ref].stamp);
            Quiet(s', Start(Ticket(Runner, id))) <==> WaitsFor(s, id) != Some(ref)
  {
    hide Quiet, Deployed, DeploymentVerdict;
    var s' := Revise(s, ref, s.objects[ref].spec, st, s.objects[ref].stamp);
    if id.kind == Server {
      ServerAtRest(s, id);
      ServerAtRest(s', id);
      PodSays(s');
    }
  }

  lemma RefWakes(s: Store, s': Store, ref: Id, id: Id)
    requires OnlyAt(s, s', ObjectRef(ref)) && id in s.objects && ref in References(id, s.objects[id].spec) && id != ref
    ensures Ticket(Runner, id) in Wake(s', ObjectRef(ref)) && id in Dependents(s', ref)
  {
    assert Reads(s, Ticket(Runner, id), ObjectRef(ref));
    IndexAgrees(s, s', Ticket(Runner, id), ObjectRef(ref));
    assert SameAt(s.objects, s'.objects, id);
  }

  lemma PodUnsettled(s: Store, s': Store, ref: Id, id: Id)
    requires id.kind == Notebook && id in s.objects && id != ref && OnlyAt(s, s', ObjectRef(ref))
    requires id in s'.objects && WaitsFor(s, id) != Some(ref) && ref in References(id, s.objects[id].spec)
    requires ref in s.objects && !s.objects[ref].status.ready && PodSettled(s, id)
    ensures PodSettled(s', id)
  {
    hide Running;
    assert SameAt(s.objects, s'.objects, id) && SameAt(s.pods, s'.pods, id);
    var model := ModelRef(id, s.objects[id].spec);
    assert model.Some? && model.value != ref ==> SameAt(s.objects, s'.objects, model.value);
  }

  /******* Completeness *******/

  /** Every Model and Dataset has an image and a buildable Job, refers only to what exists, and its Job, if there is
      one, is complete. */
  ghost predicate Finishable(s: Store) {
    forall id :: id in s.objects && (id.kind == Model || id.kind == Dataset) ==>
      var spec := s.objects[id].spec;
      spec.image != "" && Constructible(s.cfg, spec)
      && (forall ref :: ref in References(id, spec) ==> ref in s.objects)
      && (JobId(id, RunJob) in s.jobs ==> JobResult(s.jobs[JobId(id, RunJob)].conditions).complete)
  }

  /** `height` witnesses that references do not form a cycle. */
  ghost predicate Acyclic(s: Store, height: Id -> nat) {
    forall id, ref :: id in s.objects && ref in References(id, s.objects[id].spec) ==> height(ref) < height(id)
  }

  ghost predicate AtRest(s: Store) {
    forall id :: id in s.objects ==> Quiet(s, Start(Ticket(Runner, id)))
  }

  /** On an acyclic graph with all Jobs complete, a cluster at rest has every Model and Dataset Ready. */
  lemma {:induction false} AllReady(s: Store, height: Id -> nat, id: Id)
    requires AtRest(s) && Finishable(s) && Acyclic(s, height)
    requires id in s.objects && (id.kind == Model || id.kind == Dataset)
    ensures s.objects[id].status.ready
    decreases height(id)
  {
    var spec := s.objects[id].spec;
    if id.kind == Dataset {
      DatasetAtRest(s, id);
    } else {
      forall ref | ref in References(id, spec) ensures ref in s.objects && s.objects[ref].status.ready {
        AllReady(s, height, ref);
      }
      assert ModelRef(id, spec).Some? ==> ModelRef(id, spec).value in References(id, spec);
      assert DatasetRef(id, spec).Some? ==> DatasetRef(id, spec).value in References(id, spec);
      ModelAtRest(s, id);
    }
  }

  /** Empty queues and no reconcile in flight mean a cluster at rest. */
  lemma EmptyQueuesAtRest(cfg: Config, steps: seq<Step>)
    requires Legal(Initial(cfg), steps)
    requires Execute(Initial(cfg), steps).dirty == {} && Execute(Initial(cfg), steps).active == map[]
    ensures AtRest(Execute(Initial(cfg), steps).store)
  {
    var w := Execute(Initial(cfg), steps);
    forall id | id in w.store.objects ensures Quiet(w.store, Start(Ticket(Runner, id))) {
      NoLostWakeups(cfg, steps, Ticket(Runner, id));
    }
  }

  /** After any run that ends with empty queues on a finishable acyclic graph, every Model and Dataset is Ready. */
  lemma Completeness(cfg: Config, steps: seq<Step>, height: Id -> nat, id: Id)
    requires Legal(Initial(cfg), steps)
    requires Execute(Initial(cfg), steps).dirty == {} && Execute(Initial(cfg), steps).active == map[]
    requires var s := Execute(Initial(cfg), steps).store;
             Finishable(s) && Acyclic(s, height) && id in s.objects && (id.kind == Model || id.kind == Dataset)
    ensures Execute(Initial(cfg), steps).store.objects[id].status.ready
  {
    EmptyQueuesAtRest(cfg, steps);
    AllReady(Execute(Initial(cfg), steps).store, height, id);
  }

  /** After any run, a Server or Notebook that nobody is about to reconcile shows the verdict on the cluster as it
      is. */
  lemma IdleVerdict(cfg: Config, steps: seq<Step>, id: Id)
    requires Legal(Initial(cfg), steps)
    requires var w := Execute(Initial(cfg), steps);
             Ticket(Runner, id) !in w.dirty && Ticket(Runner, id) !in w.active
             && id in w.store.objects && w.store.objects[id].spec.image != ""
    ensures var s := Execute(Initial(cfg), steps).store;
            var o := s.objects[id];
            (id.kind == Server ==> Says(o, Serving, ServerVerdict(s, id, o.spec), DeploymentReady))
            && (id.kind == Notebook ==>
                  Says(o, Serving, NotebookVerdict(s, id, o.spec), PodReady) && (o.spec.suspend ==> id !in s.pods))
  {
    var s := Execute(Initial(cfg), steps).store;
    NoLostWakeups(cfg, steps, Ticket(Runner, id));
    if id.kind == Server {
      ServerAtRest(s, id);
    } else if id.kind == Notebook {
      NotebookAtRest(s, id);
    }
  }
}
