/** Reconciles that fail for nothing, and reconciles that crash. */
module Stuck {
  import opened Basics
  import opened Identity
  import opened Cluster
  import opened Programs
  import opened Wakeups
  import opened Quiescence
  import BucketUrls

  /******* Keys that are retried for ever *******/

  /** A signed upload is pending and nothing can be looked up for it in the bucket. */
  predicate StuckUpload(s: Store, id: Id) {
    id in s.objects && id !in s.blobs && Building(s, id)
    && var o := s.objects[id];
       o.spec.build.value.upload.Some? && o.spec.build.value.upload.value.request == o.status.upload.request
  }

  /** Everything a Notebook or Server waits for is there, but its Pod asks for a GPU type the cloud does not offer. */
  predicate StuckPod(s: Store, id: Id) {
    id in s.objects
    && var o := s.objects[id];
       o.spec.image != "" && !Constructible(s.cfg, o.spec)
       && ReadyThere(s, ModelRef(id, o.spec)) && ReadyThere(s, DatasetRef(id, o.spec))
       && ((id.kind == Notebook && !o.spec.suspend) || (id.kind == Server && id in s.services))
  }

  predicate StuckTicket(s: Store, t: Ticket) {
    if t.controller == Builder then StuckUpload(s, t.id) else StuckPod(s, t.id)
  }

  /** Reconciling from here now would write nothing and end this way. */
  ghost predicate Ends(s: Store, pc: Pc, outcome: Outcome)
    decreases Rank(pc)
  {
    if pc.Return? then pc.outcome == outcome
    else !Serve(s, CallOf(s.cfg, pc)).loud && Ends(s, Next(s, pc), outcome)
  }

  lemma {:induction false} EndsReconcile(s: Store, t: Ticket, pc: Pc, outcome: Outcome)
    requires Belongs(t, pc)
    ensures Ends(s, pc, outcome) <==> Reconcile(s, pc) == Completion(s, {}, outcome)
    decreases Rank(pc)
  {
    hide Resume, CallOf, Serve;
    if !pc.Return? {
      var c := CallOf(s.cfg, pc);
      ServeOnlyAt(s, c);
      BelongsStep(s.cfg, t, pc, Serve(s, c).response);
      if Serve(s, c).loud {
        WriteTargetsOwn(s, t, pc);
        IndexAgrees(s, Serve(s, c).store, t, Target(c));
        assert t in Woken(s, c);
      } else {
        EndsReconcile(s, t, Next(s, pc), outcome);
      }
    }
  }

  /** A program counter on a silent path; an error is about to be returned only if the ticket is stuck. */
  predicate Silent(s: Store, t: Ticket, pc: Pc) {
    Belongs(t, pc)
    && (pc == Return(Retry) ==> StuckTicket(s, t))
    && (pc.Publish? ==> pc.outcome == Settle)
    && (Copy(pc).Some? ==> t.id in s.objects && pc.local == s.objects[t.id])
    && (Copy(pc).Some? && t.controller == Runner ==> pc.local.spec.image != "")
    && (pc.RunJobGet? ==> JobId(t.id, RunJob) in s.jobs)
    && (InNotebook(pc) && !pc.SuspendPut? && !pc.SuspendDelete? ==> !pc.local.spec.suspend)
    && (pc.NotebookDatasetGet? ==> ReadyThere(s, ModelRef(t.id, pc.local.spec)))
    && (pc.PodEvict? ==> t.id in s.pods)
    && (pc.ServiceApply? ==> ReadyThere(s, ModelRef(t.id, pc.local.spec)))
    && (pc.DeploymentGet? ==> t.id in s.deployments)
    && (InBuild(pc) ==> Building(s, t.id) && !pc.BuildJobRecreate?)
    && (pc.KnownUploadCheck? ==>
          pc.local.spec.build.value.upload.Some?
          && pc.local.spec.build.value.upload.value.request == pc.local.status.upload.request)
    && (pc.BuildJobDelete? ==> JobId(t.id, BuildJob) in s.jobs)
  }

  lemma SilentCompletion(s: Store, t: Ticket, pc: Pc)
    requires Silent(s, t, pc) && InCompletion(pc) && !Serve(s, CallOf(s.cfg, pc)).loud
    ensures Silent(s, t, Next(s, pc))
  {
    hide DesiredImage, BucketUrls.Print, ArtifactUrl, JobResult, MountUrl;
    CompletionBelongs(s.cfg, t, pc, Serve(s, CallOf(s.cfg, pc)).response);
  }

  lemma SilentNotebook(s: Store, t: Ticket, pc: Pc)
    requires Silent(s, t, pc) && InNotebook(pc) && !Serve(s, CallOf(s.cfg, pc)).loud
    ensures Silent(s, t, Next(s, pc))
  {
    hide DesiredImage, BucketUrls.Print, ArtifactUrl, NotebookTemplate, IsPodReady, MountUrl, Constructible, Building;
    NotebookBelongs(s.cfg, t, pc, Serve(s, CallOf(s.cfg, pc)).response);
  }

  lemma SilentServer(s: Store, t: Ticket, pc: Pc)
    requires Silent(s, t, pc) && InServer(pc) && !Serve(s, CallOf(s.cfg, pc)).loud
    ensures Silent(s, t, Next(s, pc))
  {
    hide DesiredImage, BucketUrls.Print, ArtifactUrl, ServerTemplate, MountUrl;
    ServerBelongs(s.cfg, t, pc, Serve(s, CallOf(s.cfg, pc)).response);
  }

  lemma SilentBuild(s: Store, t: Ticket, pc: Pc)
    requires Silent(s, t, pc) && InBuild(pc) && !Serve(s, CallOf(s.cfg, pc)).loud
    ensures Silent(s, t, Next(s, pc))
  {
    hide DesiredImage, BucketUrls.Print, ArtifactUrl, MountUrl;
    BuildBelongs(s.cfg, t, pc, Serve(s, CallOf(s.cfg, pc)).response);
    if pc.ImagePut? {
      ImageIsNew(s, t, pc);
    }
  }

  lemma ImageIsNew(s: Store, t: Ticket, pc: Pc)
    requires Silent(s, t, pc) && pc.ImagePut?
    ensures Serve(s, CallOf(s.cfg, pc)).loud
  {
    hide ImageUrl;
  }

  lemma SilentStart(s: Store, t: Ticket)
    ensures Silent(s, t, Start(t)) && Silent(s, t, Next(s, Start(t)))
  {
    hide DesiredImage, BucketUrls.Print, ArtifactUrl, MountUrl;
    BelongsStep(s.cfg, t, Start(t), Serve(s, CallOf(s.cfg, Start(t))).response);
  }

  lemma SilentStep(s: Store, t: Ticket, pc: Pc)
    requires Silent(s, t, pc) && !pc.Return? && !Serve(s, CallOf(s.cfg, pc)).loud
    ensures Silent(s, t, Next(s, pc))
  {
    hide ResumeCompletion, ResumeNotebook, ResumeServer, ResumeBuild, Begin, BuilderBegin, StuckUpload, StuckPod;
    if InCompletion(pc) {
      SilentCompletion(s, t, pc);
    } else if InNotebook(pc) {
      SilentNotebook(s, t, pc);
    } else if InServer(pc) {
      SilentServer(s, t, pc);
    } else if InBuild(pc) {
      SilentBuild(s, t, pc);
    } else if !pc.Publish? {
      assert pc == Start(t);
      SilentStart(s, t);
    }
  }

  lemma {:induction false} OnlyStuckRetries(s: Store, t: Ticket, pc: Pc)
    requires Silent(s, t, pc) && Ends(s, pc, Retry)
    ensures StuckTicket(s, t)
    decreases Rank(pc)
  {
    hide Silent, CallOf, Resume, StuckTicket;
    if pc.Return? {
      RetryIsStuck(s, t);
    } else {
      SilentStep(s, t, pc);
      OnlyStuckRetries(s, t, Next(s, pc));
    }
  }

  lemma RetryIsStuck(s: Store, t: Ticket)
    requires Silent(s, t, Return(Retry))
    ensures StuckTicket(s, t)
  {
  }

  lemma StuckUploadEnds(s: Store, id: Id)
    requires StuckUpload(s, id)
    ensures Ends(s, BuilderGet(id), Retry)
  {
    hide DesiredImage;
    var o := s.objects[id];
    var pc := KnownUploadCheck(id, o, o.spec.build.value.upload.value);
    assert Next(s, BuilderGet(id)) == pc;
    assert Next(s, pc) == Return(Retry);
    assert Ends(s, pc, Retry);
  }

  lemma EndsBack(s: Store, pc: Pc, outcome: Outcome)
    requires !pc.Return? && !Serve(s, CallOf(s.cfg, pc)).loud && Ends(s, Next(s, pc), outcome)
    ensures Ends(s, pc, outcome)
  {
    hide Resume, CallOf, Serve;
  }

  lemma StuckPodEnds(s: Store, id: Id)
    requires StuckPod(s, id)
    ensures Ends(s, RunnerGet(id), Retry)
  {
    hide BucketUrls.Print, ArtifactUrl, MountUrl, Constructible, Ends;
    var o := s.objects[id];
    var model := ModelRef(id, o.spec);
    if id.kind == Server {
      StuckServerEnds(s, id, o);
    } else if model.Some? {
      var pc := NotebookModelGet(id, o, model.value);
      var url := MountUrl(s.cfg, model.value, s.objects[model.value].status);
      assert Next(s, pc) == NotebookDataset(s.cfg, id, o, Some(url));
      StuckNotebookEnds(s, id, o, Some(url));
      EndsBack(s, pc, Retry);
      assert Next(s, RunnerGet(id)) == pc;
      EndsBack(s, RunnerGet(id), Retry);
    } else {
      StuckNotebookEnds(s, id, o, None);
      assert Next(s, RunnerGet(id)) == NotebookDataset(s.cfg, id, o, None);
      EndsBack(s, RunnerGet(id), Retry);
    }
  }

  lemma StuckNotebookEnds(s: Store, id: Id, o: Object, model: Option<string>)
    requires id in s.objects && s.objects[id] == o && !Constructible(s.cfg, o.spec)
    requires ReadyThere(s, DatasetRef(id, o.spec))
    ensures Ends(s, NotebookDataset(s.cfg, id, o, model), Retry)
  {
    hide MountUrl, Constructible;
    if DatasetRef(id, o.spec).Some? {
      var pc := NotebookDatasetGet(id, o, DatasetRef(id, o.spec).value, model);
      assert Next(s, pc) == Return(Retry);
      assert Ends(s, pc, Retry);
    }
  }

  lemma StuckServerEnds(s: Store, id: Id, o: Object)
    requires StuckPod(s, id) && id.kind == Server && o == s.objects[id]
    ensures Ends(s, RunnerGet(id), Retry)
  {
    hide MountUrl, Constructible, Ends;
    var model := ModelRef(id, o.spec).value;
    var url := MountUrl(s.cfg, model, s.objects[model].status);
    var pc := ServiceApply(id, o, url);
    assert Next(s, pc) == Return(Retry);
    assert Ends(s, Return(Retry), Retry) by { ReturnEnds(s, Retry); }
    EndsBack(s, pc, Retry);
    assert Next(s, ServerModelGet(id, o, model)) == pc;
    EndsBack(s, ServerModelGet(id, o, model), Retry);
    assert Next(s, RunnerGet(id)) == ServerModelGet(id, o, model);
    EndsBack(s, RunnerGet(id), Retry);
  }

  lemma ReturnEnds(s: Store, outcome: Outcome)
    ensures Ends(s, Return(outcome), outcome)
  {
  }

  /******* Crashes *******/

  predicate Sound(pc: Pc) {
    !pc.BuilderGet? && (pc.Return? || pc.Publish? ==> pc.outcome != Crash)
  }

  lemma RunnerSound(cfg: Config, pc: Pc, r: Response)
    requires Sound(pc) && (InCompletion(pc) || InNotebook(pc) || InServer(pc))
    ensures Sound(Resume(cfg, pc, r))
  {
    hide BucketUrls.Print, ArtifactUrl, MountUrl, Constructible, JobResult, IsPodReady;
  }

  lemma BuildSound(cfg: Config, pc: Pc, r: Response)
    requires Sound(pc) && !pc.Return? && !InCompletion(pc) && !InNotebook(pc) && !InServer(pc)
    ensures Sound(Resume(cfg, pc, r))
  {
    hide BucketUrls.Print, ArtifactUrl, MountUrl, Constructible, DesiredImage;
  }

  lemma {:induction false} SoundNeverCrashes(s: Store, pc: Pc)
    requires Sound(pc)
    ensures Reconcile(s, pc).outcome != Crash
    decreases Rank(pc)
  {
    hide Resume, CallOf, Serve;
    if !pc.Return? {
      var r := Serve(s, CallOf(s.cfg, pc)).response;
      if InCompletion(pc) || InNotebook(pc) || InServer(pc) {
        RunnerSound(s.cfg, pc, r);
      } else {
        BuildSound(s.cfg, pc, r);
      }
      SoundNeverCrashes(Serve(s, CallOf(s.cfg, pc)).store, Next(s, pc));
    }
  }

  /** A build that is due and names neither Git nor Upload. */
  predicate Sourceless(s: Store, id: Id) {
    id in s.objects && Building(s, id)
    && s.objects[id].spec.build.value.upload.None? && s.objects[id].spec.build.value.git.None?
  }

  /** The only reconcile that dereferences nil is that of the build controller on a due build without a source. */
  lemma CrashesExactly(s: Store, t: Ticket)
    ensures Reconcile(s, Start(t)).outcome == Crash <==> t.controller == Builder && Sourceless(s, t.id)
  {
    hide Reconcile, DesiredImage;
    if t.controller == Runner {
      SoundNeverCrashes(s, Start(t));
    } else {
      Silently(s, Start(t));
      var pc := Next(s, Start(t));
      if Sourceless(s, t.id) {
        assert pc == Return(Crash);
        Returned(s, Crash);
      } else {
        assert Sound(pc);
        SoundNeverCrashes(s, pc);
      }
    }
  }

  /** The keys that are retried without effect: a reconcile writes nothing, wakes nobody and returns an error exactly
      when its upload cannot be looked up or its Pod needs a GPU type that is not offered. */
  lemma StuckRetries(s: Store, t: Ticket)
    ensures Reconcile(s, Start(t)) == Completion(s, {}, Retry) <==> StuckTicket(s, t)
  {
    hide StuckUpload, StuckPod, Reconcile;
    if StuckTicket(s, t) {
      if t.controller == Builder {
        StuckUploadEnds(s, t.id);
      } else {
        StuckPodEnds(s, t.id);
      }
      EndsReconcile(s, t, Start(t), Retry);
    } else if Reconcile(s, Start(t)) == Completion(s, {}, Retry) {
      SilentStart(s, t);
      EndsReconcile(s, t, Start(t), Retry);
      OnlyStuckRetries(s, t, Start(t));
    }
  }
}
