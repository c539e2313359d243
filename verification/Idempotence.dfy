/** Idempotence: a reconcile that moves no stage has nothing left to write when it runs again. */
module Idempotence {
  import opened Basics
  import opened Identity
  import opened Cluster
  import opened Programs
  import opened Wakeups
  import opened Quiescence
  import opened Stages
  import opened Stuck
  import Network
  import BucketUrls

  /******* A reconcile that finds nothing left to do but the status *******/

  /** The same program counter with the object as it is in the end; the final write then finds its own result. */
  function Twin(pc: Pc, o: Object): Pc {
    match pc
    case Publish(id, _, _, outcome) => Publish(id, o, o.status, outcome)
    case BaseModelGet(id, _, ref) => BaseModelGet(id, o, ref)
    case DatasetGet(id, _, ref) => DatasetGet(id, o, ref)
    case DataUrlPut(id, _) => DataUrlPut(id, o)
    case RunJobCreate(id, _) => RunJobCreate(id, o)
    case RunJobGet(id, _) => RunJobGet(id, o)
    case SuspendPut(id, _) => SuspendPut(id, o)
    case SuspendDelete(id, _) => SuspendDelete(id, o)
    case NotebookModelGet(id, _, ref) => NotebookModelGet(id, o, ref)
    case NotebookDatasetGet(id, _, ref, model) => NotebookDatasetGet(id, o, ref, model)
    case PodApply(id, _, template) => PodApply(id, o, template)
    case PodEvict(id, _) => PodEvict(id, o)
    case PodGet(id, _, pod) => PodGet(id, o, pod)
    case ServerModelGet(id, _, ref) => ServerModelGet(id, o, ref)
    case ServiceApply(id, _, url) => ServiceApply(id, o, url)
    case DeploymentApply(id, _, template) => DeploymentApply(id, o, template)
    case DeploymentGet(id, _) => DeploymentGet(id, o)
    case BuildJobGet(id, _, origin) => BuildJobGet(id, o, origin)
    case _ => pc
  }

  predicate Alike(o: Object, o': Object) {
    o'.spec == o.spec && o'.generation == o.generation
  }

  lemma SameAnswers(s: Store, s': Store, id: Id, c: Call)
    requires Mild(s, s', id) && CalmObject(s, id)
    requires !(c == GetObject(id)) && !c.PutStatus? && !c.PutSpec?
    requires c == GetDependency(id) ==> Trained(id)
    requires !Serve(s, c).loud
    ensures !Serve(s', c).loud && Serve(s', c).response == Serve(s, c).response
  {
    hide BucketUrls.Print, ArtifactUrl;
  }

  lemma CompletionTwin(cfg: Config, pc: Pc, r: Response, o: Object)
    requires InCompletion(pc) && !pc.DataUrlPut? && Alike(pc.local, o)
    requires var next := ResumeCompletion(cfg, pc, r); next.Publish? ==> o.status == next.status
    ensures ResumeCompletion(cfg, Twin(pc, o), r) == Twin(ResumeCompletion(cfg, pc, r), o)
    ensures CallOf(cfg, Twin(pc, o)) == CallOf(cfg, pc)
  {
    hide BucketUrls.Print, ArtifactUrl, JobResult;
  }

  lemma LookTwin(cfg: Config, pc: Pc, r: Response, o: Object)
    requires (pc.NotebookModelGet? || pc.NotebookDatasetGet?) && Alike(pc.local, o)
    requires MountUrl(cfg, pc.id, o.status) == MountUrl(cfg, pc.id, pc.local.status)
    requires var next := ResumeNotebook(cfg, pc, r); next.Publish? ==> o.status == next.status
    ensures ResumeNotebook(cfg, Twin(pc, o), r) == Twin(ResumeNotebook(cfg, pc, r), o)
    ensures CallOf(cfg, Twin(pc, o)) == CallOf(cfg, pc)
  {
    hide BucketUrls.Print, ArtifactUrl, MountUrl;
  }

  lemma PodTwin(cfg: Config, pc: Pc, r: Response, o: Object)
    requires (pc.SuspendDelete? || pc.PodApply? || pc.PodEvict? || pc.PodGet?) && Alike(pc.local, o)
    requires MountUrl(cfg, pc.id, o.status) == MountUrl(cfg, pc.id, pc.local.status)
    requires var next := ResumeNotebook(cfg, pc, r); next.Publish? ==> o.status == next.status
    ensures ResumeNotebook(cfg, Twin(pc, o), r) == Twin(ResumeNotebook(cfg, pc, r), o)
    ensures CallOf(cfg, Twin(pc, o)) == CallOf(cfg, pc)
  {
    hide BucketUrls.Print, ArtifactUrl, IsPodReady, MountUrl, Constructible;
  }

  lemma NotebookTwin(cfg: Config, pc: Pc, r: Response, o: Object)
    requires InNotebook(pc) && !pc.SuspendPut? && Alike(pc.local, o)
    requires MountUrl(cfg, pc.id, o.status) == MountUrl(cfg, pc.id, pc.local.status)
    requires var next := ResumeNotebook(cfg, pc, r); next.Publish? ==> o.status == next.status
    ensures ResumeNotebook(cfg, Twin(pc, o), r) == Twin(ResumeNotebook(cfg, pc, r), o)
    ensures CallOf(cfg, Twin(pc, o)) == CallOf(cfg, pc)
  {
    hide ResumeNotebook, CallOf, Twin, Alike, MountUrl;
    if pc.NotebookModelGet? || pc.NotebookDatasetGet? {
      LookTwin(cfg, pc, r, o);
    } else {
      PodTwin(cfg, pc, r, o);
    }
  }

  lemma ServerTwin(cfg: Config, pc: Pc, r: Response, o: Object)
    requires InServer(pc) && Alike(pc.local, o)
    requires var next := ResumeServer(cfg, pc, r); next.Publish? ==> o.status == next.status
    ensures ResumeServer(cfg, Twin(pc, o), r) == Twin(ResumeServer(cfg, pc, r), o)
    ensures CallOf(cfg, Twin(pc, o)) == CallOf(cfg, pc)
  {
    hide BucketUrls.Print, ArtifactUrl;
  }

  lemma BeginTwin(cfg: Config, id: Id, o: Object, o': Object)
    requires Alike(o, o') && (Trained(id) ==> o'.status.ready == o.status.ready)
    requires MountUrl(cfg, id, o'.status) == MountUrl(cfg, id, o.status)
    ensures Begin(cfg, id, o') == Twin(Begin(cfg, id, o), o')
  {
    hide BucketUrls.Print, ArtifactUrl, MountUrl;
  }

  /** A call that leaves all stages where they are writes at most a status. */
  lemma OnlyStatusWrites(s: Store, t: Ticket, pc: Pc)
    requires Fits(s, t, pc) && Calm(s) && !pc.Return?
    requires SameStage(s, Serve(s, CallOf(s.cfg, pc)).store, t.id)
    requires !CallOf(s.cfg, pc).PutStatus?
    ensures !Serve(s, CallOf(s.cfg, pc)).loud
  {
    hide StageOf, CalmObject, FitsRunner, FitsPublish, NotebookTemplate, ServerTemplate, DesiredImage, FitsBuilder;
    hide Serve;
    CallMoves(s, t, pc);
    if pc.ImagePut? {
      ImageMatters(s, t, pc);
    } else if Serve(s, CallOf(s.cfg, pc)).loud {
      LoudChildren(s, CallOf(s.cfg, pc));
    }
  }

  lemma LoudChildren(s: Store, c: Call)
    requires !c.PutStatus? && !c.PutSpec? && Serve(s, c).loud
    ensures var s' := Serve(s, c).store;
            s'.jobs != s.jobs || s'.pods != s.pods || s'.services != s.services || s'.deployments != s.deployments
  {
    hide CallOf, Resume;
    var s' := Serve(s, c).store;
    if c.CreateJob? {
      assert c.job in s'.jobs && c.job !in s.jobs;
    } else if c.DeleteJob? {
      assert c.job !in s'.jobs && c.job in s.jobs;
    }
  }

  lemma ImageMatters(s: Store, t: Ticket, pc: Pc)
    requires Fits(s, t, pc) && pc.ImagePut?
    ensures var s' := Serve(s, CallOf(s.cfg, pc)).store;
            t.id in s'.objects && s'.objects[t.id].spec != s.objects[t.id].spec
  {
    hide DesiredImage, FitsRunner;
  }

  lemma MildItself(s: Store, id: Id)
    requires id in s.objects
    ensures Mild(s, s, id)
  {
    hide BucketUrls.Print, ArtifactUrl;
    assert s.objects == s.objects[id := s.objects[id]];
  }

  /** The final store differs from `s` at most mildly. */
  lemma EndsMild(s: Store, t: Ticket, pc: Pc)
    requires Fits(s, t, pc) && Calm(s)
    requires SameStage(s, Reconcile(s, pc).store, t.id)
    ensures Mild(s, Reconcile(s, pc).store, t.id) && Calm(Reconcile(s, pc).store)
    ensures var done := Reconcile(s, pc);
            done.outcome == Settle || (done.outcome == Retry && StuckTicket(done.store, t))
  {
    hide StageOf, CalmObject, FitsRunner, FitsBuilder, FitsPublish, Mild, Reconcile;
    ReconcileProgress(s, t, pc);
    MildItself(s, t.id);
  }

  lemma MildFacts(s: Store, s': Store, id: Id)
    requires Mild(s, s', id) && CalmObject(s, id)
    ensures Alike(s.objects[id], s'.objects[id])
    ensures Trained(id) ==> s'.objects[id].status.ready == s.objects[id].status.ready
    ensures MountUrl(s.cfg, id, s'.objects[id].status) == MountUrl(s.cfg, id, s.objects[id].status)
    ensures s'.cfg == s.cfg
  {
    hide BucketUrls.Print, ArtifactUrl, Building;
  }

  lemma PublishRests(s: Store, t: Ticket, pc: Pc)
    requires Fits(s, t, pc) && pc.Publish?
    ensures t.id in Reconcile(s, pc).store.objects
    ensures Reconcile(s, pc).store.objects[t.id].status == pc.status
  {
  }

  lemma TwinPublishQuiet(s: Store, id: Id, o: Object)
    requires id in s.objects && s.objects[id] == o
    ensures Quiet(s, Publish(id, o, o.status, Settle))
  {
  }

  /** The twin after a silent call, one lemma per group. */
  lemma RunnerTwin(cfg: Config, pc: Pc, r: Response, o: Object)
    requires InCompletion(pc) || InNotebook(pc) || InServer(pc)
    requires !pc.DataUrlPut? && !pc.SuspendPut? && Alike(pc.local, o)
    requires MountUrl(cfg, pc.id, o.status) == MountUrl(cfg, pc.id, pc.local.status)
    requires Resume(cfg, pc, r).Publish? ==> o.status == Resume(cfg, pc, r).status
    ensures !Twin(pc, o).Return?
    ensures Resume(cfg, Twin(pc, o), r) == Twin(Resume(cfg, pc, r), o)
    ensures CallOf(cfg, Twin(pc, o)) == CallOf(cfg, pc)
  {
    hide MountUrl, Alike, CallOf, ResumeCompletion, ResumeNotebook, ResumeServer;
    if InCompletion(pc) {
      CompletionTwin(cfg, pc, r, o);
    } else if InNotebook(pc) {
      NotebookTwin(cfg, pc, r, o);
    } else {
      ServerTwin(cfg, pc, r, o);
    }
  }

  predicate InRunner(pc: Pc) {
    InCompletion(pc) || InNotebook(pc) || InServer(pc)
  }

  lemma RunnerReads(s: Store, t: Ticket, pc: Pc)
    requires Fits(s, t, pc) && InRunner(pc) && !pc.DataUrlPut? && !pc.SuspendPut?
    ensures var c := CallOf(s.cfg, pc);
            t.id in s.objects && !c.GetObject? && !c.PutStatus? && !c.PutSpec? && (c.GetDependency? ==> Trained(c.id))
  {
    hide Resume, FitsRunner, FitsBuilder, FitsPublish;
  }

  lemma SilentRunner(s: Store, s': Store, t: Ticket, pc: Pc)
    requires Fits(s, t, pc) && Calm(s) && InRunner(pc) && !pc.DataUrlPut? && !pc.SuspendPut?
    requires SameStage(s, Serve(s, CallOf(s.cfg, pc)).store, t.id)
    requires Mild(s, s', t.id)
    ensures Serve(s, CallOf(s.cfg, pc)).store == s && Woken(s, CallOf(s.cfg, pc)) == {}
    ensures !Serve(s', CallOf(s.cfg, pc)).loud
    ensures Serve(s', CallOf(s.cfg, pc)).response == Serve(s, CallOf(s.cfg, pc)).response
  {
    hide Fits, StageOf, CalmObject, Mild, Serve, CallOf, Resume, Wake;
    var c := CallOf(s.cfg, pc);
    RunnerReads(s, t, pc);
    OnlyStatusWrites(s, t, pc);
    ServeOnlyAt(s, c);
    SameAnswers(s, s', t.id, c);
  }

  lemma SuspendRests(s: Store, s1: Store, t: Ticket, pc: Pc)
    requires t.controller == Runner && Fits(s, t, pc) && Calm(s) && pc.SuspendPut?
    requires s1 == Serve(s, CallOf(s.cfg, pc)).store && Calm(s1) && Fits(s1, t, Next(s, pc))
    requires SameStage(s1, Serve(s1, DeletePod(t.id)).store, t.id)
    ensures Reconcile(s, pc).store == s1 && Quiet(s1, Twin(pc, s1.objects[t.id]))
  {
    hide StageOf, CalmObject, Mild, FitsRunner, FitsBuilder, FitsPublish;
    var id, o := t.id, pc.local;
    var st := ServingStatus(o, false, Suspended);
    var o1 := s1.objects[id];
    var pc1 := SuspendDelete(id, o1);
    assert Next(s, pc) == pc1;
    OnlyStatusWrites(s1, t, pc1);
    assert Serve(s1, DeletePod(id)).store == s1;
    assert Reconcile(s1, pc1).store == s1;
    assert o1.status == st && ServingStatus(o1, false, Suspended) == st;
    assert Quiet(s1, pc1);
  }

  lemma AfterPut(s: Store, t: Ticket, pc: Pc)
    requires t.controller == Runner && Fits(s, t, pc) && (pc.SuspendPut? || pc.DataUrlPut?)
    ensures var s1 := Serve(s, CallOf(s.cfg, pc)).store;
            t.id in s1.objects
            && Next(s, pc) == (if pc.SuspendPut? then SuspendDelete(t.id, s1.objects[t.id])
                               else RunJobCreate(t.id, s1.objects[t.id]))
  {
    hide FitsRunner, FitsBuilder, FitsPublish;
  }

  lemma TwinEnds(id: Id, pc: Pc, o: Object)
    requires pc.Return? || (pc.Publish? && pc.id == id)
    ensures Twin(pc, o) == if pc.Return? then pc else Publish(id, o, o.status, pc.outcome)
  {
  }

  lemma TwinQuietStep(s: Store, s': Store, pc: Pc, o: Object)
    requires !pc.Return? && !Twin(pc, o).Return? && s'.cfg == s.cfg
    requires CallOf(s.cfg, Twin(pc, o)) == CallOf(s.cfg, pc)
    requires !Serve(s', CallOf(s.cfg, pc)).loud
    requires Serve(s', CallOf(s.cfg, pc)).response == Serve(s, CallOf(s.cfg, pc)).response
    requires Resume(s.cfg, Twin(pc, o), Serve(s, CallOf(s.cfg, pc)).response) == Twin(Next(s, pc), o)
    requires Quiet(s', Twin(Next(s, pc), o))
    ensures Quiet(s', Twin(pc, o))
  {
    hide Resume, CallOf, Twin, Serve;
  }

  /** The ticket would write nothing now: it would return no error, or it is stuck. */
  ghost predicate AtEase(s: Store, t: Ticket) {
    Quiet(s, Start(t)) || StuckTicket(s, t)
  }

  lemma SuspendedRests(s: Store, s': Store, t: Ticket, pc: Pc)
    requires t.controller == Runner && Fits(s, t, pc) && Calm(s) && pc.SuspendPut?
    requires s' == Reconcile(s, pc).store && SameStage(s, s', t.id)
    ensures Quiet(s', Twin(pc, s'.objects[t.id]))
  {
    hide StageOf, CalmObject, FitsRunner, FitsBuilder, FitsPublish, Mild, Resume, CallOf, Twin, Alike, MountUrl, Serve;
    hide StuckTicket;
    var s1, pc1 := Serve(s, CallOf(s.cfg, pc)).store, Next(s, pc);
    CallProgress(s, t, pc);
    CallFits(s, t, pc);
    ReconcileProgress(s1, t, pc1);
    AfterPut(s, t, pc);
    assert CallOf(s.cfg, pc1) == DeletePod(t.id) by {
      SuspendCall(s.cfg, t.id, s1.objects[t.id]);
    }
    CallProgress(s1, t, pc1);
    CallFits(s1, t, pc1);
    ReconcileProgress(Serve(s1, DeletePod(t.id)).store, t, Next(s1, pc1));
    SuspendRests(s, s1, t, pc);
  }

  /** Where a reconcile that only writes the status ends, it would stop writing when started again: every program
      counter it went through is quiet once it holds the final object. */
  lemma {:induction false} RunnerRests(s: Store, s': Store, t: Ticket, pc: Pc)
    requires t.controller == Runner && Fits(s, t, pc) && Calm(s) && InRunner(pc)
    requires s' == Reconcile(s, pc).store && SameStage(s, s', t.id)
    ensures Quiet(s', Twin(pc, s'.objects[t.id])) || StuckTicket(s', t)
    decreases Rank(pc)
  {
    hide StageOf, CalmObject, FitsRunner, FitsBuilder, FitsPublish, Mild, Resume, CallOf, Twin, Alike, MountUrl, Serve;
    hide StuckTicket;
    var s1, pc1 := Serve(s, CallOf(s.cfg, pc)).store, Next(s, pc);
    CallProgress(s, t, pc);
    CallFits(s, t, pc);
    ReconcileProgress(s1, t, pc1);
    if pc.SuspendPut? {
      SuspendedRests(s, s', t, pc);
    } else if pc.DataUrlPut? {
      AfterPut(s, t, pc);
      EndsMild(s1, t, pc1);
      RunnerRests(s1, s', t, pc1);
      if !StuckTicket(s', t) {
        DataUrlRests(s, s', t, pc);
      }
    } else {
      EndsMild(s, t, pc);
      SilentNext(s, s', t, pc);
      SilentRests(s, s', t, pc, s'.objects[t.id]);
      if !pc1.Return? && !pc1.Publish? {
        RunnerRests(s, s', t, pc1);
      }
      if !StuckTicket(s', t) {
        TwinQuietStep(s, s', pc, s'.objects[t.id]);
      }
    }
  }

  lemma SilentNext(s: Store, s': Store, t: Ticket, pc: Pc)
    requires Fits(s, t, pc) && Calm(s) && InRunner(pc) && !pc.DataUrlPut? && !pc.SuspendPut?
    requires SameStage(s, Serve(s, CallOf(s.cfg, pc)).store, t.id) && Mild(s, s', t.id)
    requires s' == Reconcile(s, pc).store
    ensures s' == Reconcile(s, Next(s, pc)).store
  {
    hide StageOf, CalmObject, FitsRunner, FitsBuilder, FitsPublish, Mild, Resume, CallOf, Serve, Reconcile;
    SilentRunner(s, s', t, pc);
    ReconcileNext(s, pc);
  }

  lemma SuspendCall(cfg: Config, id: Id, o: Object)
    ensures CallOf(cfg, SuspendDelete(id, o)) == DeletePod(id)
  {
  }

  lemma SilentRests(s: Store, s': Store, t: Ticket, pc: Pc, o': Object)
    requires t.controller == Runner && Fits(s, t, pc) && Calm(s) && InRunner(pc) && !pc.DataUrlPut? && !pc.SuspendPut?
    requires s' == Reconcile(s, Next(s, pc)).store && Mild(s, s', t.id) && o' == s'.objects[t.id]
    requires SameStage(s, Serve(s, CallOf(s.cfg, pc)).store, t.id)
    requires Fits(Serve(s, CallOf(s.cfg, pc)).store, t, Next(s, pc))
    ensures Serve(s, CallOf(s.cfg, pc)).store == s && s'.cfg == s.cfg && !Twin(pc, o').Return?
    ensures !Serve(s', CallOf(s.cfg, pc)).loud
    ensures Serve(s', CallOf(s.cfg, pc)).response == Serve(s, CallOf(s.cfg, pc)).response
    ensures CallOf(s.cfg, Twin(pc, o')) == CallOf(s.cfg, pc)
    ensures Resume(s.cfg, Twin(pc, o'), Serve(s, CallOf(s.cfg, pc)).response) == Twin(Next(s, pc), o')
    ensures Next(s, pc).Return? || Next(s, pc).Publish? ==> Quiet(s', Twin(Next(s, pc), o')) || StuckTicket(s', t)
  {
    hide StageOf, CalmObject, FitsRunner, FitsBuilder, FitsPublish, Mild, Resume, CallOf, Twin, Alike, MountUrl, Serve,
      Reconcile, StuckTicket;
    MildFacts(s, s', t.id);
    SilentRunner(s, s', t, pc);
    var pc1 := Next(s, pc);
    if pc1.Publish? {
      PublishRests(s, t, pc1);
      TwinPublishQuiet(s', t.id, o');
      TwinEnds(t.id, pc1, o');
    } else if pc1.Return? {
      TwinEnds(t.id, pc1, o');
      Returned(s, pc1.outcome);
    }
    RunnerTwin(s.cfg, pc, Serve(s, CallOf(s.cfg, pc)).response, o');
  }

  lemma DataUrlRests(s: Store, s': Store, t: Ticket, pc: Pc)
    requires t.controller == Runner && Fits(s, t, pc) && CalmObject(s, t.id) && pc.DataUrlPut?
    requires var s1 := Serve(s, CallOf(s.cfg, pc)).store;
             s' == Reconcile(s1, Next(s, pc)).store && Mild(s1, s', t.id)
             && Quiet(s', Twin(Next(s, pc), s'.objects[t.id]))
    ensures Quiet(s', Twin(pc, s'.objects[t.id]))
  {
    hide BucketUrls.Print, ArtifactUrl, FitsRunner, FitsBuilder, Reconcile;
    var o' := s'.objects[t.id];
    assert o'.status.url == BucketUrls.Print(ArtifactUrl(s.cfg, t.id));
    assert Twin(Next(s, pc), o') == RunJobCreate(t.id, o');
    assert WithUrl(s'.cfg, t.id, o'.status) == o'.status;
  }

  lemma RunnerAgain(s: Store, s': Store, t: Ticket)
    requires t.controller == Runner && t.id in s.objects && Calm(s)
    requires s' == Reconcile(s, Start(t)).store && SameStage(s, s', t.id)
    ensures AtEase(s', t)
  {
    hide StageOf, CalmObject, FitsRunner, FitsBuilder, FitsPublish, Mild, Begin, Twin, Alike, MountUrl, StuckTicket;
    var o, o' := s.objects[t.id], s'.objects[t.id];
    var pc1 := Begin(s.cfg, t.id, o);
    assert Next(s, Start(t)) == pc1 && Reconcile(s, pc1).store == s';
    BeginFits(s, t);
    EndsMild(s, t, pc1);
    MildFacts(s, s', t.id);
    BeginTwin(s.cfg, t.id, o, o');
    BeginRuns(s.cfg, t.id, o);
    assert Next(s', Start(t)) == Twin(pc1, o');
    if pc1.Return? {
      TwinEnds(t.id, pc1, o');
      Returned(s, pc1.outcome);
    } else {
      RunnerRests(s, s', t, pc1);
    }
  }

  lemma BeginRuns(cfg: Config, id: Id, o: Object)
    ensures Begin(cfg, id, o).Return? || InRunner(Begin(cfg, id, o))
  {
  }

  /******* The same for the build controller *******/

  /** With all stages where they are, the Job is there, up to date and unfinished. */
  lemma BuildTail(s: Store, s': Store, t: Ticket, pc: Pc)
    requires Fits(s, t, pc) && Calm(s) && pc.BuildJobGet?
    requires s' == Reconcile(s, pc).store && SameStage(s, s', t.id)
    ensures s'.objects[t.id].status == BuildPendingStatus(s.objects[t.id]) && Mild(s, s', t.id)
    ensures Quiet(s', BuildJobGet(t.id, s'.objects[t.id], pc.origin))
  {
    hide StageOf, CalmObject, FitsRunner, FitsBuilder, FitsPublish, Mild, DesiredImage;
    var id, o := t.id, pc.local;
    var pc1 := Next(s, pc);
    CallFits(s, t, pc);
    EndsMild(s, t, pc);
    assert Reconcile(s, pc1).store == s';
    CallProgress(s, t, pc1);
    if !pc1.BuildJobDelete? {
      CallFits(s, t, pc1);
      ReconcileProgress(Serve(s, CallOf(s.cfg, pc1)).store, t, Next(s, pc1));
    } else {
      DeleteProgress(s, t, pc1);
    }
    PendingTail(s, s', t, pc);
  }

  lemma PendingTail(s: Store, s': Store, t: Ticket, pc: Pc)
    requires Fits(s, t, pc) && Calm(s) && pc.BuildJobGet? && Fits(s, t, Next(s, pc))
    requires s' == Reconcile(s, Next(s, pc)).store && SameStage(s, s', t.id) && Mild(s, s', t.id)
    requires SameStage(s, Serve(s, CallOf(s.cfg, Next(s, pc))).store, t.id)
    ensures s'.objects[t.id].status == BuildPendingStatus(s.objects[t.id])
    ensures Quiet(s', BuildJobGet(t.id, s'.objects[t.id], pc.origin))
  {
    hide StageOf, CalmObject, FitsRunner, FitsPublish, DesiredImage, BucketUrls.Print, ArtifactUrl, Quiet, Mild;
    var id, o := t.id, pc.local;
    var pc1 := Next(s, pc);
    if !pc1.Publish? {
      OnlyStatusWrites(s, t, pc1);
      assert false;
    }
    var o' := s'.objects[id];
    assert pc1 == BuildPending(id, o);
    PublishRests(s, t, pc1);
    MildKeeps(s, s', id);
    PendingQuiet(s, s', id, o, o', pc.origin);
  }

  lemma PendingQuiet(s: Store, s': Store, id: Id, o: Object, o': Object, origin: Origin)
    requires s'.cfg == s.cfg && s'.jobs == s.jobs && Alike(o, o') && o'.status == BuildPendingStatus(o)
    requires id in s'.objects && s'.objects[id] == o'
    requires JobId(id, BuildJob) in s.jobs
             && BuildJobSeen(s.cfg, id, o, s.jobs[JobId(id, BuildJob)]) == BuildPending(id, o)
    ensures Quiet(s', BuildJobGet(id, o', origin))
  {
    hide DesiredImage, Quiet;
    var job := s.jobs[JobId(id, BuildJob)];
    assert DesiredImage(s'.cfg, id, o'.spec) == DesiredImage(s.cfg, id, o.spec) by { SameDesired(s.cfg, id, o, o'); }
    assert BuildPendingStatus(o') == o'.status;
    assert Next(s', BuildJobGet(id, o', origin)) == Publish(id, o', o'.status, Settle);
    TwinPublishQuiet(s', id, o');
    QuietBack(s', BuildJobGet(id, o', origin));
  }

  lemma SameDesired(cfg: Config, id: Id, o: Object, o': Object)
    requires Alike(o, o')
    ensures DesiredImage(cfg, id, o'.spec) == DesiredImage(cfg, id, o.spec)
  {
  }

  lemma StoredPutSilent(s: Store, id: Id, o: Object, md5: string)
    requires id in s.objects && s.objects[id] == o
    requires Quiet(s, BuildJobGet(id, o, FromUpload(md5)))
    ensures Quiet(s, StoredPut(id, o, o.status, md5))
  {
    hide Quiet;
    assert Next(s, StoredPut(id, o, o.status, md5)) == BuildJobGet(id, o, FromUpload(md5));
    QuietBack(s, StoredPut(id, o, o.status, md5));
  }

  /** An upload build whose status records the stored checksum finds nothing to write before it looks at its Job. */
  lemma UploadedQuiet(s: Store, id: Id, o: Object, upload: Upload)
    requires id in s.objects && s.objects[id] == o && Building(s, id)
    requires o.spec.build.value.upload == Some(upload) && id in s.blobs && s.blobs[id] == upload.md5
    requires o.status.upload.request in {"", upload.request}
    requires o.status.upload == UploadStatus(None, o.status.upload.request, upload.md5)
    requires Uploaded in o.status.conditions
             && o.status.conditions[Uploaded] == Condition(true, UploadFound, o.generation)
    requires Quiet(s, BuildJobGet(id, o, FromUpload(upload.md5)))
    ensures Quiet(s, BuilderGet(id))
  {
    hide Building, Quiet, Resume, CallOf, Serve, StoredStatus, UploadCheck;
    var check := UploadCheck(id, o, upload);
    StoredStatusStays(o, o.status.upload.request, upload.md5);
    CheckFinds(s, id, o, upload);
    CheckIsSilent(s, check);
    StoredPutSilent(s, id, o, upload.md5);
    QuietBack(s, check);
    BuilderChecks(s, id, upload);
    QuietBack(s, BuilderGet(id));
  }

  lemma StoredStatusStays(o: Object, request: string, md5: string)
    requires o.status.upload == UploadStatus(None, request, md5)
    requires Uploaded in o.status.conditions
             && o.status.conditions[Uploaded] == Condition(true, UploadFound, o.generation)
    ensures StoredStatus(o, request, md5) == o.status
  {
    assert StoredStatus(o, request, md5).conditions == o.status.conditions;
  }

  /** The lookup that starts the build reconcile of an upload. */
  function UploadCheck(id: Id, o: Object, upload: Upload): Pc {
    if upload.request != o.status.upload.request then NewUploadCheck(id, o, upload) else KnownUploadCheck(id, o, upload)
  }

  lemma CheckFinds(s: Store, id: Id, o: Object, upload: Upload)
    requires id in s.blobs && s.blobs[id] == upload.md5 && o.status.upload.request in {"", upload.request}
    ensures var pc := UploadCheck(id, o, upload);
            (pc.NewUploadCheck? || pc.KnownUploadCheck?)
            && Next(s, pc) == StoredPut(id, o, StoredStatus(o, o.status.upload.request, upload.md5), upload.md5)
  {
    hide StoredStatus;
  }

  lemma BuilderChecks(s: Store, id: Id, upload: Upload)
    requires id in s.objects && Building(s, id) && s.objects[id].spec.build.value.upload == Some(upload)
    ensures !Serve(s, CallOf(s.cfg, BuilderGet(id))).loud
    ensures Next(s, BuilderGet(id)) == UploadCheck(id, s.objects[id], upload)
  {
    hide ImageUrl;
  }

  lemma StoredAgain(s: Store, s2: Store, s': Store, t: Ticket, pc: Pc, upload: Upload)
    requires Fits(s, t, pc) && pc.StoredPut? && CalmObject(s, t.id)
    requires pc.local.spec.build.value.upload == Some(upload) && InBucket(s, t.id, upload.md5)
    requires pc.md5 == upload.md5 && pc.status == StoredStatus(pc.local, pc.status.upload.request, upload.md5)
    requires pc.status.upload.request in {"", upload.request}
    requires s2 == Serve(s, CallOf(s.cfg, pc)).store && Fits(s2, t, Next(s, pc)) && Calm(s2)
    requires s' == Reconcile(s2, Next(s, pc)).store && SameStage(s2, s', t.id)
    ensures Quiet(s', BuilderGet(t.id))
  {
    hide StageOf, CalmObject, FitsRunner, FitsPublish, Mild, DesiredImage, BucketUrls.Print, ArtifactUrl, ServeApplyPod;
    var id := t.id;
    var pc2 := Next(s, pc);
    assert pc2 == BuildJobGet(id, s2.objects[id], FromUpload(upload.md5));
    assert s2.objects[id].status == pc.status && s2.blobs == s.blobs;
    BuildTail(s2, s', t, pc2);
    MildKeeps(s2, s', id);
    UploadedQuiet(s', id, s'.objects[id], upload);
  }

  predicate InBucket(s: Store, id: Id, md5: string) {
    id in s.blobs && s.blobs[id] == md5
  }

  lemma MildKeeps(s: Store, s': Store, id: Id)
    requires Mild(s, s', id)
    ensures Building(s', id) == Building(s, id) && Alike(s.objects[id], s'.objects[id])
    ensures s'.blobs == s.blobs && s'.jobs == s.jobs && s'.cfg == s.cfg
  {
    hide DesiredImage;
    assert DesiredImage(s'.cfg, id, s'.objects[id].spec) == DesiredImage(s.cfg, id, s.objects[id].spec);
  }

  lemma AwaitingAgain(s: Store, s': Store, t: Ticket, o: Object, url: SignedUrl, upload: Upload)
    requires t.controller == Builder && t.id in s'.objects && Building(s', t.id) && s'.objects[t.id].spec == o.spec
    requires s'.cfg == s.cfg && o.spec.build.Some? && o.spec.build.value.upload == Some(upload)
    requires s'.objects[t.id].status == AwaitingUploadStatus(o, url, upload.request)
    requires !InBucket(s', t.id, upload.md5)
    ensures AtEase(s', t)
  {
    hide DesiredImage, Quiet;
    var id, o' := t.id, s'.objects[t.id];
    var pc := KnownUploadCheck(id, o', upload);
    if id in s'.blobs {
      assert Next(s', pc) == Return(Settle);
      Returned(s', Settle);
      QuietBack(s', pc);
      assert Next(s', BuilderGet(id)) == pc;
      QuietBack(s', BuilderGet(id));
    }
  }

  lemma StartQuiet(s: Store, id: Id, o: Object)
    requires id in s.objects && s.objects[id] == o
    requires Quiet(s, BuilderBegin(s.cfg, id, o))
    ensures Quiet(s, BuilderGet(id))
  {
    hide Quiet, BuilderBegin;
    assert Next(s, BuilderGet(id)) == BuilderBegin(s.cfg, id, o);
    QuietBack(s, BuilderGet(id));
  }

  lemma CheckStored(s: Store, s': Store, t: Ticket, pc: Pc)
    requires Fits(s, t, pc) && Calm(s) && (pc.NewUploadCheck? || pc.KnownUploadCheck?)
    requires pc == BuilderBegin(s.cfg, t.id, pc.local) && Next(s, pc).StoredPut? && Fits(s, t, Next(s, pc))
    requires Network.SchemaOk(pc.local.spec)
    requires s' == Reconcile(s, Next(s, pc)).store && SameStage(s, s', t.id)
    ensures Quiet(s', BuilderGet(t.id))
  {
    hide StageOf, CalmObject, FitsRunner, FitsBuilder, FitsPublish, DesiredImage, Quiet, Mild, CallOf, Resume;
    var pc1 := Next(s, pc);
    StoredAfterCheck(s, t.id, pc);
    var s2 := Serve(s, CallOf(s.cfg, pc1)).store;
    CallProgress(s, t, pc1);
    CallFits(s, t, pc1);
    ReconcileProgress(s2, t, Next(s, pc1));
    StoredAgain(s, s2, s', t, pc1, pc.upload);
  }

  lemma StoredAfterCheck(s: Store, id: Id, pc: Pc)
    requires (pc.NewUploadCheck? || pc.KnownUploadCheck?) && pc.id == id && Network.SchemaOk(pc.local.spec)
    requires pc == BuilderBegin(s.cfg, id, pc.local) && Next(s, pc).StoredPut?
    ensures pc.local.spec.build.Some? && pc.local.spec.build.value.upload == Some(pc.upload)
    ensures InBucket(s, id, pc.upload.md5)
    ensures var pc1 := Next(s, pc);
            pc1.local == pc.local && pc1.md5 == pc.upload.md5
            && pc1.status.upload.request in {"", pc.upload.request}
            && pc1.status == StoredStatus(pc.local, pc1.status.upload.request, pc.upload.md5)
  {
    hide DesiredImage;
  }

  lemma CheckSigns(s: Store, s': Store, t: Ticket, pc: Pc)
    requires Fits(s, t, pc) && Calm(s) && pc.UrlSign? && pc.local.spec.build.value.upload == Some(pc.upload)
    requires s' == Reconcile(s, pc).store && Mild(s, s', t.id) && !InBucket(s, t.id, pc.upload.md5)
    ensures AtEase(s', t)
  {
    hide StageOf, CalmObject, FitsRunner, FitsPublish, DesiredImage, BucketUrls.Print, ArtifactUrl, Quiet, Mild;
    hide Reconcile;
    var url := SignedUrl(t.id, pc.upload.md5, pc.local.version);
    var pc1 := Publish(t.id, pc.local, AwaitingUploadStatus(pc.local, url, pc.upload.request), Settle);
    assert Next(s, pc) == pc1;
    CallFits(s, t, pc);
    Silently(s, pc);
    PublishRests(s, t, pc1);
    MildKeeps(s, s', t.id);
    AwaitingAgain(s, s', t, pc.local, url, pc.upload);
  }

  lemma AfterCheck(s: Store, id: Id, pc: Pc)
    requires (pc.NewUploadCheck? || pc.KnownUploadCheck?) && pc.id == id
    requires pc == BuilderBegin(s.cfg, id, pc.local) && !Next(s, pc).StoredPut?
    ensures pc.local.spec.build.Some? && pc.local.spec.build.value.upload == Some(pc.upload)
    ensures Next(s, pc) == Return(Settle) || Next(s, pc) == Return(Retry)
            || (Next(s, pc) == UrlSign(id, pc.local, pc.upload) && !InBucket(s, id, pc.upload.md5))
  {
    hide DesiredImage;
  }

  lemma CheckOther(s: Store, s': Store, t: Ticket, pc: Pc)
    requires Fits(s, t, pc) && Calm(s) && (pc.NewUploadCheck? || pc.KnownUploadCheck?)
    requires pc == BuilderBegin(s.cfg, t.id, pc.local) && !Next(s, pc).StoredPut? && Fits(s, t, Next(s, pc))
    requires s' == Reconcile(s, Next(s, pc)).store && Mild(s, s', t.id)
    ensures AtEase(s', t)
  {
    hide StageOf, FitsRunner, FitsPublish, DesiredImage, BucketUrls.Print, ArtifactUrl, Quiet, Mild, Reconcile;
    hide StuckTicket;
    var pc1 := Next(s, pc);
    AfterCheck(s, t.id, pc);
    if pc1.UrlSign? {
      CheckSigns(s, s', t, pc1);
    } else {
      Returned(s, pc1.outcome);
      if pc1.outcome == Settle {
        CheckIsSilent(s, pc);
        QuietBack(s, pc);
        StartQuiet(s, t.id, pc.local);
      }
    }
  }

  lemma GitAgain(s: Store, s': Store, t: Ticket, pc: Pc)
    requires Fits(s, t, pc) && Calm(s) && pc.BuildJobGet? && pc == BuilderBegin(s.cfg, t.id, pc.local)
    requires s' == Reconcile(s, pc).store && SameStage(s, s', t.id)
    ensures Quiet(s', BuilderGet(t.id))
  {
    hide StageOf, CalmObject, FitsRunner, FitsBuilder, FitsPublish, DesiredImage, Quiet, Mild, Reconcile;
    BuildTail(s, s', t, pc);
    MildKeeps(s, s', t.id);
    SameDesired(s.cfg, t.id, pc.local, s'.objects[t.id]);
    StartQuiet(s', t.id, s'.objects[t.id]);
  }

  lemma BuilderStart(s: Store, t: Ticket)
    requires t.controller == Builder && t.id in s.objects && CalmObject(s, t.id)
    ensures var pc := BuilderBegin(s.cfg, t.id, s.objects[t.id]);
            Next(s, Start(t)) == pc && Serve(s, CallOf(s.cfg, Start(t))).store == s
            && (pc.BuildJobGet? || pc.NewUploadCheck? || pc.KnownUploadCheck? || pc == Return(Settle))
            && (Copy(pc).Some? ==> Network.SchemaOk(pc.local.spec))
  {
    hide DesiredImage, BucketUrls.Print, ArtifactUrl;
  }

  lemma BuilderAgain(s: Store, s': Store, t: Ticket)
    requires t.controller == Builder && t.id in s.objects && Calm(s)
    requires s' == Reconcile(s, Start(t)).store && SameStage(s, s', t.id)
    ensures AtEase(s', t)
  {
    hide StageOf, CalmObject, FitsRunner, FitsBuilder, FitsPublish, Quiet, Mild, Reconcile, Serve, BuilderBegin;
    hide StuckTicket;
    var pc := BuilderBegin(s.cfg, t.id, s.objects[t.id]);
    BuilderStart(s, t);
    ReconcileNext(s, Start(t));
    FitsBegin(s, t);
    if pc.Return? {
      Returned(s, Settle);
      StartQuiet(s, t.id, s.objects[t.id]);
    } else if pc.BuildJobGet? {
      GitAgain(s, s', t, pc);
    } else {
      EndsMild(s, t, pc);
      CallFits(s, t, pc);
      CheckIsSilent(s, pc);
      ReconcileNext(s, pc);
      if Next(s, pc).StoredPut? {
        CheckStored(s, s', t, pc);
      } else {
        CheckOther(s, s', t, pc);
      }
    }
  }

  lemma FitsBegin(s: Store, t: Ticket)
    requires t.controller == Builder && t.id in s.objects && CalmObject(s, t.id)
    ensures var pc := BuilderBegin(s.cfg, t.id, s.objects[t.id]);
            Fits(s, t, pc) && (Copy(pc).Some? ==> pc.local == s.objects[t.id])
  {
    hide FitsRunner, FitsBuilder, FitsPublish, DesiredImage, BucketUrls.Print, ArtifactUrl, BuilderBegin, CalmObject;
    BeginFits(s, t);
  }

  lemma CheckIsSilent(s: Store, pc: Pc)
    requires pc.NewUploadCheck? || pc.KnownUploadCheck?
    ensures Serve(s, CallOf(s.cfg, pc)).store == s && !Serve(s, CallOf(s.cfg, pc)).loud
  {
  }

  /** Idempotence: a reconcile in a calm cluster that leaves all stages where they are has nothing left to write when
      it runs again. */
  lemma Idempotent(s: Store, t: Ticket)
    requires t.id in s.objects && Calm(s)
    requires SameStage(s, Reconcile(s, Start(t)).store, t.id)
    ensures AtEase(Reconcile(s, Start(t)).store, t)
  {
    if t.controller == Runner {
      RunnerAgain(s, Reconcile(s, Start(t)).store, t);
    } else {
      BuilderAgain(s, Reconcile(s, Start(t)).store, t);
    }
  }
}
