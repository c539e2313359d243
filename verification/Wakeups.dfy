/** No lost wakeups: what a reconcile reads is exactly what its watches and index lookups map back to its key. */
module Wakeups {
  import opened Basics
  import opened Identity
  import opened Cluster
  import opened Programs
  import opened Network

  /******* What a silent reconcile can look at *******/

  /** The image waits for an upload. */
  predicate UploadDue(s: Store, id: Id) {
    id in s.objects && Building(s, id) && s.objects[id].spec.build.value.upload.Some?
  }

  /** The targets of ticket `t` while its object is as in `s`. */
  predicate Reads(s: Store, t: Ticket, r: Ref) {
    match r
    case ObjectRef(id) =>
      id == t.id
      || (t.controller == Runner && t.id in s.objects && id in References(t.id, s.objects[t.id].spec))
    case JobRef(job) => job.owner == t.id
    case PodRef(id) => id == t.id && t.id.kind == Notebook && t.controller == Runner
    case ServiceRef(id) => id == t.id && t.id.kind == Server && t.controller == Runner
    case DeploymentRef(id) => id == t.id && t.id.kind == Server && t.controller == Runner
    case BlobRef(id) => id == t.id && t.controller == Builder && UploadDue(s, id)
  }

  /** `pc` belongs to ticket `t`. */
  predicate Belongs(t: Ticket, pc: Pc) {
    pc.Return?
    || (pc.id == t.id
        && (pc.BuilderGet? || InBuild(pc) ==> t.controller == Builder)
        && (pc.RunnerGet? ==> t.controller == Runner)
        && (InCompletion(pc) ==> (t.id.kind == Model || t.id.kind == Dataset) && t.controller == Runner)
        && (pc.DataUrlPut? ==> t.id.kind == Dataset)
        && (InNotebook(pc) ==> t.id.kind == Notebook && t.controller == Runner)
        && (InServer(pc) ==> t.id.kind == Server && t.controller == Runner)
        && (pc.BaseModelGet? || pc.NotebookModelGet? || pc.ServerModelGet? ==>
              ModelRef(t.id, pc.local.spec) == Some(pc.ref))
        && (pc.DatasetGet? || pc.NotebookDatasetGet? ==> DatasetRef(t.id, pc.local.spec) == Some(pc.ref)))
  }

  lemma CompletionBelongs(cfg: Config, t: Ticket, pc: Pc, r: Response)
    requires Belongs(t, pc) && InCompletion(pc)
    ensures Belongs(t, ResumeCompletion(cfg, pc, r))
  {
  }

  lemma NotebookBelongs(cfg: Config, t: Ticket, pc: Pc, r: Response)
    requires Belongs(t, pc) && InNotebook(pc)
    ensures Belongs(t, ResumeNotebook(cfg, pc, r))
  {
  }

  lemma ServerBelongs(cfg: Config, t: Ticket, pc: Pc, r: Response)
    requires Belongs(t, pc) && InServer(pc)
    ensures Belongs(t, ResumeServer(cfg, pc, r))
  {
  }

  lemma BuildBelongs(cfg: Config, t: Ticket, pc: Pc, r: Response)
    requires Belongs(t, pc) && InBuild(pc)
    ensures Belongs(t, ResumeBuild(cfg, pc, r))
  {
  }

  lemma BelongsStep(cfg: Config, t: Ticket, pc: Pc, r: Response)
    requires Belongs(t, pc) && !pc.Return?
    ensures Belongs(t, Resume(cfg, pc, r))
  {
    if InCompletion(pc) {
      CompletionBelongs(cfg, t, pc, r);
    } else if InNotebook(pc) {
      NotebookBelongs(cfg, t, pc, r);
    } else if InServer(pc) {
      ServerBelongs(cfg, t, pc, r);
    } else if InBuild(pc) {
      BuildBelongs(cfg, t, pc, r);
    } else if pc.RunnerGet? && r.TheObject? {
      assert Belongs(t, Begin(cfg, pc.id, r.found));
    }
  }

  predicate AtUpload(pc: Pc) {
    pc.NewUploadCheck? || pc.UrlSign? || pc.KnownUploadCheck?
  }

  /** The local copy has the spec that is in the store, and the bucket is looked at for due uploads only. */
  predicate Tied(s: Store, t: Ticket, pc: Pc) {
    Belongs(t, pc)
    && (Copy(pc).Some? ==> t.id in s.objects && pc.local.spec == s.objects[t.id].spec)
    && (AtUpload(pc) ==> UploadDue(s, t.id))
  }

  /** The next local copy is the old one or the answer. */
  predicate CopyFrom(pc: Pc, r: Response, next: Pc) {
    Copy(next).Some? ==> (r.TheObject? && next.local == r.found) || (Copy(pc).Some? && next.local == pc.local)
  }

  lemma CompletionCopy(cfg: Config, pc: Pc, r: Response)
    requires InCompletion(pc)
    ensures CopyFrom(pc, r, ResumeCompletion(cfg, pc, r)) && !AtUpload(ResumeCompletion(cfg, pc, r))
  {
    hide JobResult, Constructible;
  }

  lemma ServingCopy(cfg: Config, pc: Pc, r: Response)
    requires InNotebook(pc) || InServer(pc)
    ensures CopyFrom(pc, r, Resume(cfg, pc, r)) && !AtUpload(Resume(cfg, pc, r))
  {
    hide ResumeCompletion, ResumeBuild, IsPodReady, Constructible, MountUrl;
  }

  lemma BuildCopy(cfg: Config, pc: Pc, r: Response)
    requires InBuild(pc)
    ensures CopyFrom(pc, r, ResumeBuild(cfg, pc, r)) && (AtUpload(ResumeBuild(cfg, pc, r)) ==> AtUpload(pc))
  {
    hide DesiredImage;
  }

  lemma BeginCopy(cfg: Config, id: Id, o: Object)
    ensures !AtUpload(Begin(cfg, id, o))
    ensures Copy(Begin(cfg, id, o)).Some? ==> Begin(cfg, id, o).local == o
    ensures Copy(BuilderBegin(cfg, id, o)).Some? ==> BuilderBegin(cfg, id, o).local == o
  {
    hide DesiredImage, Constructible;
  }

  lemma ResumeCopy(cfg: Config, pc: Pc, r: Response)
    requires !pc.Return?
    ensures CopyFrom(pc, r, Resume(cfg, pc, r))
    ensures AtUpload(Resume(cfg, pc, r)) ==>
              AtUpload(pc)
              || (pc.BuilderGet? && r.TheObject? && Resume(cfg, pc, r) == BuilderBegin(cfg, pc.id, r.found))
  {
    hide ResumeCompletion, ResumeNotebook, ResumeServer, ResumeBuild, Begin, BuilderBegin;
    if InCompletion(pc) {
      CompletionCopy(cfg, pc, r);
    } else if InNotebook(pc) || InServer(pc) {
      ServingCopy(cfg, pc, r);
    } else if InBuild(pc) {
      BuildCopy(cfg, pc, r);
    } else if r.TheObject? && !pc.Publish? {
      BeginCopy(cfg, pc.id, r.found);
    }
  }

  lemma TiedStep(s: Store, t: Ticket, pc: Pc)
    requires Tied(s, t, pc) && !pc.Return?
    requires !Serve(s, CallOf(s.cfg, pc)).loud
    ensures Tied(s, t, Resume(s.cfg, pc, Serve(s, CallOf(s.cfg, pc)).response))
  {
    hide Belongs, UploadDue, Serve, CallOf, Resume, BuilderBegin;
    SilentAnswer(s, t, pc);
    TiedBelongs(s, t, pc);
    BelongsStep(s.cfg, t, pc, Serve(s, CallOf(s.cfg, pc)).response);
    ResumeCopy(s.cfg, pc, Serve(s, CallOf(s.cfg, pc)).response);
    BeginDue(s, t.id);
  }

  lemma TiedBelongs(s: Store, t: Ticket, pc: Pc)
    requires Tied(s, t, pc)
    ensures Belongs(t, pc) && (pc.BuilderGet? ==> pc.id == t.id)
  {
  }

  lemma SilentAnswer(s: Store, t: Ticket, pc: Pc)
    requires Tied(s, t, pc) && !pc.Return? && !Serve(s, CallOf(s.cfg, pc)).loud
    ensures var r := Serve(s, CallOf(s.cfg, pc)).response;
            r.TheObject? ==> t.id in s.objects && r.found == s.objects[t.id]
  {
    hide Resume, UploadDue, DesiredImage;
  }

  lemma BeginDue(s: Store, id: Id)
    ensures id in s.objects && AtUpload(BuilderBegin(s.cfg, id, s.objects[id])) ==> UploadDue(s, id)
  {
  }

  lemma TargetIsRead(s: Store, t: Ticket, pc: Pc)
    requires Tied(s, t, pc) && !pc.Return?
    ensures Reads(s, t, Target(CallOf(s.cfg, pc)))
  {
    hide Mark, ModelRef;

  }

  /******* A change of one target *******/

  ghost predicate OnlyAt(s: Store, s': Store, r: Ref) {
    && s'.cfg == s.cfg
    && (forall id :: r != ObjectRef(id) ==> SameAt(s.objects, s'.objects, id))
    && (forall job :: r != JobRef(job) ==> SameAt(s.jobs, s'.jobs, job))
    && (forall id :: r != PodRef(id) ==> SameAt(s.pods, s'.pods, id))
    && (forall id :: r != ServiceRef(id) ==> (id in s.services <==> id in s'.services))
    && (forall id :: r != DeploymentRef(id) ==> SameAt(s.deployments, s'.deployments, id))
    && (forall id :: r != BlobRef(id) ==> SameAt(s.blobs, s'.blobs, id))
  }

  lemma ReviseOnlyAt(s: Store, id: Id, spec: Spec, status: Status, stamp: string)
    requires id in s.objects
    ensures OnlyAt(s, Revise(s, id, spec, status, stamp), ObjectRef(id))
  {
  }

  lemma PutOnlyAt(s: Store, id: Id, version: nat, spec: Option<Spec>, status: Option<Status>)
    ensures OnlyAt(s, ServePut(s, id, version, spec, status).store, ObjectRef(id))
  {
    if ServePut(s, id, version, spec, status).loud {
      var was := s.objects[id];
      ReviseOnlyAt(s, id, if spec.Some? then spec.value else was.spec,
        if status.Some? then status.value else was.status, was.stamp);
    }
  }

  lemma JobOnlyAt(s: Store, c: Call)
    requires c.CreateJob? || c.DeleteJob?
    ensures OnlyAt(s, Serve(s, c).store, Target(c))
  {
  }

  lemma PodOnlyAt(s: Store, c: Call)
    requires c.ApplyPod? || c.DeletePod?
    ensures OnlyAt(s, Serve(s, c).store, Target(c))
  {
    hide ServePut, ServeCreateJob, ServeApplyDeployment, ServeApplyPod, CallOf, Resume;
    if c.ApplyPod? {
      ApplyOnlyAt(s, c.id, c.template);
    }
  }

  lemma ApplyOnlyAt(s: Store, id: Id, template: PodTemplate)
    ensures OnlyAt(s, ServeApplyPod(s, id, template).store, PodRef(id))
  {
    var s' := ServeApplyPod(s, id, template).store;
    assert s' == s.(pods := s'.pods);
  }

  lemma ServiceOnlyAt(s: Store, c: Call)
    requires c.ApplyService? || c.ApplyDeployment?
    ensures OnlyAt(s, Serve(s, c).store, Target(c))
  {
  }

  /** A call changes nothing but its target, and nothing at all if it is silent. */
  lemma ServeOnlyAt(s: Store, c: Call)
    ensures OnlyAt(s, Serve(s, c).store, Target(c))
    ensures !Serve(s, c).loud ==> Serve(s, c).store == s
  {
    hide Revise;
    match c {
      case PutStatus(id, version, status) => PutOnlyAt(s, id, version, None, Some(status));
      case PutSpec(id, version, spec) => PutOnlyAt(s, id, version, Some(spec), None);
      case CreateJob(_, _, _) => JobOnlyAt(s, c);
      case DeleteJob(_) => JobOnlyAt(s, c);
      case ApplyPod(_, _) => PodOnlyAt(s, c);
      case DeletePod(_) => PodOnlyAt(s, c);
      case ApplyService(_) => ServiceOnlyAt(s, c);
      case ApplyDeployment(_, _) => ServiceOnlyAt(s, c);
      case _ =>
    }
  }

  lemma SilentElsewhere(s: Store, s': Store, r: Ref, c: Call)
    requires OnlyAt(s, s', r) && Target(c) != r
    requires !Serve(s, c).loud
    ensures !Serve(s', c).loud && Serve(s', c).response == Serve(s, c).response
  {
  }

  /** The index agreement: whatever a reconcile reads, an event on it enqueues that reconcile. */
  lemma IndexAgrees(s: Store, s': Store, t: Ticket, r: Ref)
    requires OnlyAt(s, s', r)
    requires Reads(s, t, r) && !r.BlobRef?
    ensures t in Wake(s', r)
  {
    match t.controller {
      case Runner => assert t == Ticket(Runner, t.id);
      case Builder => assert t == Ticket(Builder, t.id);
    }
    if r.ObjectRef? && r.id != t.id {
      assert SameAt(s.objects, s'.objects, t.id);
      assert t.id in Dependents(s', r.id);
    }
  }

  /******* Silent prefixes *******/

  /** Reconciling alone from `from` gets to `pc` without having written anything. */
  ghost predicate Passes(s: Store, from: Pc, pc: Pc)
    decreases Rank(from)
  {
    from == pc
    || (!from.Return?
        && var served := Serve(s, CallOf(s.cfg, from));
        !served.loud && Passes(s, Resume(s.cfg, from, served.response), pc))
  }

  lemma {:induction false} PassesFrame(s: Store, s': Store, t: Ticket, r: Ref, from: Pc, pc: Pc)
    requires OnlyAt(s, s', r) && !Reads(s, t, r)
    requires Tied(s, t, from) && Passes(s, from, pc)
    ensures Passes(s', from, pc)
    decreases Rank(from)
  {
    if from != pc {
      var c := CallOf(s.cfg, from);
      TargetIsRead(s, t, from);
      SilentElsewhere(s, s', r, c);
      TiedStep(s, t, from);
      PassesFrame(s, s', t, r, Resume(s.cfg, from, Serve(s, c).response), pc);
    }
  }

  lemma {:induction false} QuietFrame(s: Store, s': Store, t: Ticket, r: Ref, pc: Pc)
    requires OnlyAt(s, s', r) && !Reads(s, t, r)
    requires Tied(s, t, pc) && Quiet(s, pc)
    ensures Quiet(s', pc)
    decreases Rank(pc)
  {
    if !pc.Return? {
      var c := CallOf(s.cfg, pc);
      TargetIsRead(s, t, pc);
      SilentElsewhere(s, s', r, c);
      TiedStep(s, t, pc);
      QuietFrame(s, s', t, r, Resume(s.cfg, pc, Serve(s, c).response));
    }
  }

  lemma {:induction false} PassesFurther(s: Store, t: Ticket, from: Pc, pc: Pc)
    requires Passes(s, from, pc) && Tied(s, t, from)
    ensures Tied(s, t, pc)
    ensures !pc.Return? && !Serve(s, CallOf(s.cfg, pc)).loud ==>
              Passes(s, from, Resume(s.cfg, pc, Serve(s, CallOf(s.cfg, pc)).response))
    ensures pc == Return(Settle) ==> Quiet(s, from)
    decreases Rank(from)
  {
    if from != pc {
      TiedStep(s, t, from);
      PassesFurther(s, t, Resume(s.cfg, from, Serve(s, CallOf(s.cfg, from)).response), pc);
    }
  }

  /******* Local copies *******/

  /** If the version is still the stored one, so is everything else. */
  predicate Genuine(s: Store, id: Id, o: Object) {
    o.version <= s.clock
    && SchemaOk(o.spec)
    && (id in s.objects && s.objects[id].version == o.version ==> s.objects[id] == o)
  }

  predicate Tidy(s: Store, t: Ticket, pc: Pc) {
    Belongs(t, pc)
    && (Copy(pc).Some? ==> Genuine(s, t.id, pc.local))
    && (pc.NewUploadCheck? || pc.UrlSign? ==>
          |pc.upload.md5| == 32 && pc.upload.request != pc.local.status.upload.request)
  }

  ghost predicate SoundObjects(s: Store) {
    forall id :: id in s.objects ==> s.objects[id].version <= s.clock && SchemaOk(s.objects[id].spec)
  }

  ghost predicate TidyWorld(w: World) {
    SoundObjects(w.store)
    && (forall t :: t in w.active ==> Tidy(w.store, t, w.active[t]))
  }

  /** The reconcile will end in an error or write to its own object. */
  predicate Doomed(pc: Pc) {
    (pc.Return? && pc.outcome != Settle)
    || pc.UrlSign?
    || (pc.Publish? && (pc.outcome == Retry || pc.status != pc.local.status))
  }

  lemma FailureDooms(s: Store, t: Ticket, pc: Pc)
    requires Tidy(s, t, pc) && !pc.Return?
    ensures Doomed(Resume(s.cfg, pc, Failed))
  {
  }

  /** A doomed reconcile stays doomed until it writes to its own object. */
  lemma DoomedStep(s: Store, t: Ticket, pc: Pc)
    requires Tidy(s, t, pc) && Doomed(pc) && !pc.Return?
    ensures var served := Serve(s, CallOf(s.cfg, pc));
            served.loud || Doomed(Resume(s.cfg, pc, served.response))
  {
  }

  /******* The invariant *******/

  /** A due upload has reached the bucket, and nobody has said so yet. */
  predicate Owing(w: World, t: Ticket) {
    t.controller == Builder && t.id in w.owed && UploadDue(w.store, t.id)
  }

  ghost predicate Attended(w: World, t: Ticket) {
    t in w.dirty
    || Owing(w, t)
    || (if t in w.active then Passes(w.store, Start(t), w.active[t]) || Doomed(w.active[t])
        else Quiet(w.store, Start(t)))
  }

  lemma AttendedAfterChange(w: World, w': World, t: Ticket, r: Ref)
    requires Attended(w, t)
    requires OnlyAt(w.store, w'.store, r) && !r.BlobRef?
    requires w.dirty + Wake(w'.store, r) <= w'.dirty
    requires w.owed - w'.owed <= (if r.ObjectRef? then {r.id} else {})
    requires SameAt(w.active, w'.active, t)
    ensures Attended(w', t)
  {
    if Reads(w.store, t, r) {
      IndexAgrees(w.store, w'.store, t, r);
    } else if Owing(w, t) {
      assert t.id !in w'.owed ==> t.id in w.owed - w'.owed;
      assert SameAt(w.store.objects, w'.store.objects, t.id);
    } else if t !in w.dirty {
      assert Tied(w.store, t, Start(t));
      if t in w.active {
        if !Doomed(w.active[t]) {
          PassesFrame(w.store, w'.store, t, r, Start(t), w.active[t]);
        }
      } else {
        QuietFrame(w.store, w'.store, t, r, Start(t));
      }
    }
  }

  /******* Preservation, step by step *******/

  ghost predicate AllAttended(w: World) {
    forall t :: Attended(w, t)
  }

  lemma ChangedAttends(w: World, s: Store, r: Ref)
    requires AllAttended(w)
    requires OnlyAt(w.store, s, r) && !r.BlobRef?
    ensures AllAttended(Changed(w, s, r))
  {
    forall t ensures Attended(Changed(w, s, r), t) {
      AttendedAfterChange(w, Changed(w, s, r), t, r);
    }
  }

  /** The parts of a world after one call. */
  lemma ActShape(w: World, t: Ticket, reply: Reply)
    requires Enabled(w, Act(t, reply))
    ensures var w' := ApplyAct(w, t, reply);
            var c := CallOf(w.store.cfg, w.active[t]);
            var served := Serve(w.store, c);
            w'.store == (if reply.Dropped? then w.store else served.store)
            && w'.clients == w.clients && w'.owed == w.owed
            && w.dirty <= w'.dirty && (!reply.Dropped? && served.loud ==> Wake(served.store, Target(c)) <= w'.dirty)
            && w'.active == w.active[t := Resume(w.store.cfg, w.active[t], Answer(w, c, reply))]
  {
    hide CallOf, Resume, Serve, Wake;
    ServeOnlyAt(w.store, CallOf(w.store.cfg, w.active[t]));
  }

  /** The ticket whose call is served. */
  lemma ActorAttended(w: World, t: Ticket, reply: Reply)
    requires Enabled(w, Act(t, reply)) && TidyWorld(w) && Attended(w, t)
    ensures Attended(ApplyAct(w, t, reply), t)
  {
    hide CallOf, Resume, Serve, Doomed, Tidy, Wake, Reads, UploadDue, Observed;
    var s, pc := w.store, w.active[t];
    var c := CallOf(s.cfg, pc);
    var served := Serve(s, c);
    ServeOnlyAt(s, c);
    assert Tidy(s, t, pc);
    if t !in w.dirty {
      if served.loud && !reply.Dropped? {
        LoudWakesActor(w, t);
      } else if Owing(w, t) {
        assert ApplyAct(w, t, reply).store == s;
      } else if !reply.Delivered? {
        FailureDooms(s, t, pc);
      } else if Doomed(pc) {
        DoomedStep(s, t, pc);
      } else {
        assert Tied(s, t, Start(t));
        PassesFurther(s, t, Start(t), pc);
      }
    }
  }

  /** A reconcile that writes is woken by its own write. */
  lemma LoudWakesActor(w: World, t: Ticket)
    requires t in w.active && !w.active[t].Return? && TidyWorld(w)
    requires Serve(w.store, CallOf(w.store.cfg, w.active[t])).loud
    ensures var c := CallOf(w.store.cfg, w.active[t]);
            t in Wake(Serve(w.store, c).store, Target(c)) && !Target(c).BlobRef?
  {
    var s, pc := w.store, w.active[t];
    var c := CallOf(s.cfg, pc);
    assert Tidy(s, t, pc);
    ServeOnlyAt(s, c);
    WriteTargetsOwn(s, t, pc);
    IndexAgrees(s, Serve(s, c).store, t, Target(c));
  }

  lemma WriteTargetsOwn(s: Store, t: Ticket, pc: Pc)
    requires Belongs(t, pc) && !pc.Return?
    requires Serve(s, CallOf(s.cfg, pc)).loud
    ensures Reads(s, t, Target(CallOf(s.cfg, pc))) && !Target(CallOf(s.cfg, pc)).BlobRef?
  {
  }

  lemma ActAttends(w: World, t: Ticket, reply: Reply)
    requires Enabled(w, Act(t, reply)) && TidyWorld(w) && AllAttended(w)
    ensures AllAttended(ApplyAct(w, t, reply))
  {
    var w' := ApplyAct(w, t, reply);
    var c := CallOf(w.store.cfg, w.active[t]);
    ServeOnlyAt(w.store, c);
    ActorAttended(w, t, reply);
    forall other ensures Attended(w', other) {
      if other != t {
        assert SameAt(w.active, w'.active, other);
        if w'.store == w.store {
          assert Attended(w, other);
        } else {
          LoudWakesActor(w, t);
          AttendedAfterChange(w, w', other, Target(c));
        }
      }
    }
  }

  lemma RestartAttends(w: World)
    ensures AllAttended(Restarted(w))
  {
    var w' := Restarted(w);
    forall t ensures Attended(w', t) {
      match t.controller {
        case Runner => assert t == Ticket(Runner, t.id);
        case Builder => assert t == Ticket(Builder, t.id);
      }
      if t.id !in w.store.objects {
        AbsentIsQuiet(w.store, t);
      }
    }
  }

  lemma AbsentIsQuiet(s: Store, t: Ticket)
    requires t.id !in s.objects
    ensures Quiet(s, Start(t))
  {
    assert Quiet(s, Return(Settle));
    assert Resume(s.cfg, Start(t), Absent) == Return(Settle);
  }

  lemma FinishAttends(w: World, t: Ticket)
    requires Enabled(w, Finish(t)) && AllAttended(w)
    ensures AllAttended(ApplyFinish(w, t))
  {
    if w.active[t].outcome == Crash {
      RestartAttends(w);
    } else {
      var w' := ApplyFinish(w, t);
      forall other ensures Attended(w', other) {
        assert Attended(w, other);
        if other == t {
          if t !in w'.dirty && !Owing(w, t) {
            assert Tied(w.store, t, Start(t));
            PassesFurther(w.store, t, Start(t), w.active[t]);
          }
        } else {
          assert SameAt(w.active, w'.active, other);
        }
      }
    }
  }

  lemma TakeAttends(w: World, t: Ticket)
    requires Enabled(w, Take(t)) && AllAttended(w)
    ensures AllAttended(Apply(w, Take(t)))
  {
    var w' := Apply(w, Take(t));
    forall other ensures Attended(w', other) {
      assert Attended(w, other);
      if other != t {
        assert SameAt(w.active, w'.active, other);
      }
    }
  }

  /** An upload is not an event: until the client patches the object, its build ticket may be asleep. */
  lemma PutAttends(w: World, c: nat)
    requires Enabled(w, Puts(c)) && AllAttended(w)
    ensures AllAttended(ApplyPut(w, c))
  {
    hide Quiet;
    var w' := ApplyPut(w, c);
    var r := BlobRef(w.clients[c].phase.url.target);
    assert OnlyAt(w.store, w'.store, r);
    forall t ensures Attended(w', t) {
      assert Attended(w, t);
      if t !in w.dirty && !Owing(w', t) {
        assert !Reads(w.store, t, r);
        assert Tied(w.store, t, Start(t));
        if t in w.active {
          if !Doomed(w.active[t]) {
            PassesFrame(w.store, w'.store, t, r, Start(t), w.active[t]);
          }
        } else {
          QuietFrame(w.store, w'.store, t, r, Start(t));
        }
      }
    }
  }

  lemma PokeAttends(w: World, c: nat, stamp: string)
    requires Enabled(w, Pokes(c, stamp)) && AllAttended(w)
    ensures AllAttended(ApplyPoke(w, c, stamp))
  {
    var w' := ApplyPoke(w, c, stamp);
    var id := w.clients[c].id;
    if w'.store == w.store {
      forall t ensures Attended(w', t) {
        assert Attended(w, t);
      }
    } else {
      var o := w.store.objects[id];
      ReviseOnlyAt(w.store, id, o.spec, o.status, stamp);
      forall t ensures Attended(w', t) {
        AttendedAfterChange(w, w', t, ObjectRef(id));
      }
    }
  }

  /******* Local copies stay genuine *******/

  /** Versions only move forward: a rewritten object gets a version above every earlier clock. */
  ghost predicate Forward(s: Store, s': Store) {
    s'.cfg == s.cfg && s.clock <= s'.clock
    && forall id :: id in s'.objects ==>
         (id in s.objects && s'.objects[id] == s.objects[id]) || s.clock < s'.objects[id].version <= s'.clock
  }

  lemma ReviseForward(s: Store, id: Id, spec: Spec, status: Status, stamp: string)
    requires id in s.objects && SchemaOk(spec)
    ensures Forward(s, Revise(s, id, spec, status, stamp))
    ensures SoundObjects(s) ==> SoundObjects(Revise(s, id, spec, status, stamp))
  {
  }

  /** An answer is either not an object, or the object as it now is in the store. */
  ghost predicate Current(s: Store, t: Ticket, r: Response) {
    r.TheObject? ==> t.id in s.objects && r.found == s.objects[t.id]
  }

  lemma PutForward(s: Store, t: Ticket, version: nat, spec: Option<Spec>, status: Option<Status>)
    requires spec.Some? ==> SchemaOk(spec.value)
    requires SoundObjects(s)
    ensures var served := ServePut(s, t.id, version, spec, status);
            Forward(s, served.store) && SoundObjects(served.store) && Current(served.store, t, served.response)
  {
    if ServePut(s, t.id, version, spec, status).loud {
      var was := s.objects[t.id];
      ReviseForward(s, t.id, if spec.Some? then spec.value else was.spec,
        if status.Some? then status.value else was.status, was.stamp);
    }
  }

  lemma OnlyPutsWriteObjects(s: Store, c: Call)
    requires !c.PutStatus? && !c.PutSpec?
    ensures var served := Serve(s, c);
            served.store.objects == s.objects && served.store.clock == s.clock && served.store.cfg == s.cfg
            && (served.response.TheObject? ==>
                  c.GetObject? && c.id in s.objects && served.response.found == s.objects[c.id])
  {
  }

  lemma PutsOwnObject(cfg: Config, t: Ticket, pc: Pc)
    requires Belongs(t, pc) && !pc.Return?
    ensures var c := CallOf(cfg, pc); (c.PutStatus? || c.PutSpec? || c.GetObject?) ==> c.id == t.id
    ensures var c := CallOf(cfg, pc); c.PutSpec? ==> pc.ImagePut?
  {
  }

  lemma ServeForward(s: Store, t: Ticket, pc: Pc)
    requires Tidy(s, t, pc) && !pc.Return? && SoundObjects(s)
    ensures var served := Serve(s, CallOf(s.cfg, pc));
            Forward(s, served.store) && SoundObjects(served.store) && Current(served.store, t, served.response)
  {
    var c := CallOf(s.cfg, pc);
    PutsOwnObject(s.cfg, t, pc);
    if c.PutStatus? {
      PutForward(s, t, c.version, None, Some(c.status));
    } else if c.PutSpec? {
      PutForward(s, t, c.version, Some(c.spec), None);
    } else {
      OnlyPutsWriteObjects(s, c);
    }
  }

  lemma TidyForward(s: Store, s': Store, t: Ticket, pc: Pc)
    requires Tidy(s, t, pc) && Forward(s, s')
    ensures Tidy(s', t, pc)
  {
  }

  lemma TidyCompletion(s: Store, t: Ticket, pc: Pc, r: Response)
    requires Tidy(s, t, pc) && InCompletion(pc) && (r.TheObject? ==> Genuine(s, t.id, r.found))
    ensures Tidy(s, t, ResumeCompletion(s.cfg, pc, r))
  {
    CompletionBelongs(s.cfg, t, pc, r);
  }

  lemma TidyNotebook(s: Store, t: Ticket, pc: Pc, r: Response)
    requires Tidy(s, t, pc) && InNotebook(pc) && (r.TheObject? ==> Genuine(s, t.id, r.found))
    ensures Tidy(s, t, ResumeNotebook(s.cfg, pc, r))
  {
    NotebookBelongs(s.cfg, t, pc, r);
  }

  lemma TidyServer(s: Store, t: Ticket, pc: Pc, r: Response)
    requires Tidy(s, t, pc) && InServer(pc) && (r.TheObject? ==> Genuine(s, t.id, r.found))
    ensures Tidy(s, t, ResumeServer(s.cfg, pc, r))
  {
    ServerBelongs(s.cfg, t, pc, r);
  }

  lemma TidyBuild(s: Store, t: Ticket, pc: Pc, r: Response)
    requires Tidy(s, t, pc) && InBuild(pc) && (r.TheObject? ==> Genuine(s, t.id, r.found))
    ensures Tidy(s, t, ResumeBuild(s.cfg, pc, r))
  {
    BuildBelongs(s.cfg, t, pc, r);
  }

  lemma TidyBegin(s: Store, t: Ticket, o: Object)
    requires Genuine(s, t.id, o)
    ensures t.controller == Runner ==> Tidy(s, t, Begin(s.cfg, t.id, o))
    ensures t.controller == Builder ==> Tidy(s, t, BuilderBegin(s.cfg, t.id, o))
  {
  }

  lemma TidyStep(s: Store, t: Ticket, pc: Pc, r: Response)
    requires Tidy(s, t, pc) && !pc.Return? && Current(s, t, r) && SoundObjects(s)
    ensures Tidy(s, t, Resume(s.cfg, pc, r))
  {
    hide ArtifactUrl;
    if r.TheObject? {
      TidyBegin(s, t, r.found);
    }
    if InCompletion(pc) {
      TidyCompletion(s, t, pc, r);
    } else if InNotebook(pc) {
      TidyNotebook(s, t, pc, r);
    } else if InServer(pc) {
      TidyServer(s, t, pc, r);
    } else if InBuild(pc) {
      TidyBuild(s, t, pc, r);
    }
  }

  lemma ActForward(w: World, t: Ticket, reply: Reply)
    requires Enabled(w, Act(t, reply)) && TidyWorld(w)
    ensures var w' := ApplyAct(w, t, reply);
            SoundObjects(w'.store) && Forward(w.store, w'.store) && Tidy(w'.store, t, w'.active[t])
  {
    hide Resume, Belongs;
    var pc := w.active[t];
    var served := Serve(w.store, CallOf(w.store.cfg, pc));
    assert Tidy(w.store, t, pc);
    ServeForward(w.store, t, pc);
    ServeOnlyAt(w.store, CallOf(w.store.cfg, pc));
    var s' := if reply.Dropped? then w.store else served.store;
    TidyForward(w.store, s', t, pc);
    TidyStep(s', t, pc, if reply.Delivered? then served.response else Failed);
  }

  lemma UserForward(w: World, step: Step)
    requires Enabled(w, step) && UserStep(step) && SoundObjects(w.store)
    ensures SoundObjects(ApplyUser(w, step).store) && Forward(w.store, ApplyUser(w, step).store)
  {
    if step.Edit? {
      ReviseForward(w.store, step.id, step.spec, w.store.objects[step.id].status, w.store.objects[step.id].stamp);
    }
  }

  lemma PokeForward(w: World, c: nat, stamp: string)
    requires Enabled(w, Pokes(c, stamp)) && SoundObjects(w.store)
    ensures SoundObjects(ApplyPoke(w, c, stamp).store) && Forward(w.store, ApplyPoke(w, c, stamp).store)
  {
    var id := w.clients[c].id;
    if id in w.store.objects {
      ReviseForward(w.store, id, w.store.objects[id].spec, w.store.objects[id].status, stamp);
    }
  }

  lemma ChildForward(w: World, step: Step)
    requires Enabled(w, step) && ChildStep(step) && SoundObjects(w.store)
    ensures SoundObjects(ChildStore(w, step)) && Forward(w.store, ChildStore(w, step))
  {
    var s, s' := w.store, ChildStore(w, step);
    assert s'.objects == s.objects && s'.clock == s.clock && s'.cfg == s.cfg;
  }

  lemma OtherForward(w: World, step: Step)
    requires Enabled(w, step) && !step.Act? && SoundObjects(w.store)
    ensures SoundObjects(Apply(w, step).store) && Forward(w.store, Apply(w, step).store)
  {
    hide ChildStore;
    if UserStep(step) {
      UserForward(w, step);
    } else if ChildStep(step) {
      ChildForward(w, step);
    } else if step.Pokes? {
      PokeForward(w, step.client, step.stamp);
    }
  }

  /** The reconciles in flight after a step, apart from that of ticket `t`. */
  ghost predicate KeepsOthers(w: World, w': World, t: Ticket) {
    forall other :: other in w'.active && other != t ==> other in w.active && w'.active[other] == w.active[other]
  }

  lemma ActKeeps(w: World, t: Ticket, reply: Reply)
    requires Enabled(w, Act(t, reply))
    ensures KeepsOthers(w, ApplyAct(w, t, reply), t)
  {
  }

  lemma OtherKeeps(w: World, step: Step) returns (t: Ticket)
    requires Enabled(w, step) && !step.Act?
    ensures KeepsOthers(w, Apply(w, step), t)
    ensures t in Apply(w, step).active ==>
              Apply(w, step).active[t] == Start(t)
              || (t in w.active && Apply(w, step).active[t] == w.active[t])
  {
    hide Wake, Revise, AllTickets, ChildStore, ApplyAct, ApplyUser, ApplyPut, ApplyPoke, Reaction;
    t := if step.Take? then step.ticket else Ticket(Runner, Id(Model, "", ""));
    if UserStep(step) || step.Puts? || step.Pokes? {
      WorldActive(w, step);
    }
  }

  lemma WorldActive(w: World, step: Step)
    requires Enabled(w, step) && (UserStep(step) || step.Puts? || step.Pokes?)
    ensures Apply(w, step).active == w.active
  {
    hide Wake, Revise, ChildStore, Reaction;
  }

  lemma TidyAfter(w: World, w': World, t: Ticket)
    requires TidyWorld(w) && SoundObjects(w'.store) && Forward(w.store, w'.store)
    requires KeepsOthers(w, w', t)
    requires t in w'.active ==> Tidy(w'.store, t, w'.active[t])
    ensures TidyWorld(w')
  {
    forall other | other in w'.active ensures Tidy(w'.store, other, w'.active[other]) {
      if other != t {
        TidyForward(w.store, w'.store, other, w.active[other]);
      }
    }
  }

  lemma TidyWorldStep(w: World, step: Step)
    requires Enabled(w, step) && TidyWorld(w)
    ensures TidyWorld(Apply(w, step)) && Forward(w.store, Apply(w, step).store)
  {
    hide Wake, Restarted, Changed, Revise, ApplyAct, ApplyUser, ChildStore, ApplyPoke, ApplyPut, Moved;
    var w' := Apply(w, step);
    if step.Act? {
      ActForward(w, step.ticket, step.reply);
      ActKeeps(w, step.ticket, step.reply);
      TidyAfter(w, w', step.ticket);
    } else {
      OtherForward(w, step);
      var t := OtherKeeps(w, step);
      if t in w.active {
        TidyForward(w.store, w'.store, t, w.active[t]);
      }
      TidyAfter(w, w', t);
    }
  }

  /******* The theorem *******/

  lemma UserAttends(w: World, step: Step)
    requires Enabled(w, step) && AllAttended(w) && UserStep(step)
    ensures AllAttended(ApplyUser(w, step))
  {
    hide Wake;
    var w' := ApplyUser(w, step);
    if w' != w {
      if step.Edit? {
        var o := w.store.objects[step.id];
        ReviseOnlyAt(w.store, step.id, step.spec, o.status, o.stamp);
      }
      ChangedAttends(w, w'.store, ObjectRef(step.id));
    }
  }

  lemma ChildStoreOnlyAt(w: World, step: Step)
    requires Enabled(w, step) && ChildStep(step)
    ensures OnlyAt(w.store, ChildStore(w, step), ChildRef(step)) && !ChildRef(step).BlobRef?
  {
  }

  lemma StepAttends(w: World, step: Step)
    requires Enabled(w, step) && TidyWorld(w) && AllAttended(w)
    ensures AllAttended(Apply(w, step))
  {
    if UserStep(step) {
      UserAttends(w, step);
    } else if ChildStep(step) {
      ChildStoreOnlyAt(w, step);
      ChangedAttends(w, ChildStore(w, step), ChildRef(step));
    } else if step.Take? {
      TakeAttends(w, step.ticket);
    } else if step.Act? {
      ActAttends(w, step.ticket, step.reply);
    } else if step.Finish? {
      FinishAttends(w, step.ticket);
    } else if step.Restart? {
      RestartAttends(w);
    } else if step.Puts? {
      PutAttends(w, step.client);
    } else if step.Pokes? {
      PokeAttends(w, step.client, step.stamp);
    } else {
      Unmoved(w, Apply(w, step));
    }
  }

  lemma Unmoved(w: World, w': World)
    requires AllAttended(w)
    requires w'.store == w.store && w'.dirty == w.dirty && w'.active == w.active && w'.owed == w.owed
    ensures AllAttended(w')
  {
    forall t ensures Attended(w', t) {
      assert Attended(w, t);
    }
  }

  lemma {:induction false} RunAttends(w: World, steps: seq<Step>)
    requires Legal(w, steps) && TidyWorld(w) && AllAttended(w)
    ensures TidyWorld(Execute(w, steps)) && AllAttended(Execute(w, steps))
    decreases |steps|
  {
    if steps != [] {
      TidyWorldStep(w, steps[0]);
      StepAttends(w, steps[0]);
      RunAttends(Apply(w, steps[0]), steps[1..]);
    }
  }

  /** After any run of an operator that started on an empty cluster: every key that is neither queued nor being
      reconciled would, if reconciled now, write nothing; for builds that wait for an upload, unless an upload has not
      been announced. */
  lemma NoLostWakeups(cfg: Config, steps: seq<Step>, t: Ticket)
    requires Legal(Initial(cfg), steps)
    ensures var w := Execute(Initial(cfg), steps);
            t in w.dirty || t in w.active || Owing(w, t) || Quiet(w.store, Start(t))
  {
    var w := Initial(cfg);
    forall t ensures Attended(w, t) {
      AbsentIsQuiet(w.store, t);
    }
    RunAttends(w, steps);
    assert Attended(Execute(w, steps), t);
  }

  /******* What is owed is there *******/

  ghost predicate OwedStored(w: World) {
    w.owed <= w.store.blobs.Keys
  }

  lemma ActStores(w: World, t: Ticket, reply: Reply)
    requires Enabled(w, Act(t, reply))
    ensures ApplyAct(w, t, reply).store.blobs == w.store.blobs && ApplyAct(w, t, reply).owed == w.owed
  {
    hide CallOf, Resume, Wake, ServePut, ServeCreateJob, ServeApplyPod, ServeApplyDeployment;
    BlobsStay(w.store, CallOf(w.store.cfg, w.active[t]));
  }

  lemma BlobsStay(s: Store, c: Call)
    ensures Serve(s, c).store.blobs == s.blobs && Serve(s, c).store.cfg == s.cfg
  {
  }

  lemma StepStores(w: World, step: Step)
    requires Enabled(w, step) && OwedStored(w)
    ensures OwedStored(Apply(w, step))
  {
    hide ApplyAct, ApplyUser, ApplyPoke, ChildStore, Changed, Reaction, AllTickets;
    if step.Act? {
      ActStores(w, step.ticket, step.reply);
    } else if UserStep(step) || ChildStep(step) || step.Pokes? {
      OthersStore(w, step);
    }
  }

  lemma OthersStore(w: World, step: Step)
    requires Enabled(w, step) && (UserStep(step) || ChildStep(step) || step.Pokes?)
    ensures Apply(w, step).store.blobs == w.store.blobs && Apply(w, step).owed <= w.owed
  {
    hide ApplyAct, ApplyUser, ApplyPoke, ChildStore, Wake, Reaction, AllTickets;
    if UserStep(step) {
      UserStores(w, step);
    } else if ChildStep(step) {
      ChildStores(w, step);
    } else {
      PokeStores(w, step.client, step.stamp);
    }
  }

  lemma UserStores(w: World, step: Step)
    requires Enabled(w, step) && UserStep(step)
    ensures ApplyUser(w, step).store.blobs == w.store.blobs && ApplyUser(w, step).owed == w.owed
  {
    hide Wake;
  }

  lemma ChildStores(w: World, step: Step)
    requires Enabled(w, step) && ChildStep(step)
    ensures ChildStore(w, step).blobs == w.store.blobs
  {
  }

  lemma PokeStores(w: World, c: nat, stamp: string)
    requires Enabled(w, Pokes(c, stamp))
    ensures ApplyPoke(w, c, stamp).store.blobs == w.store.blobs && ApplyPoke(w, c, stamp).owed <= w.owed
  {
    hide Wake;
  }

  lemma {:induction false} RunStores(w: World, steps: seq<Step>)
    requires Legal(w, steps) && OwedStored(w)
    ensures OwedStored(Execute(w, steps))
    decreases |steps|
  {
    hide Apply, OwedStored;
    if steps != [] {
      StepStores(w, steps[0]);
      RunStores(Apply(w, steps[0]), steps[1..]);
    }
  }

  /** Nothing is ever owed for an object without anything in the bucket. */
  lemma NothingOwedUnstored(cfg: Config, steps: seq<Step>)
    requires Legal(Initial(cfg), steps)
    ensures Execute(Initial(cfg), steps).owed <= Execute(Initial(cfg), steps).store.blobs.Keys
  {
    hide Apply;
    RunStores(Initial(cfg), steps);
  }
}
