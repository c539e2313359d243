/** What one undisturbed reconcile leaves alone, whatever state it starts in. */
module Frames {
  import opened Basics
  import opened Identity
  import opened Cluster
  import opened Programs
  import opened Wakeups
  import opened Quiescence
  import BucketUrls

  /** Only the image of a spec may differ. */
  predicate SameButImage(a: Spec, b: Spec) {
    b == a.(image := b.image)
  }

  predicate SameCondition(st: Status, st': Status, kind: ConditionType) {
    (kind in st.conditions <==> kind in st'.conditions)
    && (kind in st.conditions ==> st'.conditions[kind] == st.conditions[kind])
  }

  /** The part of a status that a runner leaves to the build controller, and the other way round. */
  predicate View(t: Ticket, st: Status, st': Status) {
    if t.controller == Runner then
      st'.upload == st.upload && SameCondition(st, st', Uploaded) && SameCondition(st, st', Built)
    else st'.url == st.url && SameCondition(st, st', Complete) && SameCondition(st, st', Serving)
  }

  /** Other objects and their Jobs, the bucket, the builds of all objects, and the other controller's part of its own
      status; a runner also leaves its own spec, its build Job and an existing run Job alone, and a build controller its
      own run Job. */
  ghost predicate Framed(s: Store, s': Store, t: Ticket) {
    s'.cfg == s.cfg && s'.blobs == s.blobs && ObjectsFramed(s, s', t) && JobsFramed(s, s', t)
  }

  ghost predicate ObjectsFramed(s: Store, s': Store, t: Ticket) {
    s'.objects.Keys == s.objects.Keys
    && forall id :: id in s.objects ==> ObjectFramed(t, id, s.objects[id], s'.objects[id])
  }

  predicate ObjectFramed(t: Ticket, id: Id, o: Object, o': Object) {
    if id != t.id then o' == o
    else
      SameButImage(o.spec, o'.spec) && View(t, o.status, o'.status) && o'.stamp == o.stamp
      && (t.controller == Runner ==> o'.spec == o.spec)
  }

  predicate Spared(s: Store, t: Ticket, job: JobId) {
    job.owner != t.id || (if t.controller == Builder then job.role == RunJob else job.role == BuildJob || job in s.jobs)
  }

  ghost predicate JobsFramed(s: Store, s': Store, t: Ticket) {
    forall job :: Spared(s, t, job) ==> SameAt(s.jobs, s'.jobs, job)
  }

  /** What a status write of `t` may be about to change. */
  predicate InView(t: Ticket, pc: Pc) {
    pc.Publish? || pc.StoredPut? ==> View(t, pc.local.status, pc.status)
  }

  /** A program counter that holds the stored object. */
  predicate UpToDate(s: Store, t: Ticket, pc: Pc) {
    Belongs(t, pc) && InView(t, pc) && (Copy(pc).Some? ==> t.id in s.objects && pc.local == s.objects[t.id])
  }

  lemma ViewItself(t: Ticket, id: Id, o: Object)
    ensures ObjectFramed(t, id, o, o)
  {
  }

  lemma FramedItself(s: Store, t: Ticket)
    ensures Framed(s, s, t)
  {
    hide ObjectFramed;
    forall id | id in s.objects ensures ObjectFramed(t, id, s.objects[id], s.objects[id]) {
      ViewItself(t, id, s.objects[id]);
    }
  }

  lemma ObjectThrough(t: Ticket, id: Id, o: Object, o1: Object, o2: Object)
    requires ObjectFramed(t, id, o, o1) && ObjectFramed(t, id, o1, o2)
    ensures ObjectFramed(t, id, o, o2)
  {
  }

  lemma FramedThrough(s: Store, s1: Store, s2: Store, t: Ticket)
    requires Framed(s, s1, t) && Framed(s1, s2, t)
    ensures Framed(s, s2, t)
  {
    hide ObjectFramed;
    forall id | id in s.objects ensures ObjectFramed(t, id, s.objects[id], s2.objects[id]) {
      ObjectThrough(t, id, s.objects[id], s1.objects[id], s2.objects[id]);
    }
    forall job | Spared(s, t, job) ensures SameAt(s.jobs, s2.jobs, job) {
      assert SameAt(s.jobs, s1.jobs, job);
      assert SameAt(s1.jobs, s2.jobs, job);
    }
  }

  lemma ServePutFramed(s: Store, t: Ticket, version: nat, spec: Option<Spec>, status: Option<Status>)
    requires spec.Some? && t.id in s.objects ==>
               t.controller == Builder && SameButImage(s.objects[t.id].spec, spec.value)
    requires status.Some? && t.id in s.objects ==> View(t, s.objects[t.id].status, status.value)
    ensures Framed(s, ServePut(s, t.id, version, spec, status).store, t)
  {
    hide CallOf, Resume;
  }

  lemma ImageFramed(s: Store, t: Ticket, pc: Pc)
    requires UpToDate(s, t, pc) && !pc.Return? && CallOf(s.cfg, pc).PutSpec?
    ensures t.controller == Builder && t.id in s.objects && SameButImage(s.objects[t.id].spec, CallOf(s.cfg, pc).spec)
  {
    hide Resume, DesiredImage;
  }

  lemma StatusFramed(s: Store, t: Ticket, pc: Pc)
    requires UpToDate(s, t, pc) && !pc.Return? && CallOf(s.cfg, pc).PutStatus?
    ensures t.id in s.objects && View(t, s.objects[t.id].status, CallOf(s.cfg, pc).status)
  {
    hide Resume, DesiredImage, BucketUrls.Print, ArtifactUrl;
  }

  lemma PutFramed(s: Store, t: Ticket, pc: Pc)
    requires UpToDate(s, t, pc) && !pc.Return?
    requires var c := CallOf(s.cfg, pc); c.PutStatus? || c.PutSpec?
    ensures Framed(s, Serve(s, CallOf(s.cfg, pc)).store, t)
  {
    hide Resume, CallOf, Framed, ServePut, SameButImage, View, InView;
    var c := CallOf(s.cfg, pc);
    PutsOwnObject(s.cfg, t, pc);
    if c.PutSpec? {
      ImageFramed(s, t, pc);
      ServePutFramed(s, t, c.version, Some(c.spec), None);
    } else {
      StatusFramed(s, t, pc);
      ServePutFramed(s, t, c.version, None, Some(c.status));
    }
  }

  lemma JobFramed(s: Store, t: Ticket, pc: Pc)
    requires UpToDate(s, t, pc) && !pc.Return?
    requires var c := CallOf(s.cfg, pc); c.CreateJob? || c.DeleteJob?
    ensures Framed(s, Serve(s, CallOf(s.cfg, pc)).store, t)
  {
    hide Resume, DesiredImage, ObjectFramed, InView;
    FramedItself(s, t);
    var s' := Serve(s, CallOf(s.cfg, pc)).store;
    assert s'.objects == s.objects;
  }

  lemma OtherFramed(s: Store, t: Ticket, c: Call)
    requires !c.PutStatus? && !c.PutSpec? && !c.CreateJob? && !c.DeleteJob?
    ensures Framed(s, Serve(s, c).store, t)
  {
    hide Resume, CallOf, ObjectFramed;
    FramedItself(s, t);
    var s' := Serve(s, c).store;
    assert s'.objects == s.objects && s'.jobs == s.jobs;
  }

  lemma CallFramed(s: Store, t: Ticket, pc: Pc)
    requires UpToDate(s, t, pc) && !pc.Return?
    ensures Framed(s, Serve(s, CallOf(s.cfg, pc)).store, t)
  {
    hide Framed, UpToDate, Serve, CallOf, Resume;
    var c := CallOf(s.cfg, pc);
    if c.PutStatus? || c.PutSpec? {
      PutFramed(s, t, pc);
    } else if c.CreateJob? || c.DeleteJob? {
      JobFramed(s, t, pc);
    } else {
      OtherFramed(s, t, c);
    }
  }

  /** An answer that is an object is the stored one. */
  lemma AnswerHeld(s: Store, t: Ticket, pc: Pc)
    requires UpToDate(s, t, pc) && !pc.Return?
    ensures var served := Serve(s, CallOf(s.cfg, pc));
            served.response.TheObject? ==>
              t.id in served.store.objects && served.response.found == served.store.objects[t.id]
  {
    hide Resume, CallOf, UpToDate, ServeApplyPod, ServeCreateJob, ServeApplyDeployment;
    var c := CallOf(s.cfg, pc);
    UpToDateBelongs(s, t, pc);
    PutsOwnObject(s.cfg, t, pc);
    if !c.PutStatus? && !c.PutSpec? {
      OnlyPutsWriteObjects(s, c);
    }
  }

  lemma UpToDateBelongs(s: Store, t: Ticket, pc: Pc)
    requires UpToDate(s, t, pc)
    ensures Belongs(t, pc)
  {
  }

  /** A counter that keeps its copy has not written to the object. */
  lemma CopyOrWrite(s: Store, t: Ticket, pc: Pc)
    requires UpToDate(s, t, pc) && !pc.Return?
    ensures var c := CallOf(s.cfg, pc);
            var served := Serve(s, c);
            Copy(pc).Some? && !served.response.TheObject? ==>
              t.id in served.store.objects && served.store.objects[t.id] == s.objects[t.id]
  {
    hide Resume, DesiredImage;
  }

  lemma CompletionView(cfg: Config, t: Ticket, pc: Pc, r: Response)
    requires Belongs(t, pc) && InCompletion(pc)
    ensures InView(t, ResumeCompletion(cfg, pc, r))
  {
    hide JobResult, Constructible, BucketUrls.Print, ArtifactUrl;
  }

  lemma ServingView(cfg: Config, t: Ticket, pc: Pc, r: Response)
    requires Belongs(t, pc) && (InNotebook(pc) || InServer(pc))
    ensures InView(t, Resume(cfg, pc, r))
  {
    hide ResumeCompletion;
    hide IsPodReady, Constructible, MountUrl, NotebookTemplate, ServerTemplate;
  }

  lemma BuildView(cfg: Config, t: Ticket, pc: Pc, r: Response)
    requires Belongs(t, pc) && InBuild(pc)
    ensures InView(t, ResumeBuild(cfg, pc, r))
  {
    hide DesiredImage;
  }

  /** Whatever the answer, the next status write stays in view. */
  lemma ViewStep(cfg: Config, t: Ticket, pc: Pc, r: Response)
    requires Belongs(t, pc) && !pc.Return?
    ensures InView(t, Resume(cfg, pc, r))
  {
    hide Belongs, View, ResumeCompletion, ResumeNotebook, ResumeServer, ResumeBuild;
    if InCompletion(pc) {
      CompletionView(cfg, t, pc, r);
    } else if InNotebook(pc) || InServer(pc) {
      ServingView(cfg, t, pc, r);
    } else if InBuild(pc) {
      BuildView(cfg, t, pc, r);
    }
  }

  lemma UpToDateStep(s: Store, t: Ticket, pc: Pc)
    requires UpToDate(s, t, pc) && !pc.Return?
    ensures UpToDate(Serve(s, CallOf(s.cfg, pc)).store, t, Next(s, pc))
  {
    hide Serve, CallOf, Resume, Belongs, InView;
    var r := Serve(s, CallOf(s.cfg, pc)).response;
    ViewStep(s.cfg, t, pc, r);
    BelongsStep(s.cfg, t, pc, r);
    AnswerHeld(s, t, pc);
    CopyOrWrite(s, t, pc);
    NextCopy(s, t, pc);
  }

  lemma OnlyObjectCalls(s: Store, c: Call)
    requires Serve(s, c).response.TheObject?
    ensures c.PutStatus? || c.PutSpec? || c.GetObject?
  {
  }

  /** After a call that answers with the object, the copy is the answer. */
  lemma FoundCopy(cfg: Config, t: Ticket, pc: Pc, r: Response)
    requires Belongs(t, pc) && !pc.Return? && r.TheObject?
    requires var c := CallOf(cfg, pc); c.PutStatus? || c.PutSpec? || c.GetObject?
    ensures Copy(Resume(cfg, pc, r)).Some? ==> Resume(cfg, pc, r).local == r.found
  {
    hide DesiredImage, Constructible, MountUrl, BucketUrls.Print, ArtifactUrl;
  }

  lemma NextCopy(s: Store, t: Ticket, pc: Pc)
    requires UpToDate(s, t, pc) && !pc.Return?
    ensures var served := Serve(s, CallOf(s.cfg, pc));
            var next := Next(s, pc);
            Copy(next).Some? ==>
              (served.response.TheObject? && next.local == served.response.found)
              || (Copy(pc).Some? && !served.response.TheObject? && next.local == pc.local)
  {
    hide CallOf, Serve, Resume, UpToDate;
    var r := Serve(s, CallOf(s.cfg, pc)).response;
    ResumeCopy(s.cfg, pc, r);
    if r.TheObject? {
      OnlyObjectCalls(s, CallOf(s.cfg, pc));
      UpToDateBelongs(s, t, pc);
      FoundCopy(s.cfg, t, pc, r);
    }
  }

  lemma {:induction false} ReconcileFramed(s: Store, t: Ticket, pc: Pc)
    requires UpToDate(s, t, pc)
    ensures Framed(s, Reconcile(s, pc).store, t)
    decreases Rank(pc)
  {
    hide Framed, UpToDate, Serve, CallOf, Resume;
    if pc.Return? {
      FramedItself(s, t);
    } else {
      var s1 := Serve(s, CallOf(s.cfg, pc)).store;
      CallFramed(s, t, pc);
      UpToDateStep(s, t, pc);
      ReconcileFramed(s1, t, Next(s, pc));
      FramedThrough(s, s1, Reconcile(s, pc).store, t);
    }
  }

  /** Whatever happens in it, a whole reconcile of `t` stays within its frame. */
  lemma TurnFramed(s: Store, t: Ticket)
    ensures Framed(s, Reconcile(s, Start(t)).store, t)
  {
    ReconcileFramed(s, t, Start(t));
  }
}
