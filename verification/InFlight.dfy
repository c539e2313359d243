/** What a reconcile in flight knows of the upload of its local copy, whatever happens around it. */
module InFlight {
  import opened Basics
  import opened Identity
  import opened Cluster
  import opened Programs
  import opened Network
  import opened Wakeups
  import opened Frames
  import Safety

  /******* Uploads *******/

  predicate SameUpload(st: Status, st': Status) {
    st'.upload == st.upload && SameCondition(st, st', Uploaded)
  }

  function UploadOf(spec: Spec): Option<Upload> {
    if spec.build.Some? then spec.build.value.upload else None
  }

  predicate Asks(o: Object, upload: Upload) {
    UploadOf(o.spec) == Some(upload)
  }

  predicate RecordedIn(st: Status, upload: Upload) {
    st.upload == UploadStatus(None, st.upload.request, upload.md5)
    && st.upload.request in {"", upload.request} && Safety.IsTrue(st, Uploaded)
  }

  predicate SignedIn(id: Id, st: Status, upload: Upload) {
    st.upload.url.Some? && st.upload.url.value.target == id && st.upload.url.value.md5 == upload.md5
    && st.upload == UploadStatus(st.upload.url, upload.request, "")
  }

  /** Uploaded is True and the recorded checksum is the requested one. */
  predicate Recorded(o: Object, upload: Upload) {
    RecordedIn(o.status, upload)
  }

  /** A URL for the upload of `id` has been signed for this request. */
  predicate SignedFor(id: Id, o: Object, upload: Upload) {
    SignedIn(id, o.status, upload)
  }

  /******* Build reconciles *******/

  /** Past the upload checks. */
  predicate AtJob(pc: Pc) {
    pc.BuildJobGet? || pc.BuildJobCreate? || pc.BuildJobDelete? || pc.BuildJobRecreate? || pc.ImagePut?
  }

  /** A build reconcile of `id` acts on the upload that its copy asks for: it looks that upload up, records it only as
      that upload, goes on to the Job only once it is recorded, and publishes a URL only for a request that is new. */
  predicate Sincere(id: Id, pc: Pc) {
    Copy(pc).Some? ==>
      var asked, st := UploadOf(pc.local.spec), pc.local.status;
      (AtUpload(pc) ==> asked == Some(pc.upload))
      && (pc.NewUploadCheck? || pc.UrlSign? ==> pc.upload.request != st.upload.request)
      && (pc.KnownUploadCheck? ==> pc.upload.request == st.upload.request)
      && (pc.StoredPut? ==> asked.Some? && pc.md5 == asked.value.md5 && RecordedIn(pc.status, asked.value))
      && (AtJob(pc) && asked.Some? ==> RecordedIn(st, asked.value))
      && (pc.Publish? ==>
            SameUpload(st, pc.status)
            || (asked.Some? && asked.value.request != st.upload.request && SignedIn(id, pc.status, asked.value)))
  }

  /** An answer to a build reconcile: the URL that was asked for, and the object as it was written. */
  predicate Honest(id: Id, pc: Pc, r: Response) {
    (pc.UrlSign? && r.TheUrl? ==> r.signed == SignedUrl(id, pc.upload.md5, pc.local.version))
    && (pc.StoredPut? && r.TheObject? ==> r.found.spec == pc.local.spec && r.found.status == pc.status)
  }

  lemma SincereBegin(cfg: Config, id: Id, o: Object)
    ensures Sincere(id, BuilderBegin(cfg, id, o))
  {
    hide DesiredImage;
  }

  lemma SincereUpload(cfg: Config, id: Id, pc: Pc, r: Response)
    requires (AtUpload(pc) || pc.StoredPut?) && pc.id == id && Sincere(id, pc) && Honest(id, pc, r)
    ensures Sincere(id, ResumeBuild(cfg, pc, r))
  {
  }

  lemma SincereJob(cfg: Config, id: Id, pc: Pc, r: Response)
    requires AtJob(pc) && Sincere(id, pc)
    ensures Sincere(id, ResumeBuild(cfg, pc, r))
  {
    hide DesiredImage;
  }

  lemma SincereStep(cfg: Config, t: Ticket, pc: Pc, r: Response)
    requires t.controller == Builder && Belongs(t, pc) && !pc.Return? && Sincere(t.id, pc) && Honest(t.id, pc, r)
    ensures Sincere(t.id, Resume(cfg, pc, r))
  {
    hide Sincere, Honest, ResumeBuild, ResumeCompletion, ResumeNotebook, ResumeServer, BuilderBegin;
    if AtUpload(pc) || pc.StoredPut? {
      SincereUpload(cfg, t.id, pc, r);
    } else if AtJob(pc) {
      SincereJob(cfg, t.id, pc, r);
    } else if pc.BuilderGet? && r.TheObject? {
      SincereBegin(cfg, t.id, r.found);
    } else {
      SincereReturn(t.id, Resume(cfg, pc, r));
    }
  }

  lemma SincereReturn(id: Id, pc: Pc)
    requires pc.Return?
    ensures Sincere(id, pc)
  {
  }

  /** The served answer, and a failed one, are honest. */
  lemma ServedHonest(s: Store, t: Ticket, pc: Pc)
    requires Tidy(s, t, pc) && !pc.Return?
    ensures Honest(t.id, pc, Serve(s, CallOf(s.cfg, pc)).response) && Honest(t.id, pc, Failed)
  {
    hide Resume, DesiredImage, ServeApplyPod, ServeCreateJob, ServeApplyDeployment;
  }

  /******* Over runs *******/

  /** A runner is about to write only its own part of the status; a build reconcile is sincere as well. */
  predicate Frank(t: Ticket, pc: Pc) {
    InView(t, pc) && (t.controller == Builder ==> Sincere(t.id, pc))
  }

  ghost predicate FrankWorld(w: World) {
    forall t :: t in w.active ==> Frank(t, w.active[t])
  }

  lemma FrankStart(t: Ticket)
    ensures Frank(t, Start(t))
  {
  }

  lemma FrankAct(w: World, t: Ticket, reply: Reply)
    requires TidyWorld(w) && FrankWorld(w) && Enabled(w, Act(t, reply))
    ensures Frank(t, Resume(w.store.cfg, w.active[t], Answer(w, CallOf(w.store.cfg, w.active[t]), reply)))
  {
    hide InView, Sincere, Honest, Tidy, CallOf, Resume, Serve;
    var pc := w.active[t];
    var r := Answer(w, CallOf(w.store.cfg, pc), reply);
    assert Tidy(w.store, t, pc) && Frank(t, pc);
    TidyBelongs(w.store, t, pc);
    ViewStep(w.store.cfg, t, pc, r);
    if t.controller == Builder {
      ServedHonest(w.store, t, pc);
      SincereStep(w.store.cfg, t, pc, r);
    }
  }

  lemma TidyBelongs(s: Store, t: Ticket, pc: Pc)
    requires Tidy(s, t, pc)
    ensures Belongs(t, pc)
  {
  }

  lemma FrankStep(w: World, step: Step)
    requires TidyWorld(w) && FrankWorld(w) && Enabled(w, step)
    ensures FrankWorld(Apply(w, step))
  {
    hide Frank, Tidy, CallOf, Resume;
    if step.Act? {
      FrankAct(w, step.ticket, step.reply);
      ActKeeps(w, step.ticket, step.reply);
    } else {
      var t := OtherKeeps(w, step);
      FrankStart(t);
      OthersFrank(w, step, t);
    }
  }

  lemma OthersFrank(w: World, step: Step, t: Ticket)
    requires FrankWorld(w) && Enabled(w, step) && KeepsOthers(w, Apply(w, step), t) && Frank(t, Start(t))
    requires var active := Apply(w, step).active;
             t in active ==> active[t] == Start(t) || (t in w.active && active[t] == w.active[t])
    ensures FrankWorld(Apply(w, step))
  {
    hide Apply, Frank;
  }

  lemma {:induction false} FrankRun(w: World, steps: seq<Step>)
    requires Legal(w, steps) && TidyWorld(w) && FrankWorld(w)
    ensures FrankWorld(Execute(w, steps))
    decreases |steps|
  {
    hide Apply, FrankWorld, TidyWorld;
    if steps != [] {
      FrankStep(w, steps[0]);
      TidyWorldStep(w, steps[0]);
      FrankRun(Apply(w, steps[0]), steps[1..]);
    }
  }
}
