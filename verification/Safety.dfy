/** What is true in every reachable state, whatever is interleaved with what. */
module Safety {
  import opened Basics
  import opened Identity
  import opened Cluster
  import opened Programs
  import opened Network
  import opened Wakeups

  /******* Statuses *******/

  function MainCondition(kind: Kind): ConditionType {
    if kind.Model? || kind.Dataset? then Complete else Serving
  }

  predicate IsTrue(st: Status, kind: ConditionType) {
    kind in st.conditions && st.conditions[kind].holds
  }

  predicate UploadShape(st: Status) {
    !(st.upload.url.Some? && st.upload.stored != "")
    && (IsTrue(st, Uploaded) <==> st.upload.stored != "")
  }

  /** The URL was signed for the checksum of a version of the object that carried this request. */
  ghost predicate SignedEarlier(past: set<Fact>, id: Id, url: SignedUrl, request: string) {
    url.target == id
    && exists o :: Version(id, o) in past && o.version == url.moment
                   && o.spec.build.Some? && o.spec.build.value.upload == Some(Upload(url.md5, request))
  }

  ghost predicate StatusSound(past: set<Fact>, id: Id, st: Status) {
    (st.ready ==> IsTrue(st, MainCondition(id.kind)))
    && UploadShape(st)
    && (st.upload.stored != "" ==> Reported(id, st.upload.stored) in past)
    && (st.upload.url.Some? ==> SignedEarlier(past, id, st.upload.url.value, st.upload.request))
  }

  /******* Build Jobs *******/

  /** Where the content of a build comes from, relative to the spec it is built for. */
  ghost predicate OriginSound(past: set<Fact>, id: Id, spec: Spec, origin: Origin) {
    spec.build.Some?
    && match origin
       case FromUpload(md5) =>
         spec.build.value.upload.Some? && spec.build.value.upload.value.md5 == md5 && Reported(id, md5) in past
       case FromGit => spec.build.value.upload.None? && spec.build.value.git.Some?
       case FromSpec => false
  }

  ghost predicate JobSound(cfg: Config, past: set<Fact>, job: JobId, j: Job) {
    job.role == BuildJob ==>
      exists o :: Version(job.owner, o) in past
                  && OriginSound(past, job.owner, o.spec, j.origin)
                  && j.image == DesiredImage(cfg, job.owner, o.spec)
  }

  /******* Reconciles in flight *******/

  predicate Known(readyAt: map<Id, nat>, ref: Option<Id>) {
    ref.Some? ==> ref.value in readyAt
  }

  /** Everything the spec refers to has been Ready at some time. */
  predicate AllKnown(readyAt: map<Id, nat>, id: Id, spec: Spec) {
    Known(readyAt, ModelRef(id, spec)) && Known(readyAt, DatasetRef(id, spec))
  }

  /** What a reconcile may be about to write as the final status. */
  ghost predicate PublishSound(cfg: Config, past: set<Fact>, readyAt: map<Id, nat>, t: Ticket, o: Object, st: Status) {
    StatusSound(past, t.id, st)
    && (Trained(t.id) && o.status.ready && !st.ready ==>
          t.controller == Builder && o.spec.image != DesiredImage(cfg, t.id, o.spec))
    && (!o.status.ready && st.ready ==>
          t.controller == Runner && (t.id.kind.Model? ==> AllKnown(readyAt, t.id, o.spec)))
  }

  ghost predicate CompletionSound(readyAt: map<Id, nat>, t: Ticket, pc: Pc)
    requires InCompletion(pc)
  {
    !pc.local.status.ready
    && (t.id.kind.Model? && pc.DatasetGet? ==> Known(readyAt, ModelRef(t.id, pc.local.spec)))
    && (t.id.kind.Model? && (pc.RunJobCreate? || pc.RunJobGet?) ==>
          AllKnown(readyAt, t.id, pc.local.spec))
  }

  ghost predicate BuildSound(cfg: Config, past: set<Fact>, t: Ticket, pc: Pc)
    requires InBuild(pc)
  {
    pc.local.spec.build.Some?
    && pc.local.spec.image != DesiredImage(cfg, t.id, pc.local.spec)
    && match pc
       case NewUploadCheck(_, o, upload) => o.spec.build.value.upload == Some(upload)
       case UrlSign(_, o, upload) => o.spec.build.value.upload == Some(upload)
       case KnownUploadCheck(_, o, upload) => o.spec.build.value.upload == Some(upload)
       case StoredPut(_, o, st, md5) =>
         StatusSound(past, t.id, st) && st.ready == o.status.ready
         && OriginSound(past, t.id, o.spec, FromUpload(md5))
       case BuildJobGet(_, o, origin) => OriginSound(past, t.id, o.spec, origin)
       case BuildJobCreate(_, o, origin) => OriginSound(past, t.id, o.spec, origin)
       case ImagePut(_, o, job) =>
         Saw(JobId(t.id, BuildJob), job) in past && job.succeeded >= 1
         && job.image == DesiredImage(cfg, t.id, o.spec)
       case _ => true
  }

  ghost predicate PcSound(cfg: Config, past: set<Fact>, readyAt: map<Id, nat>, t: Ticket, pc: Pc) {
    Belongs(t, pc)
    && (Copy(pc).Some? ==> Version(t.id, pc.local) in past)
    && (InCompletion(pc) ==> CompletionSound(readyAt, t, pc))
    && (InBuild(pc) ==> BuildSound(cfg, past, t, pc))
    && (pc.Publish? ==> PublishSound(cfg, past, readyAt, t, pc.local, pc.status))
  }

  /******* One answer *******/

  /** What an answer tells, given what has been remembered. */
  ghost predicate AnswerSound(past: set<Fact>, readyAt: map<Id, nat>, cfg: Config, t: Ticket, pc: Pc, r: Response)
    requires !pc.Return?
  {
    var c := CallOf(cfg, pc);
    (r.TheObject? ==> Version(t.id, r.found) in past && SchemaOk(r.found.spec)
                      && StatusSound(past, t.id, r.found.status))
    && (r.TheObject? && c.PutStatus? ==> r.found.spec == pc.local.spec && r.found.status == c.status)
    && (r.TheObject? && c.PutSpec? ==> r.found.status == pc.local.status)
    && (r.TheDependency? && r.ready && c.GetDependency? ==> c.id in readyAt)
    && (r.TheChecksum? ==> Reported(t.id, r.md5) in past)
    && (r.TheUrl? && c.SignUrl? ==> r.signed == c.wanted)
    && (r.TheJob? && pc.BuildJobGet? ==> Saw(JobId(t.id, BuildJob), r.job) in past)
    && (Copy(pc).Some? ==> StatusSound(past, t.id, pc.local.status) && SchemaOk(pc.local.spec))
  }

  lemma CompletionStep(cfg: Config, past: set<Fact>, readyAt: map<Id, nat>, t: Ticket, pc: Pc, r: Response)
    requires InCompletion(pc) && PcSound(cfg, past, readyAt, t, pc) && AnswerSound(past, readyAt, cfg, t, pc, r)
    ensures PcSound(cfg, past, readyAt, t, ResumeCompletion(cfg, pc, r))
  {
    CompletionBelongs(cfg, t, pc, r);
  }

  lemma NotebookStep(cfg: Config, past: set<Fact>, readyAt: map<Id, nat>, t: Ticket, pc: Pc, r: Response)
    requires InNotebook(pc) && PcSound(cfg, past, readyAt, t, pc) && AnswerSound(past, readyAt, cfg, t, pc, r)
    ensures PcSound(cfg, past, readyAt, t, ResumeNotebook(cfg, pc, r))
  {
    hide CallOf, DesiredImage;
    NotebookBelongs(cfg, t, pc, r);
  }

  lemma ServerStep(cfg: Config, past: set<Fact>, readyAt: map<Id, nat>, t: Ticket, pc: Pc, r: Response)
    requires InServer(pc) && PcSound(cfg, past, readyAt, t, pc) && AnswerSound(past, readyAt, cfg, t, pc, r)
    ensures PcSound(cfg, past, readyAt, t, ResumeServer(cfg, pc, r))
  {
    ServerBelongs(cfg, t, pc, r);
  }

  lemma UploadSteps(cfg: Config, past: set<Fact>, readyAt: map<Id, nat>, t: Ticket, pc: Pc, r: Response)
    requires pc.NewUploadCheck? || pc.UrlSign? || pc.KnownUploadCheck?
    requires PcSound(cfg, past, readyAt, t, pc) && AnswerSound(past, readyAt, cfg, t, pc, r)
    ensures PcSound(cfg, past, readyAt, t, ResumeBuild(cfg, pc, r))
  {
    BuildBelongs(cfg, t, pc, r);
    var o, upload := pc.local, pc.upload;
    assert |upload.md5| == 32;
    if pc.UrlSign? && r.TheUrl? {
      var st := AwaitingUploadStatus(o, r.signed, upload.request);
      assert SignedEarlier(past, t.id, st.upload.url.value, st.upload.request);
    }
  }

  lemma JobSteps(cfg: Config, past: set<Fact>, readyAt: map<Id, nat>, t: Ticket, pc: Pc, r: Response)
    requires InBuild(pc) && !pc.NewUploadCheck? && !pc.UrlSign? && !pc.KnownUploadCheck?
    requires PcSound(cfg, past, readyAt, t, pc) && AnswerSound(past, readyAt, cfg, t, pc, r)
    ensures PcSound(cfg, past, readyAt, t, ResumeBuild(cfg, pc, r))
  {
    BuildBelongs(cfg, t, pc, r);
  }

  lemma BuildStep(cfg: Config, past: set<Fact>, readyAt: map<Id, nat>, t: Ticket, pc: Pc, r: Response)
    requires InBuild(pc) && PcSound(cfg, past, readyAt, t, pc) && AnswerSound(past, readyAt, cfg, t, pc, r)
    ensures PcSound(cfg, past, readyAt, t, ResumeBuild(cfg, pc, r))
  {
    hide PcSound, AnswerSound, ResumeBuild;
    if pc.NewUploadCheck? || pc.UrlSign? || pc.KnownUploadCheck? {
      UploadSteps(cfg, past, readyAt, t, pc, r);
    } else {
      JobSteps(cfg, past, readyAt, t, pc, r);
    }
  }

  lemma BeginSound(cfg: Config, past: set<Fact>, readyAt: map<Id, nat>, t: Ticket, o: Object)
    requires Version(t.id, o) in past && SchemaOk(o.spec)
    ensures t.controller == Runner ==> PcSound(cfg, past, readyAt, t, Begin(cfg, t.id, o))
    ensures t.controller == Builder ==> PcSound(cfg, past, readyAt, t, BuilderBegin(cfg, t.id, o))
  {
  }

  lemma PcStep(cfg: Config, past: set<Fact>, readyAt: map<Id, nat>, t: Ticket, pc: Pc, r: Response)
    requires !pc.Return? && PcSound(cfg, past, readyAt, t, pc) && AnswerSound(past, readyAt, cfg, t, pc, r)
    ensures PcSound(cfg, past, readyAt, t, Resume(cfg, pc, r))
  {
    hide ResumeCompletion, ResumeNotebook, ResumeServer, ResumeBuild, Begin, BuilderBegin, CompletionSound,
      BuildSound, PublishSound, StatusSound, CallOf;
    if InCompletion(pc) {
      CompletionStep(cfg, past, readyAt, t, pc, r);
    } else if InNotebook(pc) {
      NotebookStep(cfg, past, readyAt, t, pc, r);
    } else if InServer(pc) {
      ServerStep(cfg, past, readyAt, t, pc, r);
    } else if InBuild(pc) {
      BuildStep(cfg, past, readyAt, t, pc, r);
    } else if r.TheObject? {
      BeginSound(cfg, past, readyAt, t, r.found);
    }
  }

  /******* What a call may write *******/

  ghost predicate CopySound(past: set<Fact>, t: Ticket, pc: Pc) {
    Copy(pc).Some? ==> StatusSound(past, t.id, pc.local.status) && SchemaOk(pc.local.spec)
  }

  lemma StatusWrites(cfg: Config, past: set<Fact>, readyAt: map<Id, nat>, t: Ticket, pc: Pc)
    requires !pc.Return? && PcSound(cfg, past, readyAt, t, pc) && CopySound(past, t, pc)
    requires CallOf(cfg, pc).PutStatus?
    ensures PublishSound(cfg, past, readyAt, t, pc.local, CallOf(cfg, pc).status)
  {
  }

  lemma SpecWrites(cfg: Config, past: set<Fact>, readyAt: map<Id, nat>, t: Ticket, pc: Pc)
    requires !pc.Return? && PcSound(cfg, past, readyAt, t, pc)
    requires CallOf(cfg, pc).PutSpec?
    ensures pc.ImagePut? && t.controller == Builder
    ensures CallOf(cfg, pc).spec == pc.local.spec.(image := DesiredImage(cfg, t.id, pc.local.spec))
  {
  }

  lemma JobWrites(cfg: Config, past: set<Fact>, readyAt: map<Id, nat>, t: Ticket, pc: Pc)
    requires !pc.Return? && PcSound(cfg, past, readyAt, t, pc)
    requires var c := CallOf(cfg, pc); c.CreateJob? && !c.versioned
    ensures var c := CallOf(cfg, pc); JobSound(cfg, past, c.job, c.manifest)
  {
  }

  /******* The past only grows *******/

  lemma StatusSoundGrows(past: set<Fact>, past': set<Fact>, id: Id, st: Status)
    requires past <= past' && StatusSound(past, id, st)
    ensures StatusSound(past', id, st)
  {
    if st.upload.url.Some? {
      var o :| Version(id, o) in past && o.version == st.upload.url.value.moment
        && o.spec.build.Some? && o.spec.build.value.upload == Some(Upload(st.upload.url.value.md5, st.upload.request));
      assert Version(id, o) in past';
    }
  }

  lemma JobSoundGrows(cfg: Config, past: set<Fact>, past': set<Fact>, job: JobId, j: Job)
    requires past <= past' && JobSound(cfg, past, job, j)
    ensures JobSound(cfg, past', job, j)
  {
    if job.role == BuildJob {
      var o :| Version(job.owner, o) in past && OriginSound(past, job.owner, o.spec, j.origin)
        && j.image == DesiredImage(cfg, job.owner, o.spec);
      assert Version(job.owner, o) in past' && OriginSound(past', job.owner, o.spec, j.origin);
    }
  }

  lemma PcSoundGrows(cfg: Config, past: set<Fact>, past': set<Fact>, readyAt: map<Id, nat>, readyAt': map<Id, nat>,
      t: Ticket, pc: Pc)
    requires past <= past' && readyAt.Keys <= readyAt'.Keys
    requires PcSound(cfg, past, readyAt, t, pc)
    ensures PcSound(cfg, past', readyAt', t, pc)
  {
    if pc.Publish? || pc.StoredPut? {
      StatusSoundGrows(past, past', t.id, pc.status);
    }
  }

  /******* The invariant *******/

  ghost predicate PastSound(cfg: Config, past: set<Fact>) {
    (forall id, o :: Version(id, o) in past ==> SchemaOk(o.spec) && StatusSound(past, id, o.status))
    && (forall job, j :: Saw(job, j) in past ==> JobSound(cfg, past, job, j))
  }

  predicate Earlier(readyAt: map<Id, nat>, id: Id, ref: Option<Id>)
    requires id in readyAt
  {
    ref.Some? ==> ref.value in readyAt && readyAt[ref.value] < readyAt[id]
  }

  /** `o` is a version of the Model whose dependencies were Ready before the Model was. */
  ghost predicate Witness(past: set<Fact>, readyAt: map<Id, nat>, id: Id, o: Object)
    requires id in readyAt
  {
    Version(id, o) in past && Earlier(readyAt, id, ModelRef(id, o.spec)) && Earlier(readyAt, id, DatasetRef(id, o.spec))
  }

  ghost predicate ReadySound(w: World) {
    (forall id :: id in w.store.objects && w.store.objects[id].status.ready ==> id in w.readyAt)
    && (forall id :: id in w.readyAt ==>
          w.readyAt[id] <= w.now && (id.kind == Model ==> exists o :: Witness(w.past, w.readyAt, id, o)))
  }

  ghost predicate ClientSound(past: set<Fact>, c: Client) {
    match c.phase
    case Holding(url, seen) =>
      exists o :: Version(c.id, o) in past && o.status.upload.url == Some(url)
                  && o.spec.build.Some? && o.spec.build.value.upload == Some(seen)
                  && o.status.upload.request == seen.request
    case Skipped => exists o :: Version(c.id, o) in past && o.status.upload.stored == c.md5
    case _ => true
  }

  ghost predicate SafeWorld(w: World) {
    && TidyWorld(w)
    && PastSound(w.store.cfg, w.past)
    && (forall id :: id in w.store.objects ==> Version(id, w.store.objects[id]) in w.past)
    && (forall t :: t in w.active ==> PcSound(w.store.cfg, w.past, w.readyAt, t, w.active[t]))
    && (forall job :: job in w.store.jobs ==> JobSound(w.store.cfg, w.past, job, w.store.jobs[job]))
    && ReadySound(w)
    && (forall c :: c in w.clients ==> |w.clients[c].md5| == 32 && ClientSound(w.past, w.clients[c]))
  }

  /******* Preservation *******/

  /** Everything remembered is still remembered. */
  ghost predicate Remembers(w: World, w': World) {
    w'.store.cfg == w.store.cfg && w.past <= w'.past && w.now <= w'.now
    && forall id :: id in w.readyAt ==> id in w'.readyAt && w'.readyAt[id] == w.readyAt[id]
  }

  lemma VersionsGrow(w: World, w': World)
    requires SafeWorld(w) && Remembers(w, w')
    ensures forall id, o :: Version(id, o) in w.past ==> SchemaOk(o.spec) && StatusSound(w'.past, id, o.status)
    ensures forall job, j :: Saw(job, j) in w.past ==> JobSound(w.store.cfg, w'.past, job, j)
    ensures forall job :: job in w.store.jobs ==> JobSound(w.store.cfg, w'.past, job, w.store.jobs[job])
  {
    forall id, o | Version(id, o) in w.past ensures StatusSound(w'.past, id, o.status) {
      StatusSoundGrows(w.past, w'.past, id, o.status);
    }
    forall job, j | Saw(job, j) in w.past ensures JobSound(w.store.cfg, w'.past, job, j) {
      JobSoundGrows(w.store.cfg, w.past, w'.past, job, j);
    }
    forall job | job in w.store.jobs ensures JobSound(w.store.cfg, w'.past, job, w.store.jobs[job]) {
      JobSoundGrows(w.store.cfg, w.past, w'.past, job, w.store.jobs[job]);
    }
  }

  lemma ActiveGrow(w: World, w': World)
    requires SafeWorld(w) && Remembers(w, w')
    ensures forall t :: t in w.active ==> PcSound(w.store.cfg, w'.past, w'.readyAt, t, w.active[t])
    ensures forall c :: c in w.clients ==> ClientSound(w'.past, w.clients[c])
  {
    forall t | t in w.active ensures PcSound(w.store.cfg, w'.past, w'.readyAt, t, w.active[t]) {
      PcSoundGrows(w.store.cfg, w.past, w'.past, w.readyAt, w'.readyAt, t, w.active[t]);
    }
    forall c | c in w.clients ensures ClientSound(w'.past, w.clients[c]) {
      ClientSoundGrows(w.past, w'.past, w.clients[c]);
    }
  }

  lemma ClientSoundGrows(past: set<Fact>, past': set<Fact>, c: Client)
    requires past <= past' && ClientSound(past, c)
    ensures ClientSound(past', c)
  {
    match c.phase
    case Holding(url, seen) =>
      var o :| Version(c.id, o) in past && o.status.upload.url == Some(url)
        && o.spec.build.Some? && o.spec.build.value.upload == Some(seen)
        && o.status.upload.request == seen.request;
      assert Version(c.id, o) in past';
    case Skipped =>
      var o :| Version(c.id, o) in past && o.status.upload.stored == c.md5;
      assert Version(c.id, o) in past';
    case _ =>
  }

  lemma ReadyGrow(w: World, w': World, id: Id)
    requires SafeWorld(w) && Remembers(w, w') && id in w.readyAt
    ensures w'.readyAt[id] <= w'.now && (id.kind == Model ==> exists o :: Witness(w'.past, w'.readyAt, id, o))
  {
    if id.kind == Model {
      var o :| Witness(w.past, w.readyAt, id, o);
      assert Witness(w'.past, w'.readyAt, id, o);
    }
  }

  /** One object gets a new version or goes away. */
  lemma ObjectChangeSafe(w: World, s: Store, id: Id)
    requires SafeWorld(w) && OnlyAt(w.store, s, ObjectRef(id)) && s.jobs == w.store.jobs
    requires TidyWorld(Changed(w, s, ObjectRef(id)))
    requires id in s.objects ==>
               StatusSound(w.past, id, s.objects[id].status)
               && (s.objects[id].status.ready && id !in w.readyAt && id.kind == Model ==>
                     AllKnown(w.readyAt, id, s.objects[id].spec))
    ensures SafeWorld(Changed(w, s, ObjectRef(id)))
  {
    hide Wake, PcSound, JobSound, StatusSound, ClientSound, ReadySound;
    var w' := Changed(w, s, ObjectRef(id));
    assert Remembers(w, w');
    VersionsGrow(w, w');
    ActiveGrow(w, w');
    if id in s.objects {
      StatusSoundGrows(w.past, w'.past, id, s.objects[id].status);
    }
    ReadyChange(w, s, id);
    forall other | other in s.objects ensures Version(other, s.objects[other]) in w'.past {
      if other != id {
        assert SameAt(w.store.objects, s.objects, other);
      }
    }
  }

  lemma ReadyChange(w: World, s: Store, id: Id)
    requires SafeWorld(w) && OnlyAt(w.store, s, ObjectRef(id)) && Remembers(w, Changed(w, s, ObjectRef(id)))
    requires id in s.objects && s.objects[id].status.ready && id !in w.readyAt && id.kind == Model ==>
               AllKnown(w.readyAt, id, s.objects[id].spec)
    ensures ReadySound(Changed(w, s, ObjectRef(id)))
  {
    hide Wake, PcSound, JobSound, StatusSound, ClientSound, PastSound;
    var w' := Changed(w, s, ObjectRef(id));
    forall other | other in w'.readyAt
      ensures w'.readyAt[other] <= w'.now
              && (other.kind == Model ==> exists o :: Witness(w'.past, w'.readyAt, other, o))
    {
      if other in w.readyAt {
        ReadyGrow(w, w', other);
      } else if other.kind == Model {
        assert Witness(w'.past, w'.readyAt, id, s.objects[id]);
      }
    }
    forall other | other in s.objects ensures s.objects[other].status.ready ==> other in w'.readyAt {
      if other != id {
        assert SameAt(w.store.objects, s.objects, other);
      }
    }
  }

  lemma StartSound(cfg: Config, past: set<Fact>, readyAt: map<Id, nat>, t: Ticket)
    ensures PcSound(cfg, past, readyAt, t, Start(t))
  {
  }

  /** A child changes, or nothing but time does; a Job keeps its image and origin. */
  lemma OtherChangeSafe(w: World, w': World)
    requires SafeWorld(w) && Remembers(w, w') && w'.past == w.past && w'.readyAt == w.readyAt
    requires w'.store.objects == w.store.objects && w'.store.clock == w.store.clock
    requires w'.clients == w.clients
    requires forall t :: t in w'.active ==> (t in w.active && w'.active[t] == w.active[t]) || w'.active[t] == Start(t)
    requires forall job :: job in w'.store.jobs ==> JobSound(w.store.cfg, w.past, job, w'.store.jobs[job])
    ensures SafeWorld(w')
  {
    hide PcSound, JobSound, StatusSound, ClientSound;
    forall t | t in w'.active
      ensures PcSound(w.store.cfg, w.past, w.readyAt, t, w'.active[t]) && Tidy(w'.store, t, w'.active[t])
    {
      StartSound(w.store.cfg, w.past, w.readyAt, t);
      if t in w.active && w'.active[t] == w.active[t] {
        assert Tidy(w.store, t, w.active[t]);
      }
    }
    forall id | id in w.readyAt
      ensures w'.readyAt[id] <= w'.now && (id.kind == Model ==> exists o :: Witness(w'.past, w'.readyAt, id, o))
    {
      ReadyGrow(w, w', id);
    }
  }

  /** A controller remembers what the bucket or a Job told it. */
  lemma ObserveSafe(w: World, c: Call, r: Response)
    requires SafeWorld(w)
    requires r.TheJob? && c.GetJob? ==> c.job in w.store.jobs && w.store.jobs[c.job] == r.job
    ensures SafeWorld(w.(past := w.past + Observed(c, r)))
  {
    var w' := w.(past := w.past + Observed(c, r));
    assert Remembers(w, w');
    VersionsGrow(w, w');
    ActiveGrow(w, w');
    forall id | id in w.readyAt
      ensures w'.readyAt[id] <= w'.now && (id.kind == Model ==> exists o :: Witness(w'.past, w'.readyAt, id, o))
    {
      ReadyGrow(w, w', id);
    }
    assert forall id, o :: Version(id, o) in w'.past ==> Version(id, o) in w.past;
    assert forall job, j :: Saw(job, j) in w'.past ==> Saw(job, j) in w.past || (c == GetJob(job) && r == TheJob(j));
  }

  lemma ResumeSafe(w: World, t: Ticket, pc: Pc)
    requires SafeWorld(w) && Tidy(w.store, t, pc) && PcSound(w.store.cfg, w.past, w.readyAt, t, pc)
    ensures SafeWorld(w.(active := w.active[t := pc]))
  {
    var w' := w.(active := w.active[t := pc]);
    assert ReadySound(w');
  }

  /******* API calls *******/

  lemma CopyIsSound(w: World, t: Ticket)
    requires SafeWorld(w) && t in w.active
    ensures CopySound(w.past, t, w.active[t])
  {
    if Copy(w.active[t]).Some? {
      assert Version(t.id, w.active[t].local) in w.past;
    }
  }

  /** A write that goes through is a write to the very object the reconcile had read. */
  lemma LoudPut(w: World, t: Ticket)
    requires SafeWorld(w) && t in w.active && !w.active[t].Return?
    requires var c := CallOf(w.store.cfg, w.active[t]); (c.PutStatus? || c.PutSpec?) && Serve(w.store, c).loud
    ensures t.id in w.store.objects && Copy(w.active[t]) == Some(w.store.objects[t.id])
    ensures var o, o' := w.store.objects[t.id],
                         Serve(w.store, CallOf(w.store.cfg, w.active[t])).store.objects[t.id];
            StatusSound(w.past, t.id, o'.status)
            && (o'.spec != o.spec ==>
                  t.controller == Builder && w.active[t].ImagePut? && o'.status == o.status
                  && o'.spec == o.spec.(image := DesiredImage(w.store.cfg, t.id, o.spec)))
            && (Trained(t.id) && o.status.ready && !o'.status.ready ==>
                  t.controller == Builder && o.spec.image != DesiredImage(w.store.cfg, t.id, o.spec))
            && (o'.status.ready && t.id !in w.readyAt && t.id.kind == Model ==> AllKnown(w.readyAt, t.id, o'.spec))
  {
    hide StatusSound, JobSound, BuildSound, CompletionSound, Belongs;
    var cfg, pc := w.store.cfg, w.active[t];
    var c := CallOf(cfg, pc);
    PutsOwnObject(cfg, t, pc);
    CopyIsSound(w, t);
    assert Tidy(w.store, t, pc);
    assert Version(t.id, w.store.objects[t.id]) in w.past;
    if c.PutStatus? {
      StatusWrites(cfg, w.past, w.readyAt, t, pc);
    } else {
      SpecWrites(cfg, w.past, w.readyAt, t, pc);
    }
  }

  lemma PutFrame(s: Store, c: Call)
    requires c.PutStatus? || c.PutSpec?
    ensures Target(c) == ObjectRef(c.id) && Serve(s, c).store.jobs == s.jobs
  {
  }

  lemma ActObjectSafe(w: World, t: Ticket)
    requires SafeWorld(w) && t in w.active && !w.active[t].Return?
    requires var c := CallOf(w.store.cfg, w.active[t]); (c.PutStatus? || c.PutSpec?) && Serve(w.store, c).loud
    ensures var c := CallOf(w.store.cfg, w.active[t]);
            SafeWorld(Changed(w, Serve(w.store, c).store, Target(c)))
  {
    hide Wake, PcSound, JobSound, StatusSound, ReadySound, Serve, CallOf, Target;
    var pc := w.active[t];
    var c := CallOf(w.store.cfg, pc);
    var w' := Changed(w, Serve(w.store, c).store, Target(c));
    PutsOwnObject(w.store.cfg, t, pc);
    PutFrame(w.store, c);
    ServeOnlyAt(w.store, c);
    assert Tidy(w.store, t, pc);
    ServeForward(w.store, t, pc);
    TidyForward(w.store, w'.store, t, pc);
    TidyAfter(w, w', t);
    LoudPut(w, t);
    ObjectChangeSafe(w, w'.store, t.id);
  }

  lemma JobsAfter(s: Store, c: Call)
    ensures var s' := Serve(s, c).store;
            forall job :: job in s'.jobs ==>
              (job in s.jobs && s'.jobs[job] == s.jobs[job])
              || (c.CreateJob? && !c.versioned && job == c.job
                  && s'.jobs[job].image == c.manifest.image && s'.jobs[job].origin == c.manifest.origin)
  {
  }

  lemma ChildJobsSound(w: World, t: Ticket)
    requires SafeWorld(w) && t in w.active && !w.active[t].Return?
    ensures var s' := Serve(w.store, CallOf(w.store.cfg, w.active[t])).store;
            forall job :: job in s'.jobs ==> JobSound(w.store.cfg, w.past, job, s'.jobs[job])
  {
    hide Serve, CallOf, PcSound;
    var c := CallOf(w.store.cfg, w.active[t]);
    JobsAfter(w.store, c);
    if c.CreateJob? && !c.versioned {
      JobWrites(w.store.cfg, w.past, w.readyAt, t, w.active[t]);
    }
  }

  lemma ActChildSafe(w: World, t: Ticket)
    requires SafeWorld(w) && t in w.active && !w.active[t].Return?
    requires var c := CallOf(w.store.cfg, w.active[t]); !c.PutStatus? && !c.PutSpec? && Serve(w.store, c).loud
    ensures var c := CallOf(w.store.cfg, w.active[t]);
            SafeWorld(Changed(w, Serve(w.store, c).store, Target(c)))
  {
    hide Wake, CallOf, JobSound, Serve;
    var c := CallOf(w.store.cfg, w.active[t]);
    var w' := Changed(w, Serve(w.store, c).store, Target(c));
    OnlyPutsWriteObjects(w.store, c);
    ChildJobsSound(w, t);
    LoudChild(w.store, c);
    OtherChangeSafe(w, w');
  }

  lemma LoudChild(s: Store, c: Call)
    requires !c.PutStatus? && !c.PutSpec? && Serve(s, c).loud
    ensures !Target(c).ObjectRef?
  {
  }

  lemma AfterCallSafe(w: World, t: Ticket, dropped: bool)
    requires SafeWorld(w) && t in w.active && !w.active[t].Return?
    ensures SafeWorld(AfterCall(w, CallOf(w.store.cfg, w.active[t]), dropped))
  {
    hide Wake, Serve, CallOf, PcSound, JobSound, StatusSound, ReadySound, Changed;
    var c := CallOf(w.store.cfg, w.active[t]);
    if dropped || !Serve(w.store, c).loud {
      OtherChangeSafe(w, w.(now := w.now + 1));
    } else if c.PutStatus? || c.PutSpec? {
      ActObjectSafe(w, t);
    } else {
      ActChildSafe(w, t);
    }
  }

  lemma PutAnswer(s: Store, t: Ticket, pc: Pc)
    requires Tidy(s, t, pc) && !pc.Return?
    requires Serve(s, CallOf(s.cfg, pc)).response.TheObject?
    ensures var c, r := CallOf(s.cfg, pc), Serve(s, CallOf(s.cfg, pc)).response;
            (c.PutStatus? ==> r.found.spec == pc.local.spec && r.found.status == c.status)
            && (c.PutSpec? ==> r.found.status == pc.local.status)
  {
    PutsOwnObject(s.cfg, t, pc);
  }

  lemma OtherAnswer(s: Store, t: Ticket, pc: Pc)
    requires Tidy(s, t, pc) && !pc.Return?
    ensures var c, r := CallOf(s.cfg, pc), Serve(s, CallOf(s.cfg, pc)).response;
            (r.TheDependency? && r.ready && c.GetDependency? ==> c.id in s.objects && s.objects[c.id].status.ready)
            && (r.TheChecksum? ==> c == ReadChecksum(t.id))
            && (r.TheUrl? && c.SignUrl? ==> r.signed == c.wanted)
            && (r.TheJob? && pc.BuildJobGet? ==> c == GetJob(JobId(t.id, BuildJob)))
            && (r.TheJob? && c.GetJob? ==> c.job in s.jobs && s.jobs[c.job] == r.job)
  {
    hide CallOf, Resume;
    CallTells(s.cfg, t, pc);
  }

  /** Checksums are read, and build Jobs fetched, for the own object only. */
  lemma CallTells(cfg: Config, t: Ticket, pc: Pc)
    requires Belongs(t, pc) && !pc.Return?
    ensures CallOf(cfg, pc).ReadChecksum? ==> CallOf(cfg, pc) == ReadChecksum(t.id)
    ensures pc.BuildJobGet? ==> CallOf(cfg, pc) == GetJob(JobId(t.id, BuildJob))
  {
    hide Resume;
  }

  lemma ActSafe(w: World, t: Ticket, reply: Reply)
    requires Enabled(w, Act(t, reply)) && SafeWorld(w)
    ensures SafeWorld(ApplyAct(w, t, reply))
  {
    hide Wake, Serve, CallOf, Resume, StatusSound, PcSound, JobSound, AfterCall, Observed, Tidy, ReadySound;
    var pc := w.active[t];
    var c := CallOf(w.store.cfg, pc);
    var r := Answer(w, c, reply);
    var w1 := AfterCall(w, c, reply.Dropped?);
    var w2 := w1.(past := w1.past + Observed(c, r));
    AfterCallSafe(w, t, reply.Dropped?);
    AfterCallFrame(w, c, reply.Dropped?);
    if reply.Delivered? {
      AnswerKept(w, t);
    }
    ObserveSafe(w1, c, r);
    AnswerIsSound(w, w2, t, r);
    PcStep(w.store.cfg, w2.past, w2.readyAt, t, pc, r);
    ActForward(w, t, reply);
    ResumeSafe(w2, t, Resume(w.store.cfg, pc, r));
  }

  lemma AfterCallFrame(w: World, c: Call, dropped: bool)
    ensures var w' := AfterCall(w, c, dropped);
            w'.active == w.active && Remembers(w, w')
            && w'.store == (if dropped then w.store else Serve(w.store, c).store)
  {
    ServeOnlyAt(w.store, c);
  }

  /** Reading a Job leaves it in the store. */
  lemma AnswerKept(w: World, t: Ticket)
    requires t in w.active && !w.active[t].Return? && TidyWorld(w)
    ensures var c := CallOf(w.store.cfg, w.active[t]);
            var r := Serve(w.store, c).response;
            r.TheJob? && c.GetJob? ==>
              var s' := AfterCall(w, c, false).store; c.job in s'.jobs && s'.jobs[c.job] == r.job
  {
    assert Tidy(w.store, t, w.active[t]);
    OtherAnswer(w.store, t, w.active[t]);
  }

  lemma AnswerIsSound(w: World, w2: World, t: Ticket, r: Response)
    requires SafeWorld(w) && SafeWorld(w2) && t in w.active && w2.active == w.active && !w.active[t].Return?
    requires Remembers(w, w2)
    requires var c := CallOf(w.store.cfg, w.active[t]);
             r == Failed
             || (r == Serve(w.store, c).response && w2.store == Serve(w.store, c).store && Observed(c, r) <= w2.past)
    ensures AnswerSound(w2.past, w2.readyAt, w.store.cfg, t, w.active[t], r)
  {
    hide Serve, CallOf, StatusSound, PcSound, JobSound, Resume;
    var pc := w.active[t];
    var c := CallOf(w.store.cfg, pc);
    assert Tidy(w.store, t, pc);
    CopyIsSound(w2, t);
    if r != Failed {
      ServeForward(w.store, t, pc);
      OtherAnswer(w.store, t, pc);
      if r.TheObject? {
        PutAnswer(w.store, t, pc);
        assert Version(t.id, r.found) in w2.past;
      }
    }
  }

  /******* The other steps *******/

  /** A change made outside the controllers keeps the status, or starts from the empty one. */
  lemma ExternalChangeSafe(w: World, s: Store, id: Id)
    requires SafeWorld(w) && OnlyAt(w.store, s, ObjectRef(id)) && s.jobs == w.store.jobs
    requires Forward(w.store, s) && SoundObjects(s)
    requires id in s.objects ==>
               s.objects[id].status == NEW_STATUS
               || (id in w.store.objects && s.objects[id].status == w.store.objects[id].status)
    ensures SafeWorld(Changed(w, s, ObjectRef(id)))
  {
    hide Wake, PcSound, JobSound, StatusSound;
    var nobody := Ticket(Runner, id);
    if nobody in w.active {
      TidyForward(w.store, s, nobody, w.active[nobody]);
    }
    TidyAfter(w, Changed(w, s, ObjectRef(id)), nobody);
    NewStatusSound(w.past, id);
    if id in w.store.objects {
      assert Version(id, w.store.objects[id]) in w.past;
    }
    ObjectChangeSafe(w, s, id);
  }

  lemma NewStatusSound(past: set<Fact>, id: Id)
    ensures StatusSound(past, id, NEW_STATUS)
  {
  }

  lemma UserSafe(w: World, step: Step)
    requires Enabled(w, step) && SafeWorld(w) && UserStep(step)
    ensures SafeWorld(ApplyUser(w, step))
  {
    hide Wake, PcSound, JobSound, StatusSound, ReadySound, ClientSound, PastSound, Changed;
    UserForward(w, step);
    if step.Create? {
      var o := Object(w.store.clock + 1, 1, "", step.spec, NEW_STATUS);
      var s' := w.store.(clock := w.store.clock + 1, objects := w.store.objects[step.id := o]);
      CreateForward(w, step.id, step.spec);
      ExternalChangeSafe(w, s', step.id);
    } else if step.Edit? {
      var o := w.store.objects[step.id];
      ReviseForward(w.store, step.id, step.spec, o.status, o.stamp);
      ReviseOnlyAt(w.store, step.id, step.spec, o.status, o.stamp);
      ExternalChangeSafe(w, Revise(w.store, step.id, step.spec, o.status, o.stamp), step.id);
    } else {
      ExternalChangeSafe(w, w.store.(objects := w.store.objects - {step.id}), step.id);
    }
  }

  lemma CreateForward(w: World, id: Id, spec: Spec)
    requires Enabled(w, Create(id, spec)) && SoundObjects(w.store)
    ensures var o := Object(w.store.clock + 1, 1, "", spec, NEW_STATUS);
            var s' := w.store.(clock := w.store.clock + 1, objects := w.store.objects[id := o]);
            Forward(w.store, s') && SoundObjects(s') && OnlyAt(w.store, s', ObjectRef(id))
  {
  }

  lemma ChildSafe(w: World, step: Step)
    requires Enabled(w, step) && SafeWorld(w) && ChildStep(step)
    ensures SafeWorld(Changed(w, ChildStore(w, step), ChildRef(step)))
  {
    hide Wake, PcSound;
    OtherChangeSafe(w, Changed(w, ChildStore(w, step), ChildRef(step)));
  }

  lemma ReactionSound(w: World, c: nat, o: Object)
    requires Enabled(w, Sees(c, o))
    ensures ClientSound(w.past, w.clients[c].(phase := Reaction(w.clients[c], o)))
  {
  }

  /** Only clients, blobs, debts and time move. */
  lemma ClientsMoveSafe(w: World, w': World)
    requires SafeWorld(w)
    requires w' == w.(store := w.store.(blobs := w'.store.blobs), owed := w'.owed, clients := w'.clients, now := w'.now)
    requires w.now <= w'.now
    requires forall c :: c in w'.clients ==> |w'.clients[c].md5| == 32 && ClientSound(w.past, w'.clients[c])
    ensures SafeWorld(w')
  {
    hide Wake, PcSound, JobSound, StatusSound, ClientSound, PastSound;
    OtherChangeSafe(w, w'.(clients := w.clients));
  }

  lemma JoinSafe(w: World, c: nat, id: Id, md5: string, request: string)
    requires Enabled(w, Join(c, id, md5, request)) && SafeWorld(w)
    ensures SafeWorld(Apply(w, Join(c, id, md5, request)))
  {
    hide Wake, PcSound, JobSound, StatusSound, PastSound;
    ClientsMoveSafe(w, Apply(w, Join(c, id, md5, request)));
  }

  lemma PhaseSafe(w: World, c: nat, phase: Phase)
    requires SafeWorld(w) && c in w.clients && ClientSound(w.past, w.clients[c].(phase := phase))
    ensures SafeWorld(Moved(w, c, phase))
  {
    hide Wake, PcSound, JobSound, StatusSound, PastSound;
    ClientsMoveSafe(w, Moved(w, c, phase));
  }

  lemma PutSafe(w: World, c: nat)
    requires Enabled(w, Puts(c)) && SafeWorld(w)
    ensures SafeWorld(ApplyPut(w, c))
  {
    hide Wake, PcSound, JobSound, StatusSound, PastSound;
    ClientsMoveSafe(w, ApplyPut(w, c));
  }

  lemma PokeSafe(w: World, c: nat, stamp: string)
    requires Enabled(w, Pokes(c, stamp)) && SafeWorld(w)
    ensures SafeWorld(ApplyPoke(w, c, stamp))
  {
    hide Wake, PcSound, JobSound, StatusSound, ReadySound, PastSound;
    var id := w.clients[c].id;
    var w1 := Moved(w, c, Done);
    PhaseSafe(w, c, Done);
    if id in w.store.objects && w.store.objects[id].stamp != stamp {
      var o := w.store.objects[id];
      var s' := Revise(w.store, id, o.spec, o.status, stamp);
      ReviseOnlyAt(w.store, id, o.spec, o.status, stamp);
      ReviseForward(w.store, id, o.spec, o.status, stamp);
      ExternalChangeSafe(w1, s', id);
      var w2 := Changed(w1, s', ObjectRef(id));
      ClientsMoveSafe(w2, w2.(owed := w2.owed - {id}));
    }
  }

  lemma QueueSafe(w: World, step: Step)
    requires Enabled(w, step) && SafeWorld(w) && (step.Take? || step.Finish? || step.Restart?)
    ensures SafeWorld(Apply(w, step))
  {
    hide PcSound, JobSound, StatusSound, ClientSound, ReadySound, AllTickets, ChildStore, ApplyAct, ApplyUser, Tidy;
    hide ApplyPoke;
    OtherChangeSafe(w, Apply(w, step));
  }

  lemma SafeStep(w: World, step: Step)
    requires Enabled(w, step) && SafeWorld(w)
    ensures SafeWorld(Apply(w, step))
  {
    hide SafeWorld, Reaction, Moved, ApplyAct, ApplyUser, ChildStore, ApplyFinish, ApplyPut, ApplyPoke, Changed;
    if UserStep(step) {
      UserSafe(w, step);
    } else if ChildStep(step) {
      ChildSafe(w, step);
    } else if step.Act? {
      ActSafe(w, step.ticket, step.reply);
    } else if step.Take? || step.Finish? || step.Restart? {
      QueueSafe(w, step);
    } else if step.Pokes? {
      PokeSafe(w, step.client, step.stamp);
    } else if step.Puts? {
      PutSafe(w, step.client);
    } else if step.Sees? {
      ReactionSound(w, step.client, step.version);
      PhaseSafe(w, step.client, Reaction(w.clients[step.client], step.version));
    } else {
      JoinSafe(w, step.client, step.id, step.md5, step.request);
    }
  }

  lemma {:induction false} SafeRun(w: World, steps: seq<Step>)
    requires Legal(w, steps) && SafeWorld(w)
    ensures SafeWorld(Execute(w, steps))
    decreases |steps|
  {
    if steps != [] {
      SafeStep(w, steps[0]);
      SafeRun(Apply(w, steps[0]), steps[1..]);
    }
  }

  /** Every state an operator started on an empty cluster can get into is safe. */
  lemma Reachable(cfg: Config, steps: seq<Step>)
    requires Legal(Initial(cfg), steps)
    ensures SafeWorld(Execute(Initial(cfg), steps))
  {
    SafeRun(Initial(cfg), steps);
  }
}
