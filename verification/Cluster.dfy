/** The shared object store: what the API server, the bucket and the informers look like to a controller.
    Every call a reconciler makes has one target and one answer; a call that changes its target wakes
    exactly the tickets that the watches and field indexes map that target to. */
module Cluster {
  import opened Basics
  import opened Identity
  import BucketUrls

  /******* Configuration of the operator *******/

  datatype Cloud = Gcp | KindCluster

  datatype Config = Config(
    registry: string,
    cluster: string,
    bucket: BucketUrls.BucketUrl,
    digest: string -> string,
    cloud: Cloud)

  datatype Gpu = NvidiaT4 | NvidiaL4 | NvidiaA100 | OtherGpu(name: string)

  /** The GPU table knows every type on a local cluster and three types on GCP. */
  predicate GpuSupported(cloud: Cloud, gpu: Gpu) {
    cloud.KindCluster? || !gpu.OtherGpu?
  }

  /******* Objects *******/

  datatype Git = Git(url: string, path: string, tag: string, branch: string)

  datatype Upload = Upload(md5: string, request: string)

  datatype Build = Build(git: Option<Git>, upload: Option<Upload>)

  datatype Spec = Spec(
    image: string,
    build: Option<Build>,
    model: Option<string>,
    dataset: Option<string>,
    suspend: bool,
    command: seq<string>,
    gpu: Option<Gpu>)

  datatype ConditionType = Uploaded | Built | Complete | Serving

  datatype Reason =
    | ModelNotFound | ModelNotReady | BaseModelNotFound | BaseModelNotReady
    | DatasetNotFound | DatasetNotReady
    | JobNotComplete | JobComplete | JobFailed
    | DeploymentReady | DeploymentNotReady | PodReady | PodNotReady
    | Suspended | AwaitingUpload | UploadFound

  datatype Condition = Condition(holds: bool, reason: Reason, generation: nat)

  /** A signed URL is a signature over the storage object, the checksum and the moment of signing. */
  datatype SignedUrl = SignedUrl(target: Id, md5: string, moment: nat)

  datatype UploadStatus = UploadStatus(url: Option<SignedUrl>, request: string, stored: string)

  datatype Status = Status(
    ready: bool,
    conditions: map<ConditionType, Condition>,
    url: string,
    upload: UploadStatus)

  const NEW_STATUS := Status(false, map[], "", UploadStatus(None, "", ""))

  datatype Object = Object(version: nat, generation: nat, stamp: string, spec: Spec, status: Status)

  function SetCondition(st: Status, kind: ConditionType, holds: bool, reason: Reason, generation: nat): Status {
    st.(conditions := st.conditions[kind := Condition(holds, reason, generation)])
  }

  /** The tag prefers Git over Upload. */
  function Tag(b: Build): string {
    match b.git
    case Some(git) =>
      if git.tag != "" then git.tag else if git.branch != "" then git.branch else "latest"
    case None =>
      match b.upload
      case Some(upload) => upload.md5
      case None => "latest"
  }

  function ImageRepository(cfg: Config, id: Id): string {
    cfg.registry + "/" + cfg.cluster + "-" + KindName(id.kind) + "-" + id.ns + "-" + id.name
  }

  function ImageUrl(cfg: Config, id: Id, b: Build): string {
    ImageRepository(cfg, id) + ":" + Tag(b)
  }

  function ArtifactUrl(cfg: Config, id: Id): BucketUrls.BucketUrl {
    cfg.bucket.(path := BucketUrls.Join(cfg.bucket.path, cfg.digest(HashInput(cfg.cluster, id))))
  }

  /** The URL a bucket mount starts from: the persisted one when there is one. */
  function MountUrl(cfg: Config, id: Id, st: Status): string {
    if st.url != "" then st.url else BucketUrls.Print(ArtifactUrl(cfg, id))
  }

  /** Pod construction fails only on a GPU type the cloud does not offer. */
  predicate Constructible(cfg: Config, spec: Spec) {
    spec.gpu.None? || GpuSupported(cfg.cloud, spec.gpu.value)
  }

  /** What can be constructed: anything without a GPU, anything on a local cluster, and the three GPU types of GCP. */
  lemma GpusOffered(cfg: Config, spec: Spec)
    ensures Constructible(cfg, spec)
            <==> spec.gpu.None? || cfg.cloud == KindCluster || spec.gpu.value in {NvidiaT4, NvidiaL4, NvidiaA100}
  {
  }

  /******* References between objects *******/

  /** The Model an object refers to; a Notebook treats an empty name as no reference. */
  function ModelRef(id: Id, spec: Spec): Option<Id> {
    match id.kind
    case Model => if spec.model.Some? then Some(Id(Model, id.ns, spec.model.value)) else None
    case Dataset => None
    case Notebook =>
      if spec.model.Some? && spec.model.value != "" then Some(Id(Model, id.ns, spec.model.value)) else None
    case Server => Some(Id(Model, id.ns, if spec.model.Some? then spec.model.value else ""))
  }

  function DatasetRef(id: Id, spec: Spec): Option<Id> {
    match id.kind
    case Model => if spec.dataset.Some? then Some(Id(Dataset, id.ns, spec.dataset.value)) else None
    case Notebook =>
      if spec.dataset.Some? && spec.dataset.value != "" then Some(Id(Dataset, id.ns, spec.dataset.value)) else None
    case _ => None
  }

  function Elements<T>(o: Option<T>): set<T> {
    if o.Some? then {o.value} else {}
  }

  function References(id: Id, spec: Spec): set<Id> {
    Elements(ModelRef(id, spec)) + Elements(DatasetRef(id, spec))
  }

  /******* Children *******/

  datatype JobConditionType = CompleteCondition | FailedCondition | OtherCondition

  datatype JobCondition = JobCondition(kind: JobConditionType, holds: bool)

  /** What the creator of a Job had observed. No call reads it. */
  datatype Origin = FromUpload(md5: string) | FromGit | FromSpec

  datatype Job = Job(image: string, succeeded: nat, conditions: seq<JobCondition>, origin: Origin)

  datatype JobId = JobId(owner: Id, role: JobRole)

  datatype JobVerdict = JobVerdict(complete: bool, failed: bool)

  /** The first condition that is Complete=True or Failed=True decides. */
  function JobResult(conditions: seq<JobCondition>): (v: JobVerdict)
    ensures !(v.complete && v.failed)
  {
    if conditions == [] then JobVerdict(false, false)
    else if conditions[0] == JobCondition(CompleteCondition, true) then JobVerdict(true, false)
    else if conditions[0] == JobCondition(FailedCondition, true) then JobVerdict(false, true)
    else JobResult(conditions[1..])
  }

  /** The Job reports `kind`, and has not reported `other` before. */
  ghost predicate Reports(conditions: seq<JobCondition>, kind: JobConditionType, other: JobConditionType) {
    exists i :: 0 <= i < |conditions| && conditions[i] == JobCondition(kind, true)
                && forall j :: 0 <= j < i ==> conditions[j] != JobCondition(other, true)
  }

  /** Complete means that Complete=True comes before any Failed=True, and failed the converse. */
  lemma {:induction false} JobResultTells(conditions: seq<JobCondition>)
    ensures JobResult(conditions).complete <==> Reports(conditions, CompleteCondition, FailedCondition)
    ensures JobResult(conditions).failed <==> Reports(conditions, FailedCondition, CompleteCondition)
  {
    if conditions != [] {
      var rest := conditions[1..];
      JobResultTells(rest);
      ReportsLater(conditions, CompleteCondition, FailedCondition);
      ReportsLater(conditions, FailedCondition, CompleteCondition);
    }
  }

  lemma ReportsLater(conditions: seq<JobCondition>, kind: JobConditionType, other: JobConditionType)
    requires conditions != [] && kind != other
    ensures Reports(conditions, kind, other)
            <==> conditions[0] == JobCondition(kind, true)
                 || (conditions[0] != JobCondition(other, true) && Reports(conditions[1..], kind, other))
  {
    var rest := conditions[1..];
    if Reports(conditions, kind, other) {
      var i :| 0 <= i < |conditions| && conditions[i] == JobCondition(kind, true)
        && forall j :: 0 <= j < i ==> conditions[j] != JobCondition(other, true);
      if i > 0 {
        assert rest[i - 1] == JobCondition(kind, true);
        assert forall j :: 0 <= j < i - 1 ==> rest[j] == conditions[j + 1];
      }
    }
    if conditions[0] != JobCondition(other, true) && Reports(rest, kind, other) {
      var i :| 0 <= i < |rest| && rest[i] == JobCondition(kind, true)
        && forall j :: 0 <= j < i ==> rest[j] != JobCondition(other, true);
      assert conditions[i + 1] == JobCondition(kind, true);
      assert forall j :: 0 < j < i + 1 ==> conditions[j] == rest[j - 1];
    }
  }

  datatype PodTemplate = PodTemplate(image: string, fixed: PodFixed)

  /** The part of a Pod spec that the API server refuses to change. */
  datatype PodFixed = PodFixed(
    command: seq<string>, gpu: Option<Gpu>, model: Option<string>, dataset: Option<string>, own: string)

  datatype PodCondition = PodCondition(kind: string, status: string)

  datatype Pod = Pod(template: PodTemplate, running: bool, conditions: seq<PodCondition>)

  predicate IsPodReady(pod: Pod) {
    pod.running && exists i :: 0 <= i < |pod.conditions| && pod.conditions[i] == PodCondition("Ready", "True")
  }

  datatype Deployment = Deployment(template: PodTemplate, readyReplicas: nat)

  /******* The store *******/

  datatype Store = Store(
    cfg: Config,
    clock: nat,
    objects: map<Id, Object>,
    jobs: map<JobId, Job>,
    pods: map<Id, Pod>,
    services: set<Id>,
    deployments: map<Id, Deployment>,
    blobs: map<Id, string>)

  datatype Call =
    | GetObject(id: Id)
    | GetDependency(id: Id)
    | PutStatus(id: Id, version: nat, status: Status)
    | PutSpec(id: Id, version: nat, spec: Spec)
    | GetJob(job: JobId)
    | CreateJob(job: JobId, manifest: Job, versioned: bool)
    | DeleteJob(job: JobId)
    | ApplyPod(id: Id, template: PodTemplate)
    | GetPod(id: Id)
    | DeletePod(id: Id)
    | ApplyService(id: Id)
    | ApplyDeployment(id: Id, template: PodTemplate)
    | GetDeployment(id: Id)
    | ReadChecksum(id: Id)
    | SignUrl(id: Id, wanted: SignedUrl)

  datatype Response =
    | Failed
    | Absent
    | Refused
    | Accepted
    | TheObject(found: Object)
    | TheDependency(ready: bool, url: string)
    | TheJob(job: Job)
    | ThePod(pod: Pod)
    | TheDeployment(readyReplicas: nat)
    | TheChecksum(md5: string)
    | TheUrl(signed: SignedUrl)

  datatype Served = Served(store: Store, response: Response, loud: bool)

  /** A new version of an object; the generation counts spec changes only. */
  function Revise(s: Store, id: Id, spec: Spec, status: Status, stamp: string): Store
    requires id in s.objects
  {
    var was := s.objects[id];
    var generation := if spec == was.spec then was.generation else was.generation + 1;
    s.(clock := s.clock + 1, objects := s.objects[id := Object(s.clock + 1, generation, stamp, spec, status)])
  }

  /** A version-checked write of one half of an object: a write that changes nothing is silent. */
  function ServePut(s: Store, id: Id, version: nat, spec: Option<Spec>, status: Option<Status>): Served {
    if id !in s.objects then Served(s, Absent, false)
    else if s.objects[id].version != version then Served(s, Refused, false)
    else
      var was := s.objects[id];
      var spec' := if spec.Some? then spec.value else was.spec;
      var status' := if status.Some? then status.value else was.status;
      if spec' == was.spec && status' == was.status then Served(s, TheObject(was), false)
      else
        var s' := Revise(s, id, spec', status', was.stamp);
        Served(s', TheObject(s'.objects[id]), true)
  }

  /** Creation resets the Job status; a manifest that carries a resource version is rejected. */
  function ServeCreateJob(s: Store, job: JobId, manifest: Job, versioned: bool): Served {
    if versioned || job in s.jobs then Served(s, Refused, false)
    else
      var created := manifest.(succeeded := 0, conditions := []);
      Served(s.(jobs := s.jobs[job := created]), TheJob(created), true)
  }

  /** Server-side apply: only the image of an existing Pod may change. */
  function ServeApplyPod(s: Store, id: Id, template: PodTemplate): Served {
    if id !in s.pods then
      var pod := Pod(template, false, []);
      Served(s.(pods := s.pods[id := pod]), ThePod(pod), true)
    else if s.pods[id].template == template then Served(s, ThePod(s.pods[id]), false)
    else if s.pods[id].template.fixed == template.fixed then
      var pod := s.pods[id].(template := template);
      Served(s.(pods := s.pods[id := pod]), ThePod(pod), true)
    else Served(s, Refused, false)
  }

  function ServeApplyDeployment(s: Store, id: Id, template: PodTemplate): Served {
    if id in s.deployments && s.deployments[id].template == template then Served(s, Accepted, false)
    else
      var replicas := if id in s.deployments then s.deployments[id].readyReplicas else 0;
      Served(s.(deployments := s.deployments[id := Deployment(template, replicas)]), Accepted, true)
  }

  function Serve(s: Store, c: Call): Served {
    match c
    case GetObject(id) => Served(s, if id in s.objects then TheObject(s.objects[id]) else Absent, false)
    case GetDependency(id) =>
      Served(s, if id in s.objects
             then TheDependency(s.objects[id].status.ready, MountUrl(s.cfg, id, s.objects[id].status))
             else Absent, false)
    case PutStatus(id, version, status) => ServePut(s, id, version, None, Some(status))
    case PutSpec(id, version, spec) => ServePut(s, id, version, Some(spec), None)
    case GetJob(job) => Served(s, if job in s.jobs then TheJob(s.jobs[job]) else Absent, false)
    case CreateJob(job, manifest, versioned) => ServeCreateJob(s, job, manifest, versioned)
    case DeleteJob(job) =>
      if job in s.jobs then Served(s.(jobs := s.jobs - {job}), Accepted, true) else Served(s, Absent, false)
    case ApplyPod(id, template) => ServeApplyPod(s, id, template)
    case GetPod(id) => Served(s, if id in s.pods then ThePod(s.pods[id]) else Absent, false)
    case DeletePod(id) =>
      if id in s.pods then Served(s.(pods := s.pods - {id}), Accepted, true) else Served(s, Absent, false)
    case ApplyService(id) =>
      if id in s.services then Served(s, Accepted, false)
      else Served(s.(services := s.services + {id}), Accepted, true)
    case ApplyDeployment(id, template) => ServeApplyDeployment(s, id, template)
    case GetDeployment(id) =>
      Served(s, if id in s.deployments then TheDeployment(s.deployments[id].readyReplicas) else Absent, false)
    case ReadChecksum(id) => Served(s, if id in s.blobs then TheChecksum(s.blobs[id]) else Absent, false)
    case SignUrl(_, wanted) => Served(s, TheUrl(wanted), false)
  }

  /******* Targets, watches and field indexes *******/

  datatype Ref =
    | ObjectRef(id: Id) | JobRef(job: JobId) | PodRef(id: Id)
    | ServiceRef(id: Id) | DeploymentRef(id: Id) | BlobRef(id: Id)

  function Target(c: Call): Ref {
    match c
    case GetObject(id) => ObjectRef(id)
    case GetDependency(id) => ObjectRef(id)
    case PutStatus(id, _, _) => ObjectRef(id)
    case PutSpec(id, _, _) => ObjectRef(id)
    case GetJob(job) => JobRef(job)
    case CreateJob(job, _, _) => JobRef(job)
    case DeleteJob(job) => JobRef(job)
    case ApplyPod(id, _) => PodRef(id)
    case GetPod(id) => PodRef(id)
    case DeletePod(id) => PodRef(id)
    case ApplyService(id) => ServiceRef(id)
    case ApplyDeployment(id, _) => DeploymentRef(id)
    case GetDeployment(id) => DeploymentRef(id)
    case ReadChecksum(id) => BlobRef(id)
    case SignUrl(id, _) => BlobRef(id)
  }

  datatype Controller = Runner | Builder

  /** A work item: the key of an object in the queue of one of the two controllers of its kind. */
  datatype Ticket = Ticket(controller: Controller, id: Id)

  datatype IndexField = ModelField | DatasetField

  /** The field indexers, one line per registered index. */
  function IndexKeys(kind: Kind, field: IndexField, spec: Spec): seq<string> {
    match (kind, field)
    case (Notebook, ModelField) => if spec.model.None? then [] else [spec.model.value]
    case (Notebook, DatasetField) => if spec.dataset.None? then [] else [spec.dataset.value]
    case (Model, ModelField) => if spec.model.None? then [] else [spec.model.value]
    case (Model, DatasetField) => if spec.dataset.None? then [] else [spec.dataset.value]
    case (Server, ModelField) => [if spec.model.Some? then spec.model.value else ""]
    case _ => []
  }

  predicate Matches(s: Store, d: Id, kind: Kind, field: IndexField, of: Id) {
    d in s.objects && d.kind == kind && d.ns == of.ns && of.name in IndexKeys(kind, field, s.objects[d].spec)
  }

  /** The objects of one kind that an index lookup for the name of `of` in its namespace returns. */
  function Lookup(s: Store, kind: Kind, field: IndexField, of: Id): set<Id> {
    set d | d in s.objects && Matches(s, d, kind, field, of)
  }

  /** What the mapping functions of the Model, Notebook and Server controllers enqueue for an event on `of`. */
  function Dependents(s: Store, of: Id): set<Id> {
    match of.kind
    case Model =>
      Lookup(s, Model, ModelField, of) + Lookup(s, Notebook, ModelField, of) + Lookup(s, Server, ModelField, of)
    case Dataset => Lookup(s, Model, DatasetField, of) + Lookup(s, Notebook, DatasetField, of)
    case _ => {}
  }

  /** `spec`, of an object of this kind, names `name` as its Model or Dataset. A Server that names none counts as naming
      the empty one. */
  predicate Names(kind: Kind, spec: Spec, of: Kind, name: string) {
    match of
    case Model => kind != Dataset && (spec.model == Some(name) || (kind == Server && spec.model.None? && name == ""))
    case Dataset => kind in {Model, Notebook} && spec.dataset == Some(name)
    case _ => false
  }

  /** The tickets an event on `r` puts in the queues. Bucket writes are not events. */
  function Wake(s: Store, r: Ref): set<Ticket> {
    match r
    case ObjectRef(id) =>
      {Ticket(Runner, id), Ticket(Builder, id)} + (set d | d in Dependents(s, id) :: Ticket(Runner, d))
    case JobRef(job) => {Ticket(Runner, job.owner), Ticket(Builder, job.owner)}
    case PodRef(id) => if id.kind == Notebook then {Ticket(Runner, id)} else {}
    case ServiceRef(id) => if id.kind == Server then {Ticket(Runner, id)} else {}
    case DeploymentRef(id) => if id.kind == Server then {Ticket(Runner, id)} else {}
    case BlobRef(_) => {}
  }

  /** Who is woken: by an event on an object, its own two controllers and the runners of exactly the objects of its
      namespace that name it; by one on a child, its owner; by the bucket, nobody. */
  lemma WakesAre(s: Store, r: Ref, t: Ticket)
    ensures t in Wake(s, r)
            <==> match r
                 case ObjectRef(of) =>
                   t.id == of
                   || (t.controller == Runner && t.id in s.objects && t.id.ns == of.ns
                       && Names(t.id.kind, s.objects[t.id].spec, of.kind, of.name))
                 case JobRef(job) => t.id == job.owner
                 case PodRef(id) => t.id == id && id.kind == Notebook && t.controller == Runner
                 case ServiceRef(id) => t.id == id && id.kind == Server && t.controller == Runner
                 case DeploymentRef(id) => t.id == id && id.kind == Server && t.controller == Runner
                 case BlobRef(_) => false
  {
    assert t.controller == Runner || t.controller == Builder;
    assert t == Ticket(t.controller, t.id);
    if r.ObjectRef? {
      assert t.id in Dependents(s, r.id) <==>
             t.id in s.objects && t.id.ns == r.id.ns
             && Names(t.id.kind, s.objects[t.id].spec, r.id.kind, r.id.name);
    }
  }

  function Woken(s: Store, c: Call): set<Ticket> {
    var served := Serve(s, c);
    if served.loud then Wake(served.store, Target(c)) else {}
  }
}
