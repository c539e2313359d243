/** The reconcilers as programs over API calls. A program counter holds the local variables that are live
    before its next call; `Resume` is the code between the answer to one call and the next call. */
module Programs {
  import opened Basics
  import opened Identity
  import opened Cluster
  import BucketUrls

  /** A nil error, a returned error (the key is retried with back-off), or a nil dereference (the process dies). */
  datatype Outcome = Settle | Retry | Crash

  datatype Pc =
    | Return(outcome: Outcome)
    // The last status write of a reconcile.
    | Publish(id: Id, local: Object, status: Status, outcome: Outcome)
    | RunnerGet(id: Id)
    // Model and Dataset
    | BaseModelGet(id: Id, local: Object, ref: Id)
    | DatasetGet(id: Id, local: Object, ref: Id)
    | DataUrlPut(id: Id, local: Object)
    | RunJobCreate(id: Id, local: Object)
    | RunJobGet(id: Id, local: Object)
    // Notebook
    | SuspendPut(id: Id, local: Object)
    | SuspendDelete(id: Id, local: Object)
    | NotebookModelGet(id: Id, local: Object, ref: Id)
    | NotebookDatasetGet(id: Id, local: Object, ref: Id, model: Option<string>)
    | PodApply(id: Id, local: Object, template: PodTemplate)
    | PodEvict(id: Id, local: Object)
    | PodGet(id: Id, local: Object, pod: Pod)
    // Server
    | ServerModelGet(id: Id, local: Object, ref: Id)
    | ServiceApply(id: Id, local: Object, url: string)
    | DeploymentApply(id: Id, local: Object, template: PodTemplate)
    | DeploymentGet(id: Id, local: Object)
    // Build
    | BuilderGet(id: Id)
    | NewUploadCheck(id: Id, local: Object, upload: Upload)
    | UrlSign(id: Id, local: Object, upload: Upload)
    | KnownUploadCheck(id: Id, local: Object, upload: Upload)
    | StoredPut(id: Id, local: Object, status: Status, md5: string)
    | BuildJobGet(id: Id, local: Object, origin: Origin)
    | BuildJobCreate(id: Id, local: Object, origin: Origin)
    | BuildJobDelete(id: Id, local: Object, job: Job)
    | BuildJobRecreate(id: Id, local: Object, job: Job)
    | ImagePut(id: Id, local: Object, job: Job)

  function Start(t: Ticket): Pc {
    if t.controller == Runner then RunnerGet(t.id) else BuilderGet(t.id)
  }

  /** Upper bound on the calls left: no reconciler loops. */
  function Rank(pc: Pc): nat {
    match pc
    case Return(_) => 0
    case Publish(_, _, _, _) => 1
    case RunnerGet(_) => 9
    case BaseModelGet(_, _, _) => 5
    case DatasetGet(_, _, _) => 4
    case DataUrlPut(_, _) => 4
    case RunJobCreate(_, _) => 3
    case RunJobGet(_, _) => 2
    case SuspendPut(_, _) => 2
    case SuspendDelete(_, _) => 1
    case NotebookModelGet(_, _, _) => 6
    case NotebookDatasetGet(_, _, _, _) => 5
    case PodApply(_, _, _) => 4
    case PodEvict(_, _) => 1
    case PodGet(_, _, _) => 3
    case ServerModelGet(_, _, _) => 5
    case ServiceApply(_, _, _) => 4
    case DeploymentApply(_, _, _) => 3
    case DeploymentGet(_, _) => 2
    case BuilderGet(_) => 9
    case NewUploadCheck(_, _, _) => 6
    case UrlSign(_, _, _) => 2
    case KnownUploadCheck(_, _, _) => 6
    case StoredPut(_, _, _, _) => 5
    case BuildJobGet(_, _, _) => 4
    case BuildJobCreate(_, _, _) => 3
    case BuildJobDelete(_, _, _) => 3
    case BuildJobRecreate(_, _, _) => 2
    case ImagePut(_, _, _) => 2
  }

  /** The local copy that a program counter holds. */
  function Copy(pc: Pc): Option<Object> {
    if pc.Return? || pc.RunnerGet? || pc.BuilderGet? then None else Some(pc.local)
  }

  /******* Edits of a local status *******/

  function WithUrl(cfg: Config, id: Id, st: Status): Status {
    st.(url := BucketUrls.Print(ArtifactUrl(cfg, id)))
  }

  /** Ready and the condition are always set together. */
  function Mark(o: Object, st: Status, kind: ConditionType, holds: bool, reason: Reason): Status {
    SetCondition(st.(ready := holds), kind, holds, reason, o.generation)
  }

  function DesiredImage(cfg: Config, id: Id, spec: Spec): string {
    if spec.build.Some? then ImageUrl(cfg, id, spec.build.value) else ""
  }

  /** The object waits for its image to be built. */
  predicate Building(s: Store, id: Id)
    requires id in s.objects
  {
    s.objects[id].spec.build.Some? && s.objects[id].spec.image != DesiredImage(s.cfg, id, s.objects[id].spec)
  }

  function AwaitingUploadStatus(o: Object, url: SignedUrl, request: string): Status {
    var st := o.status.(upload := UploadStatus(Some(url), request, ""));
    SetCondition(st, Uploaded, false, AwaitingUpload, o.generation)
  }

  function StoredStatus(o: Object, request: string, md5: string): Status {
    var st := o.status.(upload := UploadStatus(None, request, md5));
    SetCondition(st, Uploaded, true, UploadFound, o.generation)
  }

  function BuildPendingStatus(o: Object): Status {
    Mark(o, o.status, Built, false, JobNotComplete)
  }

  function BuiltStatus(o: Object): Status {
    SetCondition(o.status, Built, true, JobComplete, o.generation)
  }

  function CompletionStatus(cfg: Config, id: Id, o: Object, holds: bool, reason: Reason): Status {
    Mark(o, WithUrl(cfg, id, o.status), Complete, holds, reason)
  }

  function ServingStatus(o: Object, holds: bool, reason: Reason): Status {
    Mark(o, o.status, Serving, holds, reason)
  }

  function NotebookTemplate(cfg: Config, id: Id, o: Object, model: Option<string>,
                            dataset: Option<string>): PodTemplate {
    PodTemplate(o.spec.image, PodFixed(o.spec.command, o.spec.gpu, model, dataset, MountUrl(cfg, id, o.status)))
  }

  function ServerTemplate(o: Object, model: string): PodTemplate {
    PodTemplate(o.spec.image, PodFixed(o.spec.command, o.spec.gpu, Some(model), None, ""))
  }

  /******* The call at each program counter *******/

  function CallOf(cfg: Config, pc: Pc): Call
    requires !pc.Return?
  {
    match pc
    case Publish(id, o, st, _) => PutStatus(id, o.version, st)
    case RunnerGet(id) => GetObject(id)
    case BaseModelGet(_, _, ref) => GetDependency(ref)
    case DatasetGet(_, _, ref) => GetDependency(ref)
    case DataUrlPut(id, o) => PutStatus(id, o.version, WithUrl(cfg, id, o.status))
    case RunJobCreate(id, o) => CreateJob(JobId(id, RunJob), Job(o.spec.image, 0, [], FromSpec), false)
    case RunJobGet(id, _) => GetJob(JobId(id, RunJob))
    case SuspendPut(id, o) => PutStatus(id, o.version, ServingStatus(o, false, Suspended))
    case SuspendDelete(id, _) => DeletePod(id)
    case NotebookModelGet(_, _, ref) => GetDependency(ref)
    case NotebookDatasetGet(_, _, ref, _) => GetDependency(ref)
    case PodApply(id, _, template) => ApplyPod(id, template)
    case PodEvict(id, _) => DeletePod(id)
    case PodGet(id, _, _) => GetPod(id)
    case ServerModelGet(_, _, ref) => GetDependency(ref)
    case ServiceApply(id, _, _) => ApplyService(id)
    case DeploymentApply(id, _, template) => ApplyDeployment(id, template)
    case DeploymentGet(id, _) => GetDeployment(id)
    case BuilderGet(id) => GetObject(id)
    case NewUploadCheck(id, _, _) => ReadChecksum(id)
    case UrlSign(id, o, upload) => SignUrl(id, SignedUrl(id, upload.md5, o.version))
    case KnownUploadCheck(id, _, _) => ReadChecksum(id)
    case StoredPut(id, o, st, _) => PutStatus(id, o.version, st)
    case BuildJobGet(id, _, _) => GetJob(JobId(id, BuildJob))
    case BuildJobCreate(id, o, origin) =>
      CreateJob(JobId(id, BuildJob), Job(DesiredImage(cfg, id, o.spec), 0, [], origin), false)
    case BuildJobDelete(id, _, _) => DeleteJob(JobId(id, BuildJob))
    case BuildJobRecreate(id, _, job) => CreateJob(JobId(id, BuildJob), job, true)
    case ImagePut(id, o, _) => PutSpec(id, o.version, o.spec.(image := DesiredImage(cfg, id, o.spec)))
  }

  /******* Model and Dataset *******/

  function ModelBegin(cfg: Config, id: Id, o: Object): Pc {
    if o.status.ready then Return(Settle)
    else if ModelRef(id, o.spec).Some? then BaseModelGet(id, o, ModelRef(id, o.spec).value)
    else ModelDataset(cfg, id, o)
  }

  function ModelDataset(cfg: Config, id: Id, o: Object): Pc {
    if DatasetRef(id, o.spec).Some? then DatasetGet(id, o, DatasetRef(id, o.spec).value)
    else ModelJob(cfg, id, o)
  }

  /** A Job that cannot be constructed is not worth a retry. */
  function ModelJob(cfg: Config, id: Id, o: Object): Pc {
    if Constructible(cfg, o.spec) then RunJobCreate(id, o) else Return(Settle)
  }

  function DatasetBegin(cfg: Config, id: Id, o: Object): Pc {
    if o.status.ready || !Constructible(cfg, o.spec) then Return(Settle) else DataUrlPut(id, o)
  }

  function Incomplete(cfg: Config, id: Id, o: Object, reason: Reason, outcome: Outcome): Pc {
    Publish(id, o, CompletionStatus(cfg, id, o, false, reason), outcome)
  }

  function RunJobSeen(cfg: Config, id: Id, o: Object, job: Job): Pc {
    var verdict := JobResult(job.conditions);
    if verdict.complete then Publish(id, o, CompletionStatus(cfg, id, o, true, JobComplete), Settle)
    else Incomplete(cfg, id, o, if verdict.failed then JobFailed else JobNotComplete, Settle)
  }

  /******* Notebook *******/

  function NotServing(id: Id, o: Object, reason: Reason): Pc {
    Publish(id, o, ServingStatus(o, false, reason), Settle)
  }

  function NotebookBegin(cfg: Config, id: Id, o: Object): Pc {
    if o.spec.suspend then SuspendPut(id, o)
    else if ModelRef(id, o.spec).Some? then NotebookModelGet(id, o, ModelRef(id, o.spec).value)
    else NotebookDataset(cfg, id, o, None)
  }

  function NotebookDataset(cfg: Config, id: Id, o: Object, model: Option<string>): Pc {
    if DatasetRef(id, o.spec).Some? then NotebookDatasetGet(id, o, DatasetRef(id, o.spec).value, model)
    else NotebookPod(cfg, id, o, model, None)
  }

  function NotebookPod(cfg: Config, id: Id, o: Object, model: Option<string>, dataset: Option<string>): Pc {
    if Constructible(cfg, o.spec) then PodApply(id, o, NotebookTemplate(cfg, id, o, model, dataset))
    else Return(Retry)
  }

  function PodSeen(id: Id, o: Object, pod: Pod): Pc {
    if IsPodReady(pod) then Publish(id, o, ServingStatus(o, true, PodReady), Settle)
    else NotServing(id, o, PodNotReady)
  }

  /******* Server *******/

  function ServerDeployment(cfg: Config, id: Id, o: Object, model: string): Pc {
    if Constructible(cfg, o.spec) then DeploymentApply(id, o, ServerTemplate(o, model)) else Return(Retry)
  }

  function DeploymentSeen(id: Id, o: Object, readyReplicas: nat): Pc {
    if readyReplicas == 0 then NotServing(id, o, DeploymentNotReady)
    else Publish(id, o, ServingStatus(o, true, DeploymentReady), Settle)
  }

  /******* Build *******/

  /** Reconcile prefers Upload; a build with neither source dereferences a nil Job. */
  function BuilderBegin(cfg: Config, id: Id, o: Object): Pc {
    if o.spec.build.None? || o.spec.image == DesiredImage(cfg, id, o.spec) then Return(Settle)
    else
      var b := o.spec.build.value;
      if b.upload.Some? then
        if b.upload.value.request != o.status.upload.request then NewUploadCheck(id, o, b.upload.value)
        else KnownUploadCheck(id, o, b.upload.value)
      else if b.git.Some? then BuildJobGet(id, o, FromGit)
      else Return(Crash)
  }

  /** For a new request an unreadable checksum counts as empty. */
  function NewUploadSeen(id: Id, o: Object, upload: Upload, md5: string): Pc {
    if md5 == upload.md5 then StoredPut(id, o, StoredStatus(o, "", upload.md5), md5)
    else UrlSign(id, o, upload)
  }

  function KnownUploadSeen(id: Id, o: Object, upload: Upload, md5: string): Pc {
    if md5 == upload.md5 then StoredPut(id, o, StoredStatus(o, upload.request, md5), md5)
    else Return(Settle)
  }

  function BuildPending(id: Id, o: Object): Pc {
    Publish(id, o, BuildPendingStatus(o), Settle)
  }

  /** An out-of-date Job is deleted, and the fetched Job is then created again. */
  function BuildJobSeen(cfg: Config, id: Id, o: Object, job: Job): Pc {
    if job.image != DesiredImage(cfg, id, o.spec) then BuildJobDelete(id, o, job)
    else if job.succeeded < 1 then BuildPending(id, o)
    else ImagePut(id, o, job)
  }

  /******* The code after each call *******/

  function Begin(cfg: Config, id: Id, o: Object): Pc {
    if o.spec.image == "" then Return(Settle)
    else
      match id.kind
      case Model => ModelBegin(cfg, id, o)
      case Dataset => DatasetBegin(cfg, id, o)
      case Notebook => NotebookBegin(cfg, id, o)
      case Server => ServerModelGet(id, o, ModelRef(id, o.spec).value)
  }

  predicate InCompletion(pc: Pc) {
    || pc.BaseModelGet?
    || pc.DatasetGet?
    || pc.DataUrlPut?
    || pc.RunJobCreate?
    || pc.RunJobGet?
  }

  function ResumeCompletion(cfg: Config, pc: Pc, r: Response): (pc': Pc)
    requires InCompletion(pc)
    ensures Rank(pc') < Rank(pc)
  {
    match pc
    case BaseModelGet(id, o, _) =>
      if r.Absent? then Incomplete(cfg, id, o, BaseModelNotFound, Settle)
      else if !r.TheDependency? then Return(Retry)
      else if !r.ready then Incomplete(cfg, id, o, BaseModelNotReady, Settle)
      else ModelDataset(cfg, id, o)
    case DatasetGet(id, o, _) =>
      if r.Absent? then Incomplete(cfg, id, o, Reason.DatasetNotFound, Settle)
      else if !r.TheDependency? then Return(Retry)
      else if !r.ready then Incomplete(cfg, id, o, Reason.DatasetNotReady, Settle)
      else ModelJob(cfg, id, o)
    case DataUrlPut(id, _) => if r.TheObject? then RunJobCreate(id, r.found) else Return(Retry)
    case RunJobCreate(id, o) =>
      if r.TheJob? || r.Refused? then RunJobGet(id, o) else Incomplete(cfg, id, o, JobNotComplete, Retry)
    case RunJobGet(id, o) =>
      if r.TheJob? then RunJobSeen(cfg, id, o, r.job) else Incomplete(cfg, id, o, JobNotComplete, Retry)
  }

  predicate InNotebook(pc: Pc) {
    || pc.SuspendPut?
    || pc.SuspendDelete?
    || pc.NotebookModelGet?
    || pc.NotebookDatasetGet?
    || pc.PodApply?
    || pc.PodEvict?
    || pc.PodGet?
  }

  function ResumeNotebook(cfg: Config, pc: Pc, r: Response): (pc': Pc)
    requires InNotebook(pc)
    ensures Rank(pc') < Rank(pc)
  {
    match pc
    case SuspendPut(id, _) => if r.TheObject? then SuspendDelete(id, r.found) else Return(Retry)
    case SuspendDelete(_, _) => if r.Accepted? || r.Absent? then Return(Settle) else Return(Retry)
    case NotebookModelGet(id, o, _) =>
      if r.Absent? then NotServing(id, o, ModelNotFound)
      else if !r.TheDependency? then Return(Retry)
      else if !r.ready then NotServing(id, o, ModelNotReady)
      else NotebookDataset(cfg, id, o, Some(r.url))
    case NotebookDatasetGet(id, o, _, model) =>
      if r.Absent? then NotServing(id, o, Reason.DatasetNotFound)
      else if !r.TheDependency? then Return(Retry)
      else if !r.ready then NotServing(id, o, Reason.DatasetNotReady)
      else NotebookPod(cfg, id, o, model, Some(r.url))
    case PodApply(id, o, _) =>
      if r.ThePod? then PodGet(id, o, r.pod) else if r.Refused? then PodEvict(id, o) else Return(Retry)
    case PodEvict(_, _) => if r.Accepted? then Return(Settle) else Return(Retry)
    case PodGet(id, o, applied) =>
      if r.ThePod? then PodSeen(id, o, r.pod)
      else if r.Absent? then PodSeen(id, o, applied)
      else Return(Retry)
  }

  predicate InServer(pc: Pc) {
    || pc.ServerModelGet?
    || pc.ServiceApply?
    || pc.DeploymentApply?
    || pc.DeploymentGet?
  }

  function ResumeServer(cfg: Config, pc: Pc, r: Response): (pc': Pc)
    requires InServer(pc)
    ensures Rank(pc') < Rank(pc)
  {
    match pc
    case ServerModelGet(id, o, _) =>
      if r.Absent? then NotServing(id, o, ModelNotFound)
      else if !r.TheDependency? then Return(Retry)
      else if !r.ready then NotServing(id, o, ModelNotReady)
      else ServiceApply(id, o, r.url)
    case ServiceApply(id, o, model) => if r.Accepted? then ServerDeployment(cfg, id, o, model) else Return(Retry)
    case DeploymentApply(id, o, _) => if r.Accepted? then DeploymentGet(id, o) else Return(Retry)
    case DeploymentGet(id, o) =>
      if r.TheDeployment? then DeploymentSeen(id, o, r.readyReplicas) else Return(Retry)
  }

  predicate InBuild(pc: Pc) {
    || pc.NewUploadCheck?
    || pc.UrlSign?
    || pc.KnownUploadCheck?
    || pc.StoredPut?
    || pc.BuildJobGet?
    || pc.BuildJobCreate?
    || pc.BuildJobDelete?
    || pc.BuildJobRecreate?
    || pc.ImagePut?
  }

  function ResumeBuild(cfg: Config, pc: Pc, r: Response): (pc': Pc)
    requires InBuild(pc)
    ensures Rank(pc') < Rank(pc)
  {
    match pc
    case NewUploadCheck(id, o, upload) =>
      NewUploadSeen(id, o, upload, if r.TheChecksum? then r.md5 else "")
    case UrlSign(id, o, upload) =>
      if r.TheUrl? then Publish(id, o, AwaitingUploadStatus(o, r.signed, upload.request), Settle) else Return(Retry)
    case KnownUploadCheck(id, o, upload) =>
      if r.TheChecksum? then KnownUploadSeen(id, o, upload, r.md5) else Return(Retry)
    case StoredPut(id, _, _, md5) =>
      if r.TheObject? then BuildJobGet(id, r.found, FromUpload(md5)) else Return(Retry)
    case BuildJobGet(id, o, origin) =>
      if r.TheJob? then BuildJobSeen(cfg, id, o, r.job)
      else if r.Absent? then BuildJobCreate(id, o, origin)
      else Return(Retry)
    case BuildJobCreate(id, o, _) => if r.TheJob? || r.Refused? then BuildPending(id, o) else Return(Retry)
    case BuildJobDelete(id, o, job) =>
      if r.Accepted? || r.Absent? then BuildJobRecreate(id, o, job) else Return(Retry)
    case BuildJobRecreate(_, _, _) => Return(Retry)
    case ImagePut(id, _, _) =>
      if r.TheObject? then Publish(id, r.found, BuiltStatus(r.found), Settle) else Return(Retry)
  }

  function Resume(cfg: Config, pc: Pc, r: Response): (pc': Pc)
    requires !pc.Return?
    ensures Rank(pc') < Rank(pc)
  {
    if pc.Publish? then (if r.TheObject? then Return(pc.outcome) else Return(Retry))
    else if pc.RunnerGet? then
      if r.TheObject? then Begin(cfg, pc.id, r.found) else if r.Absent? then Return(Settle) else Return(Retry)
    else if pc.BuilderGet? then
      if r.TheObject? then BuilderBegin(cfg, pc.id, r.found) else if r.Absent? then Return(Settle) else Return(Retry)
    else if InCompletion(pc) then ResumeCompletion(cfg, pc, r)
    else if InNotebook(pc) then ResumeNotebook(cfg, pc, r)
    else if InServer(pc) then ResumeServer(cfg, pc, r)
    else ResumeBuild(cfg, pc, r)
  }

  /******* One reconcile without interference *******/

  datatype Completion = Completion(store: Store, woken: set<Ticket>, outcome: Outcome)

  function Reconcile(s: Store, pc: Pc): Completion
    decreases Rank(pc)
  {
    if pc.Return? then Completion(s, {}, pc.outcome)
    else
      var c := CallOf(s.cfg, pc);
      var served := Serve(s, c);
      var rest := Reconcile(served.store, Resume(s.cfg, pc, served.response));
      rest.(woken := Woken(s, c) + rest.woken)
  }

  /** Reconciling from here now would write nothing and return no error. */
  ghost predicate Quiet(s: Store, pc: Pc)
    decreases Rank(pc)
  {
    if pc.Return? then pc.outcome == Settle
    else
      var served := Serve(s, CallOf(s.cfg, pc));
      !served.loud && Quiet(s, Resume(s.cfg, pc, served.response))
  }
}
