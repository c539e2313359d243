/** The reconcilers as they are written: methods that edit a local copy and call the API server. Each is proved to do,
    whatever the fate of its calls, exactly what its program does. */
module Controllers {
  import opened Basics
  import opened Identity
  import opened Cluster
  import opened Programs
  import opened Network
  import BucketUrls

  /******* One reconcile that nobody disturbs but whose calls may fail *******/

  function Faced(s: Store, pc: Pc, fate: nat -> Reply, n: nat): Completion
    decreases Rank(pc)
  {
    if pc.Return? then Completion(s, {}, pc.outcome)
    else
      var c := CallOf(s.cfg, pc);
      var served := Serve(s, c);
      var s' := if fate(n).Dropped? then s else served.store;
      var r := if fate(n).Delivered? then served.response else Failed;
      var rest := Faced(s', Resume(s.cfg, pc, r), fate, n + 1);
      rest.(woken := (if fate(n).Dropped? then {} else Woken(s, c)) + rest.woken)
  }

  /** When every call is answered, this is the reconcile of the programs. */
  lemma {:induction false} FacedAnswered(s: Store, pc: Pc, fate: nat -> Reply, n: nat)
    requires forall k: nat :: fate(k) == Delivered
    ensures Faced(s, pc, fate, n) == Reconcile(s, pc)
    decreases Rank(pc)
  {
    hide Resume, CallOf, Serve;
    if !pc.Return? {
      var served := Serve(s, CallOf(s.cfg, pc));
      assert fate(n) == Delivered;
      FacedAnswered(served.store, Resume(s.cfg, pc, served.response), fate, n + 1);
    }
  }

  lemma FacedStep(s: Store, pc: Pc, fate: nat -> Reply, n: nat)
    requires !pc.Return?
    ensures var c := CallOf(s.cfg, pc);
            var s' := if fate(n).Dropped? then s else Serve(s, c).store;
            var r := if fate(n).Delivered? then Serve(s, c).response else Failed;
            var rest := Faced(s', Resume(s.cfg, pc, r), fate, n + 1);
            Faced(s, pc, fate, n) == rest.(woken := (if fate(n).Dropped? then {} else Woken(s, c)) + rest.woken)
  {
    hide Resume, CallOf, Serve, Woken;
  }

  /** How everything ends if these keys were woken before. */
  function WokenBefore(woken: set<Ticket>, rest: Completion): Completion {
    rest.(woken := woken + rest.woken)
  }

  /** One call moves its own wakeups from what is to come to what has been. */
  lemma EndStep(s: Store, pc: Pc, fate: nat -> Reply, n: nat, woken: set<Ticket>)
    requires !pc.Return?
    ensures var c := CallOf(s.cfg, pc);
            var s' := if fate(n).Dropped? then s else Serve(s, c).store;
            var r := if fate(n).Delivered? then Serve(s, c).response else Failed;
            var woken' := if fate(n).Dropped? then woken else woken + Woken(s, c);
            WokenBefore(woken, Faced(s, pc, fate, n)) ==
            WokenBefore(woken', Faced(s', Resume(s.cfg, pc, r), fate, n + 1))
  {
    hide Resume, CallOf, Serve, Woken, Faced;
    FacedStep(s, pc, fate, n);
    var c := CallOf(s.cfg, pc);
    var s' := if fate(n).Dropped? then s else Serve(s, c).store;
    var r := if fate(n).Delivered? then Serve(s, c).response else Failed;
    var rest := Faced(s', Resume(s.cfg, pc, r), fate, n + 1);
    assert woken + (Woken(s, c) + rest.woken) == woken + Woken(s, c) + rest.woken;
    assert {} + rest.woken == rest.woken;
  }

  lemma AnswerShape(s: Store, c: Call)
    ensures var r := Serve(s, c).response;
            (r.TheObject? && c.PutStatus? ==> r.found.status == c.status)
            && (r.TheJob? ==> !(c.CreateJob? && c.versioned))
    ensures Serve(s, c).store.cfg == s.cfg
  {
  }

  class ApiServer {
    var store: Store
    var calls: nat
    var fate: nat -> Reply
    ghost var woken: set<Ticket>

    constructor (store: Store, fate: nat -> Reply)
      ensures this.store == store && this.fate == fate && calls == 0 && woken == {}
    {
      this.store, this.fate, calls, woken := store, fate, 0, {};
    }

    /** How everything ends if the caller goes on from `pc`. */
    ghost function Ending(pc: Pc): Completion
      reads this
    {
      WokenBefore(woken, Faced(store, pc, fate, calls))
    }

    /** One call, served or not. */
    method Do(c: Call, ghost pc: Pc) returns (r: Response, ghost next: Pc)
      requires !pc.Return? && CallOf(store.cfg, pc) == c
      modifies this
      ensures store.cfg == old(store.cfg) && fate == old(fate)
      ensures next == Resume(store.cfg, pc, r) && Ending(next) == old(Ending(pc))
      ensures r.TheObject? && c.PutStatus? ==> r.found.status == c.status
      ensures r.TheJob? ==> !(c.CreateJob? && c.versioned)
    {
      hide Resume, CallOf, Serve, Woken, Faced, WokenBefore;
      EndStep(store, pc, fate, calls, woken);
      var served := Serve(store, c);
      AnswerShape(store, c);
      r := if fate(calls).Delivered? then served.response else Failed;
      next := Resume(store.cfg, pc, r);
      if !fate(calls).Dropped? {
        woken := woken + Woken(store, c);
        store := served.store;
      }
      calls := calls + 1;
    }

    /** Writes the status of the local copy; the answer overwrites the copy. */
    method UpdateStatus(d: Draft, ghost pc: Pc) returns (ok: bool, ghost next: Pc)
      requires !pc.Return? && CallOf(store.cfg, pc) == PutStatus(d.id, d.o.version, d.o.status)
      modifies this, d
      ensures store.cfg == old(store.cfg) && fate == old(fate)
      ensures Ending(next) == old(Ending(pc))
      ensures ok ==> next == Resume(store.cfg, pc, TheObject(d.o)) && d.o.status == old(d.o.status)
      ensures !ok ==> d.o == old(d.o) && exists r: Response :: !r.TheObject? && next == Resume(store.cfg, pc, r)
    {
      hide Faced, Resume, CallOf;
      var r;
      r, next := Do(PutStatus(d.id, d.o.version, d.o.status), pc);
      if r.TheObject? {
        d.o := r.found;
        return true, next;
      }
      return false, next;
    }
  }

  /** The local copy of an object. */
  class Draft {
    const id: Id
    var o: Object

    constructor (id: Id, o: Object)
      ensures this.id == id && this.o == o
    {
      this.id, this.o := id, o;
    }

    method SetReady(ready: bool)
      modifies this
      ensures o == old(o).(status := old(o).status.(ready := ready))
    {
      o := o.(status := o.status.(ready := ready));
    }

    method SetStatusCondition(kind: ConditionType, holds: bool, reason: Reason)
      modifies this
      ensures o == old(o).(status := SetCondition(old(o).status, kind, holds, reason, old(o).generation))
    {
      o := o.(status := SetCondition(o.status, kind, holds, reason, o.generation));
    }

    method SetArtifactsUrl(url: string)
      modifies this
      ensures o == old(o).(status := old(o).status.(url := url))
    {
      o := o.(status := o.status.(url := url));
    }

    method SetStatusUpload(upload: UploadStatus)
      modifies this
      ensures o == old(o).(status := old(o).status.(upload := upload))
    {
      o := o.(status := o.status.(upload := upload));
    }

    method SetImage(image: string)
      modifies this
      ensures o == old(o).(spec := old(o).spec.(image := image))
    {
      o := o.(spec := o.spec.(image := image));
    }
  }

  /******* Scans *******/

  /** The first condition that is Complete=True or Failed=True decides. */
  method ScanJob(conditions: seq<JobCondition>) returns (complete: bool, failed: bool)
    ensures complete <==>
            exists i :: 0 <= i < |conditions| && conditions[i] == JobCondition(CompleteCondition, true)
                        && forall j :: 0 <= j < i ==> conditions[j] != JobCondition(FailedCondition, true)
    ensures failed <==>
            exists i :: 0 <= i < |conditions| && conditions[i] == JobCondition(FailedCondition, true)
                        && forall j :: 0 <= j < i ==> conditions[j] != JobCondition(CompleteCondition, true)
    ensures JobVerdict(complete, failed) == JobResult(conditions)
  {
    complete, failed := false, false;
    for i := 0 to |conditions|
      invariant !complete && !failed && JobResult(conditions) == JobResult(conditions[i..])
      invariant forall j :: 0 <= j < i ==>
                  conditions[j] != JobCondition(CompleteCondition, true)
                  && conditions[j] != JobCondition(FailedCondition, true)
    {
      assert conditions[i..][0] == conditions[i] && conditions[i..][1..] == conditions[i + 1..];
      if conditions[i] == JobCondition(CompleteCondition, true) {
        complete := true;
        return;
      }
      if conditions[i] == JobCondition(FailedCondition, true) {
        failed := true;
        return;
      }
    }
  }

  /** A running Pod with some Ready condition that is True. */
  method ScanPod(pod: Pod) returns (ready: bool)
    ensures ready <==>
            pod.running && exists i :: 0 <= i < |pod.conditions|
                                       && pod.conditions[i].kind == "Ready" && pod.conditions[i].status == "True"
    ensures ready == IsPodReady(pod)
  {
    if !pod.running {
      return false;
    }
    for i := 0 to |pod.conditions|
      invariant forall j :: 0 <= j < i ==> pod.conditions[j] != PodCondition("Ready", "True")
    {
      if pod.conditions[i].kind == "Ready" {
        if pod.conditions[i].status == "True" {
          return true;
        }
      }
    }
    return false;
  }

  /******* Models and Datasets *******/

  /** The status edits that end an incomplete reconcile. */
  method Report(api: ApiServer, d: Draft, kind: ConditionType, holds: bool, reason: Reason, ghost pc: Pc)
      returns (ok: bool, ghost next: Pc)
    requires pc.Publish? && pc.id == d.id && pc.local.version == d.o.version
    requires pc.status == Mark(d.o, d.o.status, kind, holds, reason)
    modifies api, d
    ensures api.store.cfg == old(api.store.cfg)
    ensures api.Ending(next) == old(api.Ending(pc))
    ensures next == Return(if ok then pc.outcome else Retry)
  {
    hide Serve, Faced;
    d.SetReady(holds);
    d.SetStatusCondition(kind, holds, reason);
    ok, next := api.UpdateStatus(d, pc);
  }

  /** Creates the Job unless it exists, reads it back, and tells how it stands. */
  method ReconcileJob(api: ApiServer, d: Draft, ghost pc: Pc)
      returns (success: bool, failure: bool, failed: bool, ghost next: Pc)
    requires pc.RunJobCreate? && pc.id == d.id && pc.local.spec == d.o.spec
    modifies api
    ensures api.store.cfg == old(api.store.cfg) && api.Ending(next) == old(api.Ending(pc))
    ensures failed ==> !success && !failure
    ensures next ==
            if failed then Incomplete(api.store.cfg, d.id, pc.local, JobNotComplete, Retry)
            else if success then
              Publish(d.id, pc.local, CompletionStatus(api.store.cfg, d.id, pc.local, true, JobComplete), Settle)
            else Incomplete(api.store.cfg, d.id, pc.local, if failure then JobFailed else JobNotComplete, Settle)
  {
    hide ResumeNotebook, ResumeServer, ResumeBuild, Serve, Faced, BucketUrls.Print, ArtifactUrl;
    var r;
    r, next := api.Do(CreateJob(JobId(d.id, RunJob), Job(d.o.spec.image, 0, [], FromSpec), false), pc);
    if !r.TheJob? && !r.Refused? {
      return false, false, true, next;
    }
    r, next := api.Do(GetJob(JobId(d.id, RunJob)), next);
    if !r.TheJob? {
      return false, false, true, next;
    }
    success, failure := ScanJob(r.job.conditions);
    return success, failure, false, next;
  }

  /** The end shared by Models and Datasets: the verdict on the Job becomes the status. */
  method FinishJob(api: ApiServer, d: Draft, ghost pc: Pc) returns (outcome: Outcome, ghost next: Pc)
    requires pc.RunJobCreate? && pc.id == d.id
    requires d.o == pc.local.(status := WithUrl(api.store.cfg, d.id, pc.local.status))
    modifies api, d
    ensures api.Ending(next) == old(api.Ending(pc)) && next == Return(outcome)
  {
    hide ResumeCompletion, ResumeNotebook, ResumeServer, ResumeBuild, Serve, Faced, BucketUrls.Print, ArtifactUrl;
    var success, failure, failed;
    var ok;
    success, failure, failed, next := ReconcileJob(api, d, pc);
    if !success {
      var reason := if failure then JobFailed else JobNotComplete;
      ok, next := Report(api, d, Complete, false, reason, next);
      return if failed || !ok then Retry else Settle, next;
    }
    ok, next := Report(api, d, Complete, true, JobComplete, next);
    return if ok then Settle else Retry, next;
  }

  method ReconcileModel(api: ApiServer, d: Draft, ghost pc: Pc) returns (outcome: Outcome, ghost next: Pc)
    requires d.id.kind == Model && pc == ModelBegin(api.store.cfg, d.id, d.o)
    modifies api, d
    ensures api.Ending(next) == old(api.Ending(pc)) && next == Return(outcome)
  {
    hide ResumeNotebook, ResumeServer, ResumeBuild, Serve, Faced, BucketUrls.Print, ArtifactUrl;
    next := pc;
    if d.o.status.ready {
      return Settle, next;
    }
    var cfg := api.store.cfg;
    ghost var fetched := d.o;
    d.SetArtifactsUrl(BucketUrls.Print(ArtifactUrl(cfg, d.id)));

    var r, ok;
    if d.o.spec.model.Some? {
      r, next := api.Do(GetDependency(Id(Model, d.id.ns, d.o.spec.model.value)), next);
      if r.Absent? {
        ok, next := Report(api, d, Complete, false, BaseModelNotFound, next);
        return if ok then Settle else Retry, next;
      }
      if !r.TheDependency? {
        return Retry, next;
      }
      if !r.ready {
        ok, next := Report(api, d, Complete, false, BaseModelNotReady, next);
        return if ok then Settle else Retry, next;
      }
    }
    assert next == ModelDataset(cfg, d.id, fetched);
    if d.o.spec.dataset.Some? {
      r, next := api.Do(GetDependency(Id(Dataset, d.id.ns, d.o.spec.dataset.value)), next);
      if r.Absent? {
        ok, next := Report(api, d, Complete, false, Reason.DatasetNotFound, next);
        return if ok then Settle else Retry, next;
      }
      if !r.TheDependency? {
        return Retry, next;
      }
      if !r.ready {
        ok, next := Report(api, d, Complete, false, Reason.DatasetNotReady, next);
        return if ok then Settle else Retry, next;
      }
    }
    assert next == ModelJob(cfg, d.id, fetched);
    if !Constructible(cfg, d.o.spec) {
      return Settle, next;
    }
    outcome, next := FinishJob(api, d, next);
  }

  method ReconcileData(api: ApiServer, d: Draft, ghost pc: Pc) returns (outcome: Outcome, ghost next: Pc)
    requires d.id.kind == Dataset && pc == DatasetBegin(api.store.cfg, d.id, d.o)
    modifies api, d
    ensures api.Ending(next) == old(api.Ending(pc)) && next == Return(outcome)
  {
    hide ResumeNotebook, ResumeServer, ResumeBuild, Serve, Faced, BucketUrls.Print, ArtifactUrl;
    next := pc;
    if d.o.status.ready {
      return Settle, next;
    }
    var cfg := api.store.cfg;
    d.SetArtifactsUrl(BucketUrls.Print(ArtifactUrl(cfg, d.id)));
    if !Constructible(cfg, d.o.spec) {
      return Settle, next;
    }
    var ok;
    ok, next := api.UpdateStatus(d, next);
    if !ok {
      return Retry, next;
    }
    assert next == RunJobCreate(d.id, d.o);
    outcome, next := FinishJob(api, d, next);
  }

  /******* Notebooks *******/

  /** A suspended Notebook says so in its status and then loses its Pod, if it has one. */
  method SuspendNotebook(api: ApiServer, d: Draft, ghost pc: Pc) returns (outcome: Outcome, ghost next: Pc)
    requires pc == SuspendPut(d.id, d.o)
    modifies api, d
    ensures api.Ending(next) == old(api.Ending(pc)) && next == Return(outcome)
  {
    hide ResumeCompletion, ResumeServer, ResumeBuild, Serve, Faced;
    var r, ok;
    d.SetReady(false);
    d.SetStatusCondition(Serving, false, Suspended);
    ok, next := api.UpdateStatus(d, pc);
    if !ok {
      return Retry, next;
    }
    r, next := api.Do(DeletePod(d.id), next);
    return if r.Accepted? || r.Absent? then Settle else Retry, next;
  }

  method ReconcileNotebook(api: ApiServer, d: Draft, ghost pc: Pc) returns (outcome: Outcome, ghost next: Pc)
    requires d.id.kind == Notebook && pc == NotebookBegin(api.store.cfg, d.id, d.o)
    modifies api, d
    ensures api.Ending(next) == old(api.Ending(pc)) && next == Return(outcome)
  {
    hide ResumeCompletion, ResumeServer, ResumeBuild, Serve, Faced, BucketUrls.Print, ArtifactUrl, NotebookTemplate;
    hide MountUrl;
    next := pc;
    var cfg := api.store.cfg;
    var r, ok;
    if d.o.spec.suspend {
      outcome, next := SuspendNotebook(api, d, next);
      return;
    }

    var model: Option<string> := None;
    if d.o.spec.model.Some? && d.o.spec.model.value != "" {
      r, next := api.Do(GetDependency(Id(Model, d.id.ns, d.o.spec.model.value)), next);
      if r.Absent? {
        ok, next := Report(api, d, Serving, false, ModelNotFound, next);
        return if ok then Settle else Retry, next;
      }
      if !r.TheDependency? {
        return Retry, next;
      }
      if !r.ready {
        ok, next := Report(api, d, Serving, false, ModelNotReady, next);
        return if ok then Settle else Retry, next;
      }
      model := Some(r.url);
    }
    assert next == NotebookDataset(cfg, d.id, d.o, model);
    var dataset: Option<string> := None;
    if d.o.spec.dataset.Some? && d.o.spec.dataset.value != "" {
      r, next := api.Do(GetDependency(Id(Dataset, d.id.ns, d.o.spec.dataset.value)), next);
      if r.Absent? {
        ok, next := Report(api, d, Serving, false, Reason.DatasetNotFound, next);
        return if ok then Settle else Retry, next;
      }
      if !r.TheDependency? {
        return Retry, next;
      }
      if !r.ready {
        ok, next := Report(api, d, Serving, false, Reason.DatasetNotReady, next);
        return if ok then Settle else Retry, next;
      }
      dataset := Some(r.url);
    }
    assert next == NotebookPod(cfg, d.id, d.o, model, dataset);
    outcome, next := RunNotebookPod(api, d, model, dataset, next);
  }

  /** Applies the Pod, deletes it if an immutable field would change, and reports whether it is ready. */
  method RunNotebookPod(api: ApiServer, d: Draft, model: Option<string>, dataset: Option<string>, ghost pc: Pc)
      returns (outcome: Outcome, ghost next: Pc)
    requires pc == NotebookPod(api.store.cfg, d.id, d.o, model, dataset)
    modifies api, d
    ensures api.Ending(next) == old(api.Ending(pc)) && next == Return(outcome)
  {
    hide ResumeCompletion, ResumeServer, ResumeBuild, Serve, Faced, BucketUrls.Print, ArtifactUrl, NotebookTemplate;
    hide MountUrl, IsPodReady;
    next := pc;
    var cfg := api.store.cfg;
    if !Constructible(cfg, d.o.spec) {
      return Retry, next;
    }
    var r, ok;
    r, next := api.Do(ApplyPod(d.id, NotebookTemplate(cfg, d.id, d.o, model, dataset)), next);
    if !r.ThePod? {
      if r.Refused? {
        r, next := api.Do(DeletePod(d.id), next);
        return if r.Accepted? then Settle else Retry, next;
      }
      return Retry, next;
    }
    var pod := r.pod;
    r, next := api.Do(GetPod(d.id), next);
    if !r.ThePod? && !r.Absent? {
      return Retry, next;
    }
    if r.ThePod? {
      pod := r.pod;
    }
    var ready := ScanPod(pod);
    ok, next := Report(api, d, Serving, ready, if ready then PodReady else PodNotReady, next);
    return if ok then Settle else Retry, next;
  }

  /******* Servers *******/

  method ReconcileServer(api: ApiServer, d: Draft, ghost pc: Pc) returns (outcome: Outcome, ghost next: Pc)
    requires d.id.kind == Server && pc == ServerModelGet(d.id, d.o, ModelRef(d.id, d.o.spec).value)
    modifies api, d
    ensures api.Ending(next) == old(api.Ending(pc)) && next == Return(outcome)
  {
    hide ResumeCompletion, ResumeNotebook, ResumeBuild, Serve, Faced, BucketUrls.Print, ArtifactUrl, ServerTemplate;
    hide MountUrl;
    next := pc;
    var cfg := api.store.cfg;
    var r, ok;
    var name := if d.o.spec.model.Some? then d.o.spec.model.value else "";
    r, next := api.Do(GetDependency(Id(Model, d.id.ns, name)), next);
    if r.Absent? {
      ok, next := Report(api, d, Serving, false, ModelNotFound, next);
      return if ok then Settle else Retry, next;
    }
    if !r.TheDependency? {
      return Retry, next;
    }
    if !r.ready {
      ok, next := Report(api, d, Serving, false, ModelNotReady, next);
      return if ok then Settle else Retry, next;
    }
    outcome, next := RunServer(api, d, r.url, next);
  }

  /** Applies Service and Deployment and reports whether there are ready replicas. */
  method RunServer(api: ApiServer, d: Draft, model: string, ghost pc: Pc) returns (outcome: Outcome, ghost next: Pc)
    requires pc == ServiceApply(d.id, d.o, model)
    modifies api, d
    ensures api.Ending(next) == old(api.Ending(pc)) && next == Return(outcome)
  {
    hide ResumeCompletion, ResumeNotebook, ResumeBuild, Serve, Faced, ServerTemplate, Constructible;
    next := pc;
    var cfg := api.store.cfg;
    var r, ok;
    r, next := api.Do(ApplyService(d.id), next);
    if !r.Accepted? {
      return Retry, next;
    }
    if !Constructible(cfg, d.o.spec) {
      return Retry, next;
    }
    r, next := api.Do(ApplyDeployment(d.id, ServerTemplate(d.o, model)), next);
    if !r.Accepted? {
      return Retry, next;
    }
    r, next := api.Do(GetDeployment(d.id), next);
    if !r.TheDeployment? {
      return Retry, next;
    }
    if r.readyReplicas == 0 {
      ok, next := Report(api, d, Serving, false, DeploymentNotReady, next);
    } else {
      ok, next := Report(api, d, Serving, true, DeploymentReady, next);
    }
    return if ok then Settle else Retry, next;
  }

  /******* The four resource controllers *******/

  /** Whatever happens to its calls, reconciling a key ends exactly as the program of the key says: same store, same
      keys woken, same outcome. */
  method Run(api: ApiServer, id: Id) returns (outcome: Outcome)
    modifies api
    ensures Completion(api.store, api.woken, outcome) == old(api.Ending(RunnerGet(id)))
  {
    hide ResumeCompletion, ResumeNotebook, ResumeServer, ResumeBuild, Serve, Faced, BucketUrls.Print, ArtifactUrl;
    hide ModelBegin, DatasetBegin, NotebookBegin;
    var cfg := api.store.cfg;
    ghost var next;
    var r;
    r, next := api.Do(GetObject(id), RunnerGet(id));
    if !r.TheObject? {
      outcome := if r.Absent? then Settle else Retry;
      Ended(api, outcome);
      return;
    }
    var d := new Draft(id, r.found);
    if d.o.spec.image == "" {
      Ended(api, Settle);
      return Settle;
    }
    match id.kind {
      case Model => outcome, next := ReconcileModel(api, d, next);
      case Dataset => outcome, next := ReconcileData(api, d, next);
      case Notebook => outcome, next := ReconcileNotebook(api, d, next);
      case Server => outcome, next := ReconcileServer(api, d, next);
    }
    Ended(api, outcome);
  }

  lemma Ended(api: ApiServer, outcome: Outcome)
    ensures api.Ending(Return(outcome)) == Completion(api.store, api.woken, outcome)
  {
  }

  /******* Builds *******/

  /** A new request: records a checksum that the bucket already holds, or signs a URL and waits for the client. */
  method AnswerRequest(api: ApiServer, d: Draft, upload: Upload, ghost pc: Pc)
      returns (success: bool, outcome: Outcome, ghost next: Pc)
    requires pc == NewUploadCheck(d.id, d.o, upload)
    modifies api, d
    ensures api.store.cfg == old(api.store.cfg) && api.Ending(next) == old(api.Ending(pc))
    ensures next == if success then BuildJobGet(d.id, d.o, FromUpload(upload.md5)) else Return(outcome)
  {
    hide ResumeCompletion, ResumeNotebook, ResumeServer, Serve, Faced;
    var r, ok;
    r, next := api.Do(ReadChecksum(d.id), pc);
    // An unreadable checksum counts as none.
    var existing := if r.TheChecksum? then r.md5 else "";
    if existing == upload.md5 {
      d.SetStatusUpload(UploadStatus(None, "", upload.md5));
      d.SetStatusCondition(Uploaded, true, UploadFound);
      ok, next := api.UpdateStatus(d, next);
      return ok, Retry, next;
    }
    r, next := api.Do(SignUrl(d.id, SignedUrl(d.id, upload.md5, d.o.version)), next);
    if !r.TheUrl? {
      return false, Retry, next;
    }
    d.SetStatusUpload(UploadStatus(Some(r.signed), upload.request, ""));
    d.SetStatusCondition(Uploaded, false, AwaitingUpload);
    ok, next := api.UpdateStatus(d, next);
    return false, if ok then Settle else Retry, next;
  }

  /** A known request: records the checksum once the bucket holds it. */
  method VerifyUpload(api: ApiServer, d: Draft, upload: Upload, ghost pc: Pc)
      returns (success: bool, outcome: Outcome, ghost next: Pc)
    requires pc == KnownUploadCheck(d.id, d.o, upload)
    modifies api, d
    ensures api.store.cfg == old(api.store.cfg) && api.Ending(next) == old(api.Ending(pc))
    ensures next == if success then BuildJobGet(d.id, d.o, FromUpload(upload.md5)) else Return(outcome)
  {
    hide ResumeCompletion, ResumeNotebook, ResumeServer, Serve, Faced;
    var r, ok;
    r, next := api.Do(ReadChecksum(d.id), pc);
    if !r.TheChecksum? {
      return false, Retry, next;
    }
    if r.md5 != upload.md5 {
      return false, Settle, next;
    }
    d.SetStatusUpload(UploadStatus(None, upload.request, r.md5));
    d.SetStatusCondition(Uploaded, true, UploadFound);
    ok, next := api.UpdateStatus(d, next);
    return ok, Retry, next;
  }

  /** Only an upload whose checksum is recorded goes on to the build Job. */
  method ReconcileUploadFile(api: ApiServer, d: Draft, upload: Upload, ghost pc: Pc)
      returns (success: bool, outcome: Outcome, ghost next: Pc)
    requires pc == if upload.request != d.o.status.upload.request then NewUploadCheck(d.id, d.o, upload)
                   else KnownUploadCheck(d.id, d.o, upload)
    modifies api, d
    ensures api.store.cfg == old(api.store.cfg) && api.Ending(next) == old(api.Ending(pc))
    ensures next == if success then BuildJobGet(d.id, d.o, FromUpload(upload.md5)) else Return(outcome)
  {
    if upload.request != d.o.status.upload.request {
      success, outcome, next := AnswerRequest(api, d, upload, pc);
    } else {
      success, outcome, next := VerifyUpload(api, d, upload, pc);
    }
  }

  /** The Job half of a build: create it, replace it if it is out of date, wait for it, or write the image back. */
  method ReconcileBuildJob(api: ApiServer, d: Draft, origin: Origin, ghost pc: Pc)
      returns (outcome: Outcome, ghost next: Pc)
    requires pc == BuildJobGet(d.id, d.o, origin)
    modifies api, d
    ensures api.Ending(next) == old(api.Ending(pc)) && next == Return(outcome)
  {
    hide ResumeCompletion, ResumeNotebook, ResumeServer, Serve, Faced, ImageUrl, DesiredImage;
    hide NewUploadSeen, KnownUploadSeen, AwaitingUploadStatus;
    next := pc;
    var cfg := api.store.cfg;
    var image := DesiredImage(cfg, d.id, d.o.spec);
    var r, ok;
    var job: Job;
    r, next := api.Do(GetJob(JobId(d.id, BuildJob)), next);
    if r.TheJob? {
      job := r.job;
    } else if r.Absent? {
      job := Job(image, 0, [], origin);
      r, next := api.Do(CreateJob(JobId(d.id, BuildJob), job, false), next);
      if !r.TheJob? && !r.Refused? {
        return Retry, next;
      }
    } else {
      return Retry, next;
    }

    if job.image != image {
      // Out of date, recreate: what is created is the Job as it was fetched, version and all.
      r, next := api.Do(DeleteJob(JobId(d.id, BuildJob)), next);
      if !r.Accepted? && !r.Absent? {
        return Retry, next;
      }
      r, next := api.Do(CreateJob(JobId(d.id, BuildJob), job, true), next);
      if !r.TheJob? {
        return Retry, next;
      }
    }

    if job.succeeded < 1 {
      ok, next := Report(api, d, Built, false, JobNotComplete, next);
      return if ok then Settle else Retry, next;
    }

    outcome, next := WriteImage(api, d, job, next);
  }

  /** The image first, then the condition: two writes to two halves of the object. */
  method WriteImage(api: ApiServer, d: Draft, ghost job: Job, ghost pc: Pc) returns (outcome: Outcome, ghost next: Pc)
    requires pc == ImagePut(d.id, d.o, job)
    modifies api, d
    ensures api.Ending(next) == old(api.Ending(pc)) && next == Return(outcome)
  {
    hide ResumeCompletion, ResumeNotebook, ResumeServer, Serve, Faced, ImageUrl;
    var r, ok;
    d.SetImage(DesiredImage(api.store.cfg, d.id, d.o.spec));
    r, next := api.Do(PutSpec(d.id, d.o.version, d.o.spec), pc);
    if !r.TheObject? {
      return Retry, next;
    }
    d.o := r.found;
    d.SetStatusCondition(Built, true, JobComplete);
    ok, next := api.UpdateStatus(d, next);
    return if ok then Settle else Retry, next;
  }

  /** The build controller of any kind. Upload is preferred to Git; with neither, the Job that is then looked at is
      nil. */
  method RunBuild(api: ApiServer, id: Id) returns (outcome: Outcome)
    modifies api
    ensures Completion(api.store, api.woken, outcome) == old(api.Ending(BuilderGet(id)))
  {
    hide ResumeCompletion, ResumeNotebook, ResumeServer, ResumeBuild, Serve, Faced, ImageUrl;
    var cfg := api.store.cfg;
    ghost var next;
    var r;
    r, next := api.Do(GetObject(id), BuilderGet(id));
    if !r.TheObject? {
      outcome := if r.Absent? then Settle else Retry;
      Ended(api, outcome);
      return;
    }
    var d := new Draft(id, r.found);
    if d.o.spec.build.None? || d.o.spec.image == ImageUrl(cfg, id, d.o.spec.build.value) {
      Ended(api, Settle);
      return Settle;
    }
    var build := d.o.spec.build.value;
    if build.upload.Some? {
      var success;
      success, outcome, next := ReconcileUploadFile(api, d, build.upload.value, next);
      if success {
        outcome, next := ReconcileBuildJob(api, d, FromUpload(build.upload.value.md5), next);
      }
    } else if build.git.Some? {
      outcome, next := ReconcileBuildJob(api, d, FromGit, next);
    } else {
      outcome := Crash;
    }
    Ended(api, outcome);
  }

  /******* Mapping functions *******/

  /** One loop for the five mapping functions: given what the index lists for the name of the changed object in its
      namespace, exactly the keys of the objects whose indexed field names it are enqueued; if the listing fails,
      none. */
  method FindDependents(s: Store, kind: Kind, field: IndexField, of: Id, items: Option<seq<Id>>)
      returns (keys: seq<Ticket>)
    requires items.Some? ==> forall d :: d in items.value <==> d in Lookup(s, kind, field, of)
    ensures |keys| == if items.Some? then |items.value| else 0
    ensures forall t :: t in keys <==> items.Some? && t.controller == Runner && t.id in Lookup(s, kind, field, of)
  {
    hide Lookup;
    keys := [];
    if items.None? {
      return;
    }
    for i := 0 to |items.value|
      invariant |keys| == i && forall j :: 0 <= j < i ==> keys[j] == Ticket(Runner, items.value[j])
    {
      keys := keys + [Ticket(Runner, items.value[i])];
    }
    forall t ensures t in keys <==> t.controller == Runner && t.id in items.value {
      if t.controller == Runner && t.id in items.value {
        var i :| 0 <= i < |items.value| && items.value[i] == t.id;
        assert keys[i] == t;
      }
    }
  }
}
