/** All controllers, users, uploading clients and the rest of the cluster as one transition system.
    Every API call of every reconcile in flight is a step of its own, so anything can happen between two of them. */
module Network {
  import opened Basics
  import opened Identity
  import opened Cluster
  import opened Programs

  /** What a client holding a tarball does next. */
  datatype Phase =
    | Waiting
    | Holding(url: SignedUrl, seen: Upload)
    | Stored
    | Done
    | Skipped
    | Aborted

  datatype Client = Client(id: Id, md5: string, request: string, phase: Phase)

  /** Things that have happened; no step reads them except a client that watches old versions. */
  datatype Fact =
    | Version(id: Id, local: Object)
    | Reported(id: Id, md5: string)
    | Saw(jobId: JobId, job: Job)

  datatype World = World(
    store: Store,
    dirty: set<Ticket>,
    active: map<Ticket, Pc>,
    owed: set<Id>,
    clients: map<nat, Client>,
    now: nat,
    readyAt: map<Id, nat>,
    past: set<Fact>)

  /** The fate of one API call: answered, never executed, or executed with its answer lost. */
  datatype Reply = Delivered | Dropped | Lost

  datatype Step =
    // controllers
    | Take(ticket: Ticket)
    | Act(ticket: Ticket, reply: Reply)
    | Finish(ticket: Ticket)
    | Restart
    // users
    | Create(id: Id, spec: Spec)
    | Edit(id: Id, spec: Spec)
    | Remove(id: Id)
    // Jobs, Pods and Deployments
    | JobMoves(job: JobId, succeeded: nat, jobConditions: seq<JobCondition>)
    | JobGone(job: JobId)
    | PodMoves(id: Id, running: bool, podConditions: seq<PodCondition>)
    | PodGone(id: Id)
    | DeploymentMoves(id: Id, readyReplicas: nat)
    | DeploymentGone(id: Id)
    | ServiceGone(id: Id)
    // clients
    | Join(client: nat, id: Id, md5: string, request: string)
    | Sees(client: nat, version: Object)
    | Puts(client: nat)
    | Pokes(client: nat, stamp: string)

  function Initial(cfg: Config): World {
    World(Store(cfg, 0, map[], map[], map[], {}, map[], map[]), {}, map[], {}, map[], 0, map[], {})
  }

  /** What the object schema enforces: an upload names a 32 character checksum. */
  predicate SchemaOk(spec: Spec) {
    spec.build.Some? && spec.build.value.upload.Some? ==> |spec.build.value.upload.value.md5| == 32
  }

  predicate Enabled(w: World, step: Step) {
    match step
    case Take(t) => t in w.dirty && t !in w.active
    case Act(t, _) => t in w.active && !w.active[t].Return?
    case Finish(t) => t in w.active && w.active[t].Return?
    case Restart => true
    case Create(id, spec) => id !in w.store.objects && SchemaOk(spec)
    case Edit(id, spec) => id in w.store.objects && SchemaOk(spec)
    case Remove(id) => id in w.store.objects
    case JobMoves(job, _, _) => job in w.store.jobs
    case JobGone(job) => job in w.store.jobs
    case PodMoves(id, _, _) => id in w.store.pods
    case PodGone(id) => id in w.store.pods
    case DeploymentMoves(id, _) => id in w.store.deployments
    case DeploymentGone(id) => id in w.store.deployments
    case ServiceGone(id) => id in w.store.services
    case Join(c, _, md5, _) => c !in w.clients && |md5| == 32
    case Sees(c, o) => c in w.clients && w.clients[c].phase == Waiting && Version(w.clients[c].id, o) in w.past
    case Puts(c) => c in w.clients && w.clients[c].phase.Holding?
    case Pokes(c, _) => c in w.clients && w.clients[c].phase == Stored
  }

  /** Bookkeeping for a change of `r` that led to store `s`: wake the watchers, remember what is new. */
  function Changed(w: World, s: Store, r: Ref): World {
    var w' := w.(store := s, dirty := w.dirty + Wake(s, r), now := w.now + 1);
    if r.ObjectRef? && r.id in s.objects then
      var o := s.objects[r.id];
      w'.(past := w.past + {Version(r.id, o)},
          readyAt := if o.status.ready && r.id !in w.readyAt then w.readyAt[r.id := w.now + 1] else w.readyAt)
    else w'
  }

  function AllTickets(s: Store): set<Ticket> {
    (set id | id in s.objects :: Ticket(Runner, id)) + (set id | id in s.objects :: Ticket(Builder, id))
  }

  /** After a restart the informers list everything that exists. */
  function Restarted(w: World): World {
    w.(dirty := AllTickets(w.store), active := map[], now := w.now + 1)
  }

  function Observed(c: Call, r: Response): set<Fact> {
    match (c, r)
    case (ReadChecksum(id), TheChecksum(md5)) => {Reported(id, md5)}
    case (GetJob(jobId), TheJob(job)) => {Saw(jobId, job)}
    case _ => {}
  }

  /** The world after the effect of a call, before the caller resumes. */
  function AfterCall(w: World, c: Call, dropped: bool): World {
    var served := Serve(w.store, c);
    if dropped || !served.loud then w.(now := w.now + 1) else Changed(w, served.store, Target(c))
  }

  function Answer(w: World, c: Call, reply: Reply): Response {
    if reply.Delivered? then Serve(w.store, c).response else Failed
  }

  function ApplyAct(w: World, t: Ticket, reply: Reply): World
    requires Enabled(w, Act(t, reply))
  {
    var c := CallOf(w.store.cfg, w.active[t]);
    var r := Answer(w, c, reply);
    var w1 := AfterCall(w, c, reply.Dropped?);
    w1.(active := w1.active[t := Resume(w.store.cfg, w.active[t], r)], past := w1.past + Observed(c, r))
  }

  function ApplyFinish(w: World, t: Ticket): World
    requires Enabled(w, Finish(t))
  {
    match w.active[t].outcome
    case Settle => w.(active := w.active - {t}, now := w.now + 1)
    case Retry => w.(active := w.active - {t}, dirty := w.dirty + {t}, now := w.now + 1)
    case Crash => Restarted(w)
  }

  /** How the upload loop reacts to one watch event. */
  function Reaction(c: Client, o: Object): Phase {
    if o.spec.build.None? then Aborted
    else if o.status.upload.stored == c.md5 then Skipped
    else if o.status.upload.url.None? then Waiting
    else if o.spec.build.value.upload.None? then Aborted
    else if o.status.upload.request == o.spec.build.value.upload.value.request then
      Holding(o.status.upload.url.value, o.spec.build.value.upload.value)
    else Waiting
  }

  function Moved(w: World, c: nat, phase: Phase): World
    requires c in w.clients
  {
    w.(clients := w.clients[c := w.clients[c].(phase := phase)], now := w.now + 1)
  }

  function ApplyPut(w: World, c: nat): World
    requires Enabled(w, Puts(c))
  {
    var client := w.clients[c];
    var target := client.phase.url.target;
    Moved(w, c, Stored).(store := w.store.(blobs := w.store.blobs[target := client.md5]), owed := w.owed + {target})
  }

  /** The annotation patch is an event only if the timestamp text differs from the one already there. */
  function ApplyPoke(w: World, c: nat, stamp: string): World
    requires Enabled(w, Pokes(c, stamp))
  {
    var id := w.clients[c].id;
    var w1 := Moved(w, c, Done);
    if id !in w.store.objects || w.store.objects[id].stamp == stamp then w1
    else
      var o := w.store.objects[id];
      var w2 := Changed(w1, Revise(w.store, id, o.spec, o.status, stamp), ObjectRef(id));
      w2.(owed := w2.owed - {id})
  }

  predicate UserStep(step: Step) {
    step.Create? || step.Edit? || step.Remove?
  }

  predicate ChildStep(step: Step) {
    step.JobMoves? || step.JobGone? || step.PodMoves? || step.PodGone?
    || step.DeploymentMoves? || step.DeploymentGone? || step.ServiceGone?
  }

  function ApplyUser(w: World, step: Step): World
    requires Enabled(w, step) && UserStep(step)
  {
    var s := w.store;
    match step
    case Create(id, spec) =>
      var o := Object(s.clock + 1, 1, "", spec, NEW_STATUS);
      Changed(w, s.(clock := s.clock + 1, objects := s.objects[id := o]), ObjectRef(id))
    case Edit(id, spec) =>
      var o := s.objects[id];
      if spec == o.spec then w else Changed(w, Revise(s, id, spec, o.status, o.stamp), ObjectRef(id))
    case Remove(id) => Changed(w, s.(objects := s.objects - {id}), ObjectRef(id))
  }

  function ChildRef(step: Step): Ref
    requires ChildStep(step)
  {
    match step
    case JobMoves(job, _, _) => JobRef(job)
    case JobGone(job) => JobRef(job)
    case PodMoves(id, _, _) => PodRef(id)
    case PodGone(id) => PodRef(id)
    case DeploymentMoves(id, _) => DeploymentRef(id)
    case DeploymentGone(id) => DeploymentRef(id)
    case ServiceGone(id) => ServiceRef(id)
  }

  function ChildStore(w: World, step: Step): Store
    requires Enabled(w, step) && ChildStep(step)
  {
    var s := w.store;
    match step
    case JobMoves(job, succeeded, conditions) =>
      s.(jobs := s.jobs[job := s.jobs[job].(succeeded := succeeded, conditions := conditions)])
    case JobGone(job) => s.(jobs := s.jobs - {job})
    case PodMoves(id, running, conditions) =>
      s.(pods := s.pods[id := s.pods[id].(running := running, conditions := conditions)])
    case PodGone(id) => s.(pods := s.pods - {id})
    case DeploymentMoves(id, readyReplicas) =>
      s.(deployments := s.deployments[id := s.deployments[id].(readyReplicas := readyReplicas)])
    case DeploymentGone(id) => s.(deployments := s.deployments - {id})
    case ServiceGone(id) => s.(services := s.services - {id})
  }

  function Apply(w: World, step: Step): World
    requires Enabled(w, step)
  {
    if UserStep(step) then ApplyUser(w, step)
    else if ChildStep(step) then Changed(w, ChildStore(w, step), ChildRef(step))
    else
      match step
      case Take(t) => w.(dirty := w.dirty - {t}, active := w.active[t := Start(t)], now := w.now + 1)
      case Act(t, reply) => ApplyAct(w, t, reply)
      case Finish(t) => ApplyFinish(w, t)
      case Restart => Restarted(w)
      case Join(c, id, md5, request) =>
        w.(clients := w.clients[c := Client(id, md5, request, Waiting)], now := w.now + 1)
      case Sees(c, o) => Moved(w, c, Reaction(w.clients[c], o))
      case Puts(c) => ApplyPut(w, c)
      case Pokes(c, stamp) => ApplyPoke(w, c, stamp)
  }

  /******* Runs *******/

  ghost predicate Legal(w: World, steps: seq<Step>)
    decreases |steps|
  {
    steps != [] ==> Enabled(w, steps[0]) && Legal(Apply(w, steps[0]), steps[1..])
  }

  ghost function Execute(w: World, steps: seq<Step>): World
    requires Legal(w, steps)
    decreases |steps|
  {
    if steps == [] then w else Execute(Apply(w, steps[0]), steps[1..])
  }
}
