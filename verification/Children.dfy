/** What the children of an object contain once nothing is left to do, and where their URLs come from. */
module Children {
  import opened Basics
  import opened Identity
  import opened Cluster
  import opened Programs
  import opened Network
  import opened Wakeups
  import opened Quiescence
  import Artifacts
  import BucketUrls

  /** The URL persisted for an object, or the computed one if none is. */
  predicate MountedFrom(cfg: Config, id: Id, st: Status, url: string) {
    if st.url != "" then url == st.url else url == BucketUrls.Print(ArtifactUrl(cfg, id))
  }

  /** The named object of this kind in the namespace of `id` is there, and this is where it is mounted from. */
  predicate RefersTo(s: Store, id: Id, kind: Kind, name: string, url: Option<string>) {
    var ref := Id(kind, id.ns, name);
    ref in s.objects && url.Some? && MountedFrom(s.cfg, ref, s.objects[ref].status, url.value)
  }

  /** A name that is missing or empty refers to nothing. */
  predicate Optionally(s: Store, id: Id, kind: Kind, name: Option<string>, url: Option<string>) {
    if name.Some? && name.value != "" then RefersTo(s, id, kind, name.value, url) else url.None?
  }

  /** Once a Notebook is at rest, not suspended and all it names is Ready, its Pod has the image, command and GPU of the
      spec, and mounts the named Model as the model, the named Dataset as the dataset and the Notebook's own
      artifacts. */
  lemma NotebookPodAtRest(s: Store, id: Id)
    requires id.kind == Notebook && id in s.objects && s.objects[id].spec.image != "" && !s.objects[id].spec.suspend
    requires Quiet(s, Start(Ticket(Runner, id)))
    requires ReadyThere(s, ModelRef(id, s.objects[id].spec)) && ReadyThere(s, DatasetRef(id, s.objects[id].spec))
    ensures id in s.pods
            && var o, pod := s.objects[id], s.pods[id].template;
               pod.image == o.spec.image && pod.fixed.command == o.spec.command && pod.fixed.gpu == o.spec.gpu
               && MountedFrom(s.cfg, id, o.status, pod.fixed.own)
               && Optionally(s, id, Model, o.spec.model, pod.fixed.model)
               && Optionally(s, id, Dataset, o.spec.dataset, pod.fixed.dataset)
  {
    hide Quiet, BucketUrls.Print, ArtifactUrl, IsPodReady;
    NotebookAtRest(s, id);
  }

  /** The same for a Server: its Deployment runs the image and command of the spec and mounts the named Model only. */
  lemma DeploymentAtRest(s: Store, id: Id)
    requires id.kind == Server && id in s.objects && s.objects[id].spec.image != ""
    requires Quiet(s, Start(Ticket(Runner, id))) && ReadyThere(s, ModelRef(id, s.objects[id].spec))
    ensures id in s.services && id in s.deployments
            && var o, pod := s.objects[id], s.deployments[id].template;
               pod.image == o.spec.image && pod.fixed.command == o.spec.command && pod.fixed.gpu == o.spec.gpu
               && RefersTo(s, id, Model, if o.spec.model.Some? then o.spec.model.value else "", pod.fixed.model)
               && pod.fixed.dataset.None? && pod.fixed.own == ""
  {
    hide Quiet, BucketUrls.Print, ArtifactUrl;
    ServerAtRest(s, id);
  }

  /** After any run, the Pod of an idle Notebook that waits for nothing mounts the computed artifact URLs. */
  lemma IdleNotebookPod(cfg: Config, steps: seq<Step>, id: Id)
    requires Legal(Initial(cfg), steps) && id.kind == Notebook
    requires var w := Execute(Initial(cfg), steps);
             Ticket(Runner, id) !in w.dirty && Ticket(Runner, id) !in w.active && id in w.store.objects
             && var spec := w.store.objects[id].spec;
                spec.image != "" && !spec.suspend
                && ReadyThere(w.store, ModelRef(id, spec)) && ReadyThere(w.store, DatasetRef(id, spec))
    ensures var s := Execute(Initial(cfg), steps).store;
            id in s.pods
            && var spec, pod := s.objects[id].spec, s.pods[id].template;
               pod.image == spec.image && pod.fixed.command == spec.command && pod.fixed.gpu == spec.gpu
               && pod.fixed.own == BucketUrls.Print(ArtifactUrl(cfg, id))
               && pod.fixed.model == ArtifactsOf(cfg, id, Model, spec.model)
               && pod.fixed.dataset == ArtifactsOf(cfg, id, Dataset, spec.dataset)
  {
    hide Quiet, BucketUrls.Print, ArtifactUrl, Legal, Execute, MountUrl;
    var s := Execute(Initial(cfg), steps).store;
    NoLostWakeups(cfg, steps, Ticket(Runner, id));
    NotebookPodAtRest(s, id);
    forall other | other in s.objects
      ensures s.cfg == cfg && s.objects[other].status.url in {"", BucketUrls.Print(ArtifactUrl(cfg, other))}
    {
      PersistedUrl(cfg, steps, other);
    }
    PersistedUrl(cfg, steps, id);
  }

  /** The same of an idle Server whose Model is Ready. */
  lemma IdleServerPods(cfg: Config, steps: seq<Step>, id: Id)
    requires Legal(Initial(cfg), steps) && id.kind == Server
    requires var w := Execute(Initial(cfg), steps);
             Ticket(Runner, id) !in w.dirty && Ticket(Runner, id) !in w.active && id in w.store.objects
             && w.store.objects[id].spec.image != "" && ReadyThere(w.store, ModelRef(id, w.store.objects[id].spec))
    ensures var s := Execute(Initial(cfg), steps).store;
            id in s.services && id in s.deployments
            && var spec, pod := s.objects[id].spec, s.deployments[id].template;
               var model := Id(Model, id.ns, if spec.model.Some? then spec.model.value else "");
               pod.image == spec.image && pod.fixed.command == spec.command && pod.fixed.gpu == spec.gpu
               && pod.fixed.model == Some(BucketUrls.Print(ArtifactUrl(cfg, model)))
  {
    hide Quiet, BucketUrls.Print, ArtifactUrl, Legal, Execute, MountUrl;
    var s := Execute(Initial(cfg), steps).store;
    NoLostWakeups(cfg, steps, Ticket(Runner, id));
    DeploymentAtRest(s, id);
    PersistedUrl(cfg, steps, ModelRef(id, s.objects[id].spec).value);
  }

  /** The printed artifact URL of a named object, if it is named. */
  function ArtifactsOf(cfg: Config, id: Id, kind: Kind, name: Option<string>): Option<string> {
    if name.Some? && name.value != "" then Some(BucketUrls.Print(ArtifactUrl(cfg, Id(kind, id.ns, name.value))))
    else None
  }

  lemma PersistedUrl(cfg: Config, steps: seq<Step>, id: Id)
    requires Legal(Initial(cfg), steps) && id in Execute(Initial(cfg), steps).store.objects
    ensures var s := Execute(Initial(cfg), steps).store;
            s.cfg == cfg && s.objects[id].status.url in {"", BucketUrls.Print(ArtifactUrl(cfg, id))}
  {
    hide BucketUrls.Print, ArtifactUrl, Legal, Execute;
    Artifacts.RunUrls(Initial(cfg), steps);
  }
}
