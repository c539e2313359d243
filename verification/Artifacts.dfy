/** Artifact URLs: what is persisted in a status is what would be computed, in every reachable state, and a reader
    mounts where the producer wrote. */
module Artifacts {
  import opened Basics
  import opened Identity
  import opened Cluster
  import opened Programs
  import opened Network
  import opened Wakeups
  import BucketUrls
  import Builds
  import PodAssembly

  predicate UrlKept(cfg: Config, id: Id, st: Status) {
    st.url in {"", BucketUrls.Print(ArtifactUrl(cfg, id))}
  }

  predicate PcUrl(cfg: Config, t: Ticket, pc: Pc) {
    Belongs(t, pc)
    && (Copy(pc).Some? ==> UrlKept(cfg, t.id, pc.local.status))
    && (pc.Publish? || pc.StoredPut? ==> UrlKept(cfg, t.id, pc.status))
  }

  ghost predicate UrlWorld(w: World) {
    (forall id :: id in w.store.objects ==> UrlKept(w.store.cfg, id, w.store.objects[id].status))
    && (forall t :: t in w.active ==> PcUrl(w.store.cfg, t, w.active[t]))
  }

  predicate AnswerUrl(cfg: Config, t: Ticket, r: Response) {
    r.TheObject? ==> UrlKept(cfg, t.id, r.found.status)
  }

  lemma RunnerUrls(cfg: Config, t: Ticket, pc: Pc, r: Response)
    requires PcUrl(cfg, t, pc) && AnswerUrl(cfg, t, r) && (InCompletion(pc) || InNotebook(pc) || InServer(pc))
    ensures PcUrl(cfg, t, Resume(cfg, pc, r))
  {
    hide BuilderBegin;
    hide BucketUrls.Print, ArtifactUrl, NotebookTemplate, ServerTemplate, IsPodReady, JobResult, Constructible;
    hide MountUrl;
    BelongsStep(cfg, t, pc, r);
  }

  lemma BuildUrls(cfg: Config, t: Ticket, pc: Pc, r: Response)
    requires PcUrl(cfg, t, pc) && AnswerUrl(cfg, t, r) && !pc.Return?
    requires !InCompletion(pc) && !InNotebook(pc) && !InServer(pc)
    ensures PcUrl(cfg, t, Resume(cfg, pc, r))
  {
    hide BucketUrls.Print, ArtifactUrl, DesiredImage, Constructible, MountUrl;
    BelongsStep(cfg, t, pc, r);
  }

  lemma ServeUrls(s: Store, t: Ticket, pc: Pc)
    requires PcUrl(s.cfg, t, pc) && !pc.Return?
    requires forall id :: id in s.objects ==> UrlKept(s.cfg, id, s.objects[id].status)
    ensures var served := Serve(s, CallOf(s.cfg, pc));
            (forall id :: id in served.store.objects ==> UrlKept(s.cfg, id, served.store.objects[id].status))
            && AnswerUrl(s.cfg, t, served.response)
  {
    hide BucketUrls.Print, ArtifactUrl, DesiredImage, NotebookTemplate, ServerTemplate, Resume, ServingStatus, CallOf;
    var c := CallOf(s.cfg, pc);
    PutsOwnObject(s.cfg, t, pc);
    if c.PutStatus? {
      PutUrl(s.cfg, t, pc);
    } else if !c.PutSpec? {
      OnlyPutsWriteObjects(s, c);
    }
  }

  lemma PutUrl(cfg: Config, t: Ticket, pc: Pc)
    requires PcUrl(cfg, t, pc) && !pc.Return? && CallOf(cfg, pc).PutStatus?
    ensures UrlKept(cfg, t.id, CallOf(cfg, pc).status)
  {
    hide BucketUrls.Print, ArtifactUrl, DesiredImage, Resume;
  }

  lemma ActUrls(w: World, t: Ticket, reply: Reply)
    requires Enabled(w, Act(t, reply)) && UrlWorld(w)
    ensures UrlWorld(ApplyAct(w, t, reply))
  {
    hide CallOf, Resume, UrlKept, Wake, Serve;
    var cfg, pc := w.store.cfg, w.active[t];
    var served := Serve(w.store, CallOf(cfg, pc));
    ServeUrls(w.store, t, pc);
    ServeOnlyAt(w.store, CallOf(cfg, pc));
    var r := Answer(w, CallOf(cfg, pc), reply);
    if InCompletion(pc) || InNotebook(pc) || InServer(pc) {
      RunnerUrls(cfg, t, pc, r);
    } else {
      BuildUrls(cfg, t, pc, r);
    }
  }

  lemma ChangedUrls(w: World, s: Store, r: Ref)
    requires UrlWorld(w) && s.cfg == w.store.cfg
    requires forall id :: id in s.objects ==> UrlKept(s.cfg, id, s.objects[id].status)
    ensures UrlWorld(Changed(w, s, r))
  {
    hide UrlKept, PcUrl, Wake;
  }

  lemma UserUrls(w: World, step: Step)
    requires Enabled(w, step) && UserStep(step) && UrlWorld(w)
    ensures UrlWorld(ApplyUser(w, step))
  {
    hide BucketUrls.Print, ArtifactUrl, Wake, PcUrl;
  }

  lemma PokeUrls(w: World, c: nat, stamp: string)
    requires Enabled(w, Pokes(c, stamp)) && UrlWorld(w)
    ensures UrlWorld(ApplyPoke(w, c, stamp))
  {
    hide UrlKept, Wake, PcUrl;
  }

  lemma QueueUrls(w: World, step: Step)
    requires Enabled(w, step) && UrlWorld(w)
    requires step.Take? || step.Finish? || step.Restart?
    ensures UrlWorld(Apply(w, step))
  {
    hide UrlKept, Wake, AllTickets, ChildStore, ApplyPoke, ApplyAct, ApplyUser;
  }

  lemma ClientUrls(w: World, step: Step)
    requires Enabled(w, step) && UrlWorld(w)
    requires step.Join? || step.Sees? || step.Puts?
    ensures UrlWorld(Apply(w, step))
  {
    hide UrlKept, PcUrl, Reaction, ChildStore, ApplyPoke, ApplyAct, ApplyUser;
  }

  lemma StepUrls(w: World, step: Step)
    requires Enabled(w, step) && UrlWorld(w)
    ensures UrlWorld(Apply(w, step))
  {
    hide UrlWorld, ApplyAct, ApplyUser, ApplyPoke, Changed, ChildStore;
    if step.Act? {
      ActUrls(w, step.ticket, step.reply);
    } else if UserStep(step) {
      UserUrls(w, step);
    } else if ChildStep(step) {
      ChildUrls(w, step);
    } else if step.Pokes? {
      PokeUrls(w, step.client, step.stamp);
    } else if step.Take? || step.Finish? || step.Restart? {
      QueueUrls(w, step);
    } else {
      ClientUrls(w, step);
    }
  }

  lemma ChildUrls(w: World, step: Step)
    requires Enabled(w, step) && ChildStep(step) && UrlWorld(w)
    ensures UrlWorld(Changed(w, ChildStore(w, step), ChildRef(step)))
  {
    hide UrlKept, Wake, PcUrl;
    assert ChildStore(w, step).objects == w.store.objects && ChildStore(w, step).cfg == w.store.cfg;
    ChangedUrls(w, ChildStore(w, step), ChildRef(step));
  }

  lemma {:induction false} RunUrls(w: World, steps: seq<Step>)
    requires Legal(w, steps) && UrlWorld(w)
    ensures UrlWorld(Execute(w, steps))
    ensures Execute(w, steps).store.cfg == w.store.cfg
    decreases |steps|
  {
    hide Apply, UrlWorld;
    if steps != [] {
      StepUrls(w, steps[0]);
      Builds.StepRemembers(w, steps[0]);
      RunUrls(Apply(w, steps[0]), steps[1..]);
    }
  }

  /** In every reachable state, the URL a bucket mount starts from is the computed one, whether or not a URL has been
      persisted yet. */
  lemma PersistedIsComputed(cfg: Config, steps: seq<Step>, id: Id)
    requires Legal(Initial(cfg), steps) && id in Execute(Initial(cfg), steps).store.objects
    ensures MountUrl(cfg, id, Execute(Initial(cfg), steps).store.objects[id].status) ==
            BucketUrls.Print(ArtifactUrl(cfg, id))
  {
    hide BucketUrls.Print, ArtifactUrl;
    RunUrls(Initial(cfg), steps);
  }

  lemma JoinValid(cfg: Config, id: Id)
    ensures BucketUrls.Valid(ArtifactUrl(cfg, id)) <==>
            BucketUrls.Valid(cfg.bucket) && BucketUrls.ValidPath(cfg.digest(HashInput(cfg.cluster, id)))
  {
    hide BucketUrls.ValidScheme, BucketUrls.ValidBucket, HashInput;
    var dir, name := cfg.bucket.path, cfg.digest(HashInput(cfg.cluster, id));
    if dir != "" {
      var joined := dir + "/" + name;
      assert forall i :: 0 <= i < |dir| ==> joined[i] == dir[i];
      assert forall i :: 0 <= i < |name| ==> joined[|dir| + 1 + i] == name[i];
    }
  }

  /** The bucket of an object as a Pod assembly finds it in a reachable state. */
  ghost function BucketAt(cfg: Config, steps: seq<Step>, id: Id): PodAssembly.Bucket
    requires Legal(Initial(cfg), steps) && id in Execute(Initial(cfg), steps).store.objects
  {
    PodAssembly.Bucket(Execute(Initial(cfg), steps).store.objects[id].status.url, ArtifactUrl(cfg, id))
  }

  /** Persisted or not, the mounted bucket is the computed artifact URL, provided the bucket URL survives the parser. */
  lemma SourceAt(cfg: Config, steps: seq<Step>, id: Id)
    requires Legal(Initial(cfg), steps) && id in Execute(Initial(cfg), steps).store.objects
    requires BucketUrls.Valid(cfg.bucket) && BucketUrls.ValidPath(cfg.digest(HashInput(cfg.cluster, id)))
    ensures BucketAt(cfg, steps, id).Source() == Ok(ArtifactUrl(cfg, id))
  {
    hide BucketUrls.Print, BucketUrls.Parse, BucketUrls.Valid, BucketUrls.ValidPath, ArtifactUrl;
    PersistedIsComputed(cfg, steps, id);
    JoinValid(cfg, id);
    BucketUrls.RoundTrip(ArtifactUrl(cfg, id));
  }

  /** End to end: a Pod assembled at one reachable moment that mounts `id` as its Model or Dataset reads the directory
      that the Job of `id`, assembled at another, writes its artifacts to. */
  lemma ReadersMeetWriters(cfg: Config, wrote: seq<Step>, later: seq<Step>, id: Id, producer: string, consumer: string)
    requires Legal(Initial(cfg), wrote) && id in Execute(Initial(cfg), wrote).store.objects
    requires Legal(Initial(cfg), later) && id in Execute(Initial(cfg), later).store.objects
    requires BucketUrls.Valid(cfg.bucket) && BucketUrls.ValidPath(cfg.digest(HashInput(cfg.cluster, id)))
    ensures var writer, reader := BucketAt(cfg, wrote, id), BucketAt(cfg, later, id);
            writer.Source().Ok? && reader.Source().Ok?
            && var written := PodAssembly.Added(cfg.cloud, writer, PodAssembly.ArtifactsMount(producer));
               var place := PodAssembly.Place(written);
               PodAssembly.Place(PodAssembly.Added(cfg.cloud, reader, PodAssembly.ModelMount(consumer))) == place
               && PodAssembly.Place(PodAssembly.Added(cfg.cloud, reader, PodAssembly.DatasetMount(consumer))) == place
  {
    hide BucketUrls.Print, BucketUrls.Parse, BucketUrls.Valid, BucketUrls.ValidPath, ArtifactUrl, BucketAt,
      PodAssembly.MountSource;
    SourceAt(cfg, wrote, id);
    SourceAt(cfg, later, id);
    PodAssembly.ReaderSeesWriter(cfg.cloud, BucketAt(cfg, wrote, id), BucketAt(cfg, later, id), producer, consumer);
  }

  /******* Separation *******/

  /** The artifact URL of an object: the configured bucket, and below its path the digest of cluster, namespace, kind
      and name. */
  lemma ArtifactUrlIs(cfg: Config, id: Id)
    ensures var url, digest := ArtifactUrl(cfg, id), cfg.digest(HashInput(cfg.cluster, id));
            url.scheme == cfg.bucket.scheme && url.bucket == cfg.bucket.bucket
            && (cfg.bucket.path == "" ==> url.path == digest)
            && (cfg.bucket.path != "" ==> url.path == cfg.bucket.path + "/" + digest)
    ensures var kinds := match id.kind {
              case Model => "models"
              case Dataset => "datasets"
              case Notebook => "notebooks"
              case Server => "servers"
            };
            HashInput(cfg.cluster, id) ==
            "clusters/" + cfg.cluster + "/namespaces/" + id.ns + "/" + kinds + "/" + id.name
  {
    assert KindName(id.kind) + "s" + "/" + id.name == (KindName(id.kind) + "s") + "/" + id.name;
    var before := "clusters/" + cfg.cluster + "/namespaces/" + id.ns + "/";
    assert HashInput(cfg.cluster, id) == before + (KindName(id.kind) + "s") + "/" + id.name;
  }

  predicate Segment(s: string) {
    s != "" && '/' !in s
  }

  /** Paths that start differently after a common beginning differ below, too, whatever is mounted there. */
  lemma PathsApart(dir: string, a: string, b: string, x: string, y: string)
    requires Segment(a) && Segment(b) && a != b
    ensures var p, q := BucketUrls.Join(dir, a) + "/" + x, BucketUrls.Join(dir, b) + "/" + y;
            p != q && BucketUrls.TrimSlash(p) != BucketUrls.TrimSlash(q)
  {
    var p, q := BucketUrls.Join(dir, a) + "/" + x, BucketUrls.Join(dir, b) + "/" + y;
    if dir == "" {
      if p == q {
        SameSegment(a, x, b, y);
      }
      assert p[0] == a[0] && q[0] == b[0];
    } else {
      assert p == dir + "/" + (a + "/" + x) && q == dir + "/" + (b + "/" + y);
      assert p[0] == dir[0] == q[0];
      if BucketUrls.TrimSlash(p) == BucketUrls.TrimSlash(q) {
        assert p == [p[0]] + p[1..] && q == [q[0]] + q[1..];
        assert p == q;
      }
      if p == q {
        DropPrefix(dir + "/", a + "/" + x, b + "/" + y);
        SameSegment(a, x, b, y);
      }
    }
  }

  /** No two objects share a place: whatever is mounted of the one, for reading or for writing, is elsewhere than
      whatever is mounted of the other, if their digests differ and are path segments. */
  lemma PlacesApart(cfg: Config, id: Id, id': Id, req: PodAssembly.MountRequest, req': PodAssembly.MountRequest)
    requires Segment(cfg.digest(HashInput(cfg.cluster, id))) && Segment(cfg.digest(HashInput(cfg.cluster, id')))
    requires cfg.digest(HashInput(cfg.cluster, id)) != cfg.digest(HashInput(cfg.cluster, id'))
    requires |req.mounts| == 1 && |req'.mounts| == 1
    ensures var one := PodAssembly.Added(cfg.cloud, PodAssembly.Bucket("", ArtifactUrl(cfg, id)), req);
            var other := PodAssembly.Added(cfg.cloud, PodAssembly.Bucket("", ArtifactUrl(cfg, id')), req');
            PodAssembly.Place(one) != PodAssembly.Place(other)
  {
    hide HashInput;
    var a, b := cfg.digest(HashInput(cfg.cluster, id)), cfg.digest(HashInput(cfg.cluster, id'));
    PathsApart(cfg.bucket.path, a, b, req.mounts[0].bucketSubdir, req'.mounts[0].bucketSubdir);
    if cfg.cloud.KindCluster? && ArtifactUrl(cfg, id).path == ArtifactUrl(cfg, id').path {
      PathsApart(cfg.bucket.path, a, b, "", "");
    }
  }

  /** The same of any two Pods of the running system: in reachable states, at any two moments, what is mounted of two
      objects is in two places. */
  lemma ObjectsApart(cfg: Config, now: seq<Step>, later: seq<Step>, id: Id, id': Id,
                     req: PodAssembly.MountRequest, req': PodAssembly.MountRequest)
    requires Legal(Initial(cfg), now) && id in Execute(Initial(cfg), now).store.objects
    requires Legal(Initial(cfg), later) && id' in Execute(Initial(cfg), later).store.objects
    requires BucketUrls.Valid(cfg.bucket) && |req.mounts| == 1 && |req'.mounts| == 1
    requires var a, b := cfg.digest(HashInput(cfg.cluster, id)), cfg.digest(HashInput(cfg.cluster, id'));
             a != b && Segment(a) && Segment(b) && BucketUrls.ValidPath(a) && BucketUrls.ValidPath(b)
    ensures var one, other := BucketAt(cfg, now, id), BucketAt(cfg, later, id');
            one.Source().Ok? && other.Source().Ok?
            && PodAssembly.Place(PodAssembly.Added(cfg.cloud, one, req)) !=
               PodAssembly.Place(PodAssembly.Added(cfg.cloud, other, req'))
  {
    hide BucketUrls.Print, BucketUrls.Parse, BucketUrls.Valid, BucketUrls.ValidPath, ArtifactUrl, BucketAt, HashInput;
    hide PodAssembly.MountSource, Segment, Legal, Execute;
    SourceAt(cfg, now, id);
    SourceAt(cfg, later, id');
    PlacesApart(cfg, id, id', req, req');
    SameSource(cfg.cloud, BucketAt(cfg, now, id), PodAssembly.Bucket("", ArtifactUrl(cfg, id)), req);
    SameSource(cfg.cloud, BucketAt(cfg, later, id'), PodAssembly.Bucket("", ArtifactUrl(cfg, id')), req');
  }

  lemma SameSource(cloud: Cloud, a: PodAssembly.Bucket, b: PodAssembly.Bucket, req: PodAssembly.MountRequest)
    requires a.Source() == Ok(b.computed) && b.persisted == "" && |req.mounts| == 1
    ensures b.Source() == a.Source() && PodAssembly.Added(cloud, a, req) == PodAssembly.Added(cloud, b, req)
  {
  }
}
