/** Where the image in a spec comes from, and what a client and the controller agree on. */
module Builds {
  import opened Basics
  import opened Identity
  import opened Cluster
  import opened Programs
  import opened Network
  import opened Wakeups
  import opened Safety
  import opened Readiness

  /******* Image URLs *******/

  lemma SameUrlSameTag(cfg: Config, id: Id, b1: Build, b2: Build)
    ensures ImageUrl(cfg, id, b1) == ImageUrl(cfg, id, b2) <==> Tag(b1) == Tag(b2)
  {
    var n := |ImageRepository(cfg, id) + ":"|;
    assert ImageUrl(cfg, id, b1)[n..] == Tag(b1);
    assert ImageUrl(cfg, id, b2)[n..] == Tag(b2);
  }

  /** A Job made for a Git build serves an upload build exactly when the Git tag spells the checksum. */
  lemma GitJobServesUpload(cfg: Config, id: Id, o: Object, git: Build, job: Job)
    requires o.spec.build.Some? && o.spec.build.value.git.None? && o.spec.build.value.upload.Some?
    requires job.image == ImageUrl(cfg, id, git) && job.succeeded >= 1
    ensures BuildJobSeen(cfg, id, o, job).ImagePut? <==> Tag(git) == o.spec.build.value.upload.value.md5
  {
    SameUrlSameTag(cfg, id, git, o.spec.build.value);
  }

  /******* Provenance of the image *******/

  /** In no version of the object is a Git build tagged with this checksum. */
  ghost predicate NoGitTag(past: set<Fact>, id: Id, md5: string) {
    forall o :: Version(id, o) in past && o.spec.build.Some? && o.spec.build.value.git.Some? ==>
      Tag(o.spec.build.value) != md5
  }

  lemma UploadJobOrigin(cfg: Config, past: set<Fact>, id: Id, b: Build, job: Job)
    requires JobSound(cfg, past, JobId(id, BuildJob), job) && job.image == ImageUrl(cfg, id, b)
    requires b.git.None? && b.upload.Some? && NoGitTag(past, id, b.upload.value.md5)
    ensures job.origin == FromUpload(b.upload.value.md5) && Reported(id, b.upload.value.md5) in past
  {
    var o :| Version(id, o) in past && OriginSound(past, id, o.spec, job.origin)
      && job.image == DesiredImage(cfg, id, o.spec);
    SameUrlSameTag(cfg, id, o.spec.build.value, b);
  }

  /** What an image URL says: registry, cluster, kind, namespace and name, and then the Git tag, or else the Git branch,
      or else "latest"; without Git, the checksum of the upload. */
  predicate SpelledImage(cfg: Config, id: Id, b: Build, url: string) {
    var kind := match id.kind {
      case Model => "model"
      case Dataset => "dataset"
      case Notebook => "notebook"
      case Server => "server"
    };
    var repository := cfg.registry + "/" + cfg.cluster + "-" + kind + "-" + id.ns + "-" + id.name;
    (b.git.Some? && b.git.value.tag != "" ==> url == repository + ":" + b.git.value.tag)
    && (b.git.Some? && b.git.value.tag == "" && b.git.value.branch != "" ==>
          url == repository + ":" + b.git.value.branch)
    && (b.git.Some? && b.git.value.tag == "" && b.git.value.branch == "" ==> url == repository + ":latest")
    && (b.git.None? && b.upload.Some? ==> url == repository + ":" + b.upload.value.md5)
    && (b.git.None? && b.upload.None? ==> url == repository + ":latest")
  }

  lemma ImageUrlIs(cfg: Config, id: Id, b: Build)
    ensures SpelledImage(cfg, id, b, ImageUrl(cfg, id, b))
  {
    assert ":" + "latest" == ":latest";
    assert ImageRepository(cfg, id) + ":" + "latest" == ImageRepository(cfg, id) + (":" + "latest");
  }

  /** Two objects of one cluster share an image repository exactly if they are of one kind and their namespaces and
      names read the same when joined by a hyphen. */
  lemma SharedRepository(cfg: Config, id: Id, id': Id)
    ensures ImageRepository(cfg, id) == ImageRepository(cfg, id')
            <==> id.kind == id'.kind && id.ns + "-" + id.name == id'.ns + "-" + id'.name
  {
    var before := cfg.registry + "/" + cfg.cluster + "-";
    var rest, rest' := "-" + (id.ns + "-" + id.name), "-" + (id'.ns + "-" + id'.name);
    assert ImageRepository(cfg, id) == before + (KindName(id.kind) + rest);
    assert ImageRepository(cfg, id') == before + (KindName(id'.kind) + rest');
    if ImageRepository(cfg, id) == ImageRepository(cfg, id') {
      DropPrefix(before, KindName(id.kind) + rest, KindName(id'.kind) + rest');
      assert (KindName(id.kind) + rest)[0] == (KindName(id'.kind) + rest')[0];
      assert id.kind == id'.kind;
      DropPrefix(KindName(id.kind), rest, rest');
      DropPrefix("-", id.ns + "-" + id.name, id'.ns + "-" + id'.name);
    }
  }

  /** Whenever a controller changes the image of an object, it is the build controller of that object, the image is
      the one the build in the spec at this very moment asks for, and the controller saw a Job for exactly that image
      that had succeeded. For an upload with checksum m, that Job comes from an upload, and storage reported m. */
  lemma BuildProvenance(cfg: Config, steps: seq<Step>, step: Step, id: Id) returns (job: Job)
    requires Legal(Initial(cfg), steps) && Enabled(Execute(Initial(cfg), steps), step) && !step.Edit?
    requires var w := Execute(Initial(cfg), steps);
             id in w.store.objects && id in Apply(w, step).store.objects
             && Apply(w, step).store.objects[id].spec.image != w.store.objects[id].spec.image
    ensures var w := Execute(Initial(cfg), steps);
            var spec, spec' := w.store.objects[id].spec, Apply(w, step).store.objects[id].spec;
            step.Act? && step.ticket == Ticket(Builder, id)
            && spec.build.Some? && spec' == spec.(image := ImageUrl(w.store.cfg, id, spec.build.value))
            && SpelledImage(cfg, id, spec.build.value, spec'.image)
            && Saw(JobId(id, BuildJob), job) in w.past && job.succeeded >= 1 && job.image == spec'.image
            && (spec.build.value.git.None? && spec.build.value.upload.Some?
                && NoGitTag(w.past, id, spec.build.value.upload.value.md5) ==>
                  var md5 := spec.build.value.upload.value.md5;
                  job.origin == FromUpload(md5) && Reported(id, md5) in w.past)
  {
    hide Apply, Serve, CallOf, JobSound, StatusSound, ReadySound, SpelledImage, ImageUrl;
    var w := Execute(Initial(cfg), steps);
    Reachable(cfg, steps);
    WhoWrites(w, step, id);
    LoudPut(w, step.ticket);
    var pc := w.active[step.ticket];
    assert pc.local == w.store.objects[id];
    job := pc.job;
    var spec := w.store.objects[id].spec;
    RunRemembers(Initial(cfg), steps, 0);
    ImageUrlIs(cfg, id, spec.build.value);
    if spec.build.value.git.None? && spec.build.value.upload.Some?
       && NoGitTag(w.past, id, spec.build.value.upload.value.md5) {
      UploadJobOrigin(w.store.cfg, w.past, id, spec.build.value, job);
    }
  }

  /******* What is remembered did happen *******/

  lemma {:induction false} PrefixLegal(w: World, steps: seq<Step>, k: nat)
    requires Legal(w, steps) && k <= |steps|
    ensures Legal(w, steps[..k])
    decreases k
  {
    if k > 0 {
      PrefixLegal(Apply(w, steps[0]), steps[1..], k - 1);
      assert steps[..k][1..] == steps[1..][..k - 1];
    }
  }

  ghost function At(w: World, steps: seq<Step>, k: nat): World
    requires Legal(w, steps) && k <= |steps|
  {
    PrefixLegal(w, steps, k);
    Execute(w, steps[..k])
  }

  ghost predicate Happened(s: Store, f: Fact) {
    match f
    case Reported(id, md5) => id in s.blobs && s.blobs[id] == md5
    case Saw(jobId, job) => jobId in s.jobs && s.jobs[jobId] == job
    case Version(id, o) => id in s.objects && s.objects[id] == o
  }

  lemma ActFacts(w: World, t: Ticket, reply: Reply, f: Fact)
    requires Enabled(w, Act(t, reply)) && f in ApplyAct(w, t, reply).past && f !in w.past
    ensures Happened(w.store, f) || Happened(ApplyAct(w, t, reply).store, f)
  {
    hide Wake, CallOf, Resume;
  }

  lemma WriteFacts(w: World, step: Step, f: Fact)
    requires Enabled(w, step) && (UserStep(step) || ChildStep(step) || step.Pokes?)
    requires f in Apply(w, step).past && f !in w.past
    ensures Happened(Apply(w, step).store, f)
  {
    hide Wake;
  }

  lemma NoFacts(w: World, step: Step)
    requires Enabled(w, step) && !UserStep(step) && !ChildStep(step) && !step.Pokes? && !step.Act?
    ensures Apply(w, step).past == w.past && Apply(w, step).store.cfg == w.store.cfg
  {
    hide AllTickets, Reaction, ChildStore, ApplyUser, ApplyPoke, ApplyAct;
  }

  lemma FactsHappen(w: World, step: Step, f: Fact)
    requires Enabled(w, step) && f in Apply(w, step).past && f !in w.past
    ensures Happened(w.store, f) || Happened(Apply(w, step).store, f)
  {
    hide ApplyAct, ApplyUser, ApplyPoke, ChildStore, Happened, Restarted, ApplyFinish, ApplyPut, Changed;
    if step.Act? {
      ActFacts(w, step.ticket, step.reply, f);
    } else if UserStep(step) || ChildStep(step) || step.Pokes? {
      WriteFacts(w, step, f);
    } else {
      NoFacts(w, step);
    }
  }

  /** Every remembered report of the bucket, sight of a Job or version of an object is what some state of the run
      really held. */
  lemma {:induction false} PastIsReal(w: World, steps: seq<Step>, f: Fact) returns (k: nat)
    requires Legal(w, steps) && f in Execute(w, steps).past && f !in w.past
    ensures k <= |steps| && Happened(At(w, steps, k).store, f)
    decreases |steps|
  {
    hide Apply, Happened;
    var w1 := Apply(w, steps[0]);
    if f in w1.past {
      FactsHappen(w, steps[0], f);
      if Happened(w.store, f) {
        k := 0;
      } else {
        k := 1;
        assert steps[..1][1..] == [] && steps[..1][0] == steps[0];
        assert At(w, steps, 1) == Execute(w1, []);
      }
    } else {
      var k1 := PastIsReal(w1, steps[1..], f);
      k := k1 + 1;
      assert steps[..k][1..] == steps[1..][..k1] && steps[..k][0] == steps[0];
    }
  }

  lemma WritesRemember(w: World, step: Step)
    requires Enabled(w, step) && (UserStep(step) || ChildStep(step) || step.Pokes?)
    ensures w.past <= Apply(w, step).past && Apply(w, step).store.cfg == w.store.cfg
  {
    hide Wake, ApplyAct, ApplyFinish, Reaction;
    if ChildStep(step) {
      assert ChildStore(w, step).cfg == w.store.cfg;
    } else {
      hide ChildStore;
    }
  }

  lemma ActRemembers(w: World, t: Ticket, reply: Reply)
    requires Enabled(w, Act(t, reply))
    ensures w.past <= ApplyAct(w, t, reply).past && ApplyAct(w, t, reply).store.cfg == w.store.cfg
  {
    hide Wake, CallOf, Resume, Serve;
    ServeOnlyAt(w.store, CallOf(w.store.cfg, w.active[t]));
  }

  lemma StepRemembers(w: World, step: Step)
    requires Enabled(w, step)
    ensures w.past <= Apply(w, step).past && Apply(w, step).store.cfg == w.store.cfg
  {
    hide ApplyAct, ApplyUser, ApplyPoke, ChildStore, Restarted, ApplyFinish, ApplyPut, Changed;
    if step.Act? {
      ActRemembers(w, step.ticket, step.reply);
    } else if UserStep(step) || ChildStep(step) || step.Pokes? {
      WritesRemember(w, step);
    } else {
      NoFacts(w, step);
    }
  }

  lemma {:induction false} RunRemembers(w: World, steps: seq<Step>, k: nat)
    requires Legal(w, steps) && k <= |steps|
    ensures At(w, steps, k).past <= Execute(w, steps).past
    ensures Execute(w, steps).store.cfg == w.store.cfg
    decreases |steps|
  {
    hide Apply;
    if steps != [] {
      StepRemembers(w, steps[0]);
      if k > 0 {
        RunRemembers(Apply(w, steps[0]), steps[1..], k - 1);
        assert steps[..k][1..] == steps[1..][..k - 1];
      } else {
        RunRemembers(Apply(w, steps[0]), steps[1..], 0);
        assert steps[..0] == [] == steps[1..][..0];
      }
    }
  }

  /** The build Job of `id` is there, and builds this image. */
  predicate Stands(s: Store, id: Id, image: string) {
    JobId(id, BuildJob) in s.jobs && s.jobs[JobId(id, BuildJob)].image == image
  }

  /** The moment at which the Job that stands at `seen` came to stand. */
  lemma {:induction false} CreatedAt(cfg: Config, steps: seq<Step>, id: Id, image: string, seen: nat)
      returns (created: nat)
    requires Legal(Initial(cfg), steps) && seen <= |steps| && Stands(At(Initial(cfg), steps, seen).store, id, image)
    ensures 0 < created <= seen && !Stands(At(Initial(cfg), steps, created - 1).store, id, image)
    ensures forall k: nat :: created <= k <= seen ==> Stands(At(Initial(cfg), steps, k).store, id, image)
    decreases seen
  {
    hide Apply, At, Stands;
    AtFirst(cfg, steps, id, image);
    if Stands(At(Initial(cfg), steps, seen - 1).store, id, image) {
      created := CreatedAt(cfg, steps, id, image, seen - 1);
    } else {
      created := seen;
    }
  }

  lemma AtFirst(cfg: Config, steps: seq<Step>, id: Id, image: string)
    requires Legal(Initial(cfg), steps)
    ensures !Stands(At(Initial(cfg), steps, 0).store, id, image)
  {
    assert steps[..0] == [];
  }

  /** The same over the states of the run: the Job for the new image was created at some moment, stood until it was in
      the store with a success, and for an upload, no later than its creation, storage held the checksum that the spec
      asks for. */
  lemma ProvenanceOverRuns(cfg: Config, steps: seq<Step>, step: Step, id: Id)
      returns (created: nat, seen: nat, stored: nat)
    requires Legal(Initial(cfg), steps) && Enabled(Execute(Initial(cfg), steps), step) && !step.Edit?
    requires var w := Execute(Initial(cfg), steps);
             id in w.store.objects && id in Apply(w, step).store.objects
             && Apply(w, step).store.objects[id].spec.image != w.store.objects[id].spec.image
    ensures 0 < created <= seen <= |steps|
    ensures var image := Apply(Execute(Initial(cfg), steps), step).store.objects[id].spec.image;
            !Stands(At(Initial(cfg), steps, created - 1).store, id, image)
            && (forall k: nat :: created <= k <= seen ==> Stands(At(Initial(cfg), steps, k).store, id, image))
            && At(Initial(cfg), steps, seen).store.jobs[JobId(id, BuildJob)].succeeded >= 1
    ensures var w := Execute(Initial(cfg), steps);
            var b := w.store.objects[id].spec.build;
            b.Some? && (b.value.git.None? && b.value.upload.Some? && NoGitTag(w.past, id, b.value.upload.value.md5) ==>
              stored <= created
              && var s := At(Initial(cfg), steps, stored).store;
                 id in s.blobs && s.blobs[id] == b.value.upload.value.md5)
  {
    hide Apply, Serve, CallOf, SafeWorld;
    var w := Execute(Initial(cfg), steps);
    var job := BuildProvenance(cfg, steps, step, id);
    seen := PastIsReal(Initial(cfg), steps, Saw(JobId(id, BuildJob), job));
    created := CreatedAt(cfg, steps, id, job.image, seen);
    assert Stands(At(Initial(cfg), steps, seen).store, id, job.image);
    assert Stands(At(Initial(cfg), steps, created).store, id, job.image);
    stored := 0;
    var b := w.store.objects[id].spec.build.value;
    if b.git.None? && b.upload.Some? && NoGitTag(w.past, id, b.upload.value.md5) {
      RunRemembers(Initial(cfg), steps, created);
      PrefixLegal(Initial(cfg), steps, created);
      RunRemembers(Initial(cfg), steps[..created], 0);
      var first := At(Initial(cfg), steps, created).store.jobs[JobId(id, BuildJob)];
      stored := StoredBefore(cfg, steps[..created], id, b, first);
      assert steps[..created][..stored] == steps[..stored];
    }
  }

  lemma StoredBefore(cfg: Config, steps: seq<Step>, id: Id, b: Build, job: Job) returns (stored: nat)
    requires Legal(Initial(cfg), steps)
    requires var w := Execute(Initial(cfg), steps);
             JobId(id, BuildJob) in w.store.jobs && w.store.jobs[JobId(id, BuildJob)] == job
             && job.image == ImageUrl(cfg, id, b) && b.git.None? && b.upload.Some?
             && NoGitTag(w.past, id, b.upload.value.md5)
    ensures stored <= |steps|
            && var s := At(Initial(cfg), steps, stored).store; id in s.blobs && s.blobs[id] == b.upload.value.md5
  {
    hide Apply;
    Reachable(cfg, steps);
    RunRemembers(Initial(cfg), steps, 0);
    UploadJobOrigin(cfg, Execute(Initial(cfg), steps).past, id, b, job);
    stored := PastIsReal(Initial(cfg), steps, Reported(id, b.upload.value.md5));
  }

  /******* Upload status *******/

  /** A signed URL and a stored checksum never stand together, Uploaded is True exactly when a checksum is stored,
      and every stored checksum was reported by storage. */
  lemma UploadStatusShape(cfg: Config, steps: seq<Step>, id: Id)
    requires Legal(Initial(cfg), steps) && id in Execute(Initial(cfg), steps).store.objects
    ensures var w := Execute(Initial(cfg), steps);
            var st := w.store.objects[id].status;
            !(st.upload.url.Some? && st.upload.stored != "")
            && (IsTrue(st, Uploaded) <==> st.upload.stored != "")
            && (st.upload.stored != "" ==> Reported(id, st.upload.stored) in w.past)
  {
    Reachable(cfg, steps);
    var w := Execute(Initial(cfg), steps);
    assert Version(id, w.store.objects[id]) in w.past;
  }

  /******* Agreement between client and controller *******/

  ghost predicate Requested(past: set<Fact>, id: Id, upload: Upload) {
    exists o :: Version(id, o) in past && o.spec.build.Some? && o.spec.build.value.upload == Some(upload)
  }

  /** Two versions of the object use one request ID for two checksums. */
  ghost predicate RequestReused(past: set<Fact>, id: Id, request: string) {
    exists md5, md5' ::
      md5 != md5' && Requested(past, id, Upload(md5, request)) && Requested(past, id, Upload(md5', request))
  }

  /** A client about to PUT holds a URL that the controller signed for its object and for the checksum in the spec
      of the very snapshot it saw, unless somebody reused a request ID; if that snapshot carries the request the
      client itself made, the URL is for its own tarball. */
  lemma UploadAgreement(cfg: Config, steps: seq<Step>, c: nat)
    requires Legal(Initial(cfg), steps)
    requires var w := Execute(Initial(cfg), steps); c in w.clients && w.clients[c].phase.Holding?
    ensures var w := Execute(Initial(cfg), steps);
            var client := w.clients[c];
            var Holding(url, seen) := client.phase;
            url.target == client.id
            && (url.md5 == seen.md5 || RequestReused(w.past, client.id, seen.request))
            && (seen.request == client.request && Requested(w.past, client.id, Upload(client.md5, client.request)) ==>
                  url.md5 == client.md5 || RequestReused(w.past, client.id, client.request))
  {
    Reachable(cfg, steps);
    var w := Execute(Initial(cfg), steps);
    var client := w.clients[c];
    assert ClientSound(w.past, client);
    var url, seen := client.phase.url, client.phase.seen;
    var o :| Version(client.id, o) in w.past && o.status.upload.url == Some(url)
      && o.spec.build.Some? && o.spec.build.value.upload == Some(seen)
      && o.status.upload.request == seen.request;
    assert StatusSound(w.past, client.id, o.status);
    assert SignedEarlier(w.past, client.id, url, seen.request);
    assert Requested(w.past, client.id, seen);
    assert Requested(w.past, client.id, Upload(url.md5, seen.request));
  }

  /** A client skips its PUT only if storage was seen to hold its checksum. */
  lemma SkipMeansStored(cfg: Config, steps: seq<Step>, c: nat)
    requires Legal(Initial(cfg), steps)
    requires var w := Execute(Initial(cfg), steps); c in w.clients && w.clients[c].phase == Skipped
    ensures var w := Execute(Initial(cfg), steps); Reported(w.clients[c].id, w.clients[c].md5) in w.past
  {
    Reachable(cfg, steps);
    var w := Execute(Initial(cfg), steps);
    assert ClientSound(w.past, w.clients[c]);
    var o :| Version(w.clients[c].id, o) in w.past && o.status.upload.stored == w.clients[c].md5;
    assert StatusSound(w.past, w.clients[c].id, o.status);
  }
}
