/** The upload handshake over infinite runs: requested, signed, held, stored, poked, observed. */
module Handshake {
  import opened Basics
  import opened Identity
  import opened Cluster
  import opened Programs
  import opened Network
  import opened Wakeups
  import opened Quiescence
  import opened Idempotence
  import opened Frames
  import opened InFlight
  import Safety
  import opened Stages
  import Drain
  import BucketUrls

  /******* What a reconcile does to the upload half of a status *******/

  ghost predicate UploadKept(s: Store, s': Store, id: Id) {
    id in s.objects && id in s'.objects && s'.cfg == s.cfg && s'.blobs == s.blobs
    && s'.objects[id].spec.build == s.objects[id].spec.build
    && SameUpload(s.objects[id].status, s'.objects[id].status)
  }

  /** A program counter of a build that holds the stored object and is past the upload checks. */
  predicate Past(s: Store, id: Id, pc: Pc) {
    id in s.objects
    && (pc.Return?
        || (Copy(pc).Some? && pc.id == id && pc.local == s.objects[id]
            && (pc.BuildJobGet? || pc.BuildJobCreate? || pc.BuildJobDelete? || pc.BuildJobRecreate? || pc.ImagePut?
                || (pc.Publish? && SameUpload(pc.local.status, pc.status)))))
  }

  lemma PendingKeepsUpload(o: Object)
    ensures SameUpload(o.status, o.status) && SameUpload(o.status, BuildPendingStatus(o))
  {
  }

  lemma PastJob(s: Store, id: Id, pc: Pc)
    requires Past(s, id, pc) && InBuild(pc) && !pc.ImagePut?
    ensures var s' := Serve(s, CallOf(s.cfg, pc)).store; UploadKept(s, s', id) && Past(s', id, Next(s, pc))
  {
    hide DesiredImage, SameUpload, BuildPendingStatus, ServePut, ResumeCompletion, ResumeNotebook, ResumeServer;
    hide ServeApplyPod, ServeApplyDeployment;
    PendingKeepsUpload(s.objects[id]);
  }

  lemma PastWrite(s: Store, id: Id, pc: Pc)
    requires Past(s, id, pc) && (pc.ImagePut? || pc.Publish?)
    ensures var s' := Serve(s, CallOf(s.cfg, pc)).store; UploadKept(s, s', id) && Past(s', id, Next(s, pc))
  {
    hide DesiredImage;
  }

  /** Past the upload checks, a build reconcile keeps what it recorded of the upload. */
  lemma {:induction false} PastKeeps(s: Store, id: Id, pc: Pc)
    requires Past(s, id, pc)
    ensures UploadKept(s, Reconcile(s, pc).store, id)
    decreases Rank(pc)
  {
    hide Resume, CallOf, Serve, SameUpload;
    if pc.Return? {
      KeptItself(s, id);
    } else {
      var s1 := Serve(s, CallOf(s.cfg, pc)).store;
      if pc.ImagePut? || pc.Publish? {
        PastWrite(s, id, pc);
      } else {
        PastJob(s, id, pc);
      }
      PastKeeps(s1, id, Next(s, pc));
      KeptThrough(s, s1, Reconcile(s, pc).store, id);
    }
  }

  lemma KeptItself(s: Store, id: Id)
    requires id in s.objects
    ensures UploadKept(s, s, id)
  {
  }

  lemma KeptThrough(s: Store, s1: Store, s2: Store, id: Id)
    requires UploadKept(s, s1, id) && UploadKept(s1, s2, id)
    ensures UploadKept(s, s2, id)
  {
  }

  /******* What the build controller does to an upload *******/

  ghost predicate Records(s: Store, s': Store, id: Id, upload: Upload) {
    id in s'.objects && Asks(s'.objects[id], upload) && Recorded(s'.objects[id], upload) && s'.blobs == s.blobs
  }

  /** The upload half of a status that records a checksum. */
  predicate RecordedAs(st: Status, upload: UploadStatus, generation: nat) {
    st.upload == upload && Uploaded in st.conditions
    && st.conditions[Uploaded] == Condition(true, UploadFound, generation)
  }

  lemma StoredPutNext(s: Store, id: Id, o: Object, upload: Upload, request: string)
    requires id in s.objects && s.objects[id] == o && Asks(o, upload) && Building(s, id)
    requires request in {"", upload.request}
    ensures var pc := StoredPut(id, o, StoredStatus(o, request, upload.md5), upload.md5);
            var s1 := Serve(s, CallOf(s.cfg, pc)).store;
            Records(s, s1, id, upload) && Next(s, pc) == BuildJobGet(id, s1.objects[id], FromUpload(upload.md5))
            && RecordedAs(s1.objects[id].status, UploadStatus(None, request, upload.md5), o.generation)
  {
    hide DesiredImage;
  }

  lemma StoredPutRecords(s: Store, id: Id, o: Object, upload: Upload, request: string)
    requires id in s.objects && s.objects[id] == o && Asks(o, upload) && Building(s, id)
    requires request in {"", upload.request}
    ensures var pc := StoredPut(id, o, StoredStatus(o, request, upload.md5), upload.md5);
            var s' := Reconcile(s, pc).store;
            Records(s, s', id, upload)
            && RecordedAs(s'.objects[id].status, UploadStatus(None, request, upload.md5), o.generation)
  {
    hide Reconcile, CallOf, Resume, Serve;
    var pc := StoredPut(id, o, StoredStatus(o, request, upload.md5), upload.md5);
    var s1 := Serve(s, CallOf(s.cfg, pc)).store;
    StoredPutNext(s, id, o, upload, request);
    ReconcileNext(s, pc);
    PastKeeps(s1, id, Next(s, pc));
  }

  /** The build controller's first call on an upload that is not built yet. */
  lemma UploadStart(s: Store, id: Id, upload: Upload)
    requires id in s.objects && Building(s, id) && Asks(s.objects[id], upload)
    ensures var pc := UploadCheck(id, s.objects[id], upload);
            Reconcile(s, BuilderGet(id)) == Reconcile(s, Next(s, pc))
            && (Quiet(s, BuilderGet(id)) <==> Quiet(s, Next(s, pc)))
  {
    hide DesiredImage, Reconcile, Quiet, NewUploadSeen, KnownUploadSeen;
    var pc := UploadCheck(id, s.objects[id], upload);
    assert Next(s, BuilderGet(id)) == pc;
    Silently(s, BuilderGet(id));
    Silently(s, pc);
  }

  lemma CheckNext(s: Store, id: Id, o: Object, upload: Upload)
    requires InBucket(s, id, upload.md5) || upload.md5 != ""
    ensures var pc := UploadCheck(id, o, upload);
            var request := if upload.request != o.status.upload.request then "" else upload.request;
            if InBucket(s, id, upload.md5) then
              Next(s, pc) == StoredPut(id, o, StoredStatus(o, request, upload.md5), upload.md5)
            else if upload.request != o.status.upload.request then Next(s, pc) == UrlSign(id, o, upload)
            else Next(s, pc).Return?
  {
    hide StoredStatus;
  }

  /** When the bucket holds the checksum, the next reconcile of the build controller records it and that it has found
      the upload: at a new request, leaving the recorded request empty, and at a known one. */
  lemma BuilderRecords(s: Store, id: Id, upload: Upload)
    requires id in s.objects && Building(s, id) && Asks(s.objects[id], upload) && InBucket(s, id, upload.md5)
    ensures var o, s' := s.objects[id], Reconcile(s, BuilderGet(id)).store;
            var request := if upload.request != o.status.upload.request then "" else upload.request;
            Records(s, s', id, upload)
            && RecordedAs(s'.objects[id].status, UploadStatus(None, request, upload.md5), o.generation)
    ensures Quiet(s, BuilderGet(id)) ==> Recorded(s.objects[id], upload)
  {
    hide Building, Reconcile, Quiet, Resume, UploadCheck, CallOf, Serve, Records, RecordedAs, Recorded;
    var o := s.objects[id];
    UploadStart(s, id, upload);
    CheckNext(s, id, o, upload);
    var request := if upload.request != o.status.upload.request then "" else upload.request;
    StoredPutRecords(s, id, o, upload, request);
    QuietPutRecorded(s, id, o, upload, request);
  }

  lemma QuietPutRecorded(s: Store, id: Id, o: Object, upload: Upload, request: string)
    requires id in s.objects && s.objects[id] == o && request in {"", upload.request}
    ensures Quiet(s, StoredPut(id, o, StoredStatus(o, request, upload.md5), upload.md5)) ==> Recorded(o, upload)
  {
    hide Quiet, Resume;
    var pc := StoredPut(id, o, StoredStatus(o, request, upload.md5), upload.md5);
    if Quiet(s, pc) {
      QuietNext(s, pc);
    }
  }

  lemma SignNext(s: Store, id: Id, o: Object, upload: Upload)
    ensures Next(s, UrlSign(id, o, upload)) ==
            Publish(id, o, AwaitingUploadStatus(o, SignedUrl(id, upload.md5, o.version), upload.request), Settle)
    ensures !Serve(s, CallOf(s.cfg, UrlSign(id, o, upload))).loud
    ensures Serve(s, CallOf(s.cfg, UrlSign(id, o, upload))).store == s
  {
  }

  /** Of the rest of the status, only the Uploaded condition has moved: it waits for the upload. */
  predicate Awaits(o: Object, o': Object) {
    o'.status.(upload := o.status.upload) == o.status.(conditions :=
      o.status.conditions[Uploaded := Condition(false, AwaitingUpload, o.generation)])
  }

  lemma SignedPublish(s: Store, id: Id, o: Object, upload: Upload)
    requires id in s.objects && s.objects[id] == o && upload.request != o.status.upload.request
    ensures var st := AwaitingUploadStatus(o, SignedUrl(id, upload.md5, o.version), upload.request);
            var s' := Reconcile(s, Publish(id, o, st, Settle)).store;
            id in s'.objects && s'.objects[id].spec == o.spec && SignedFor(id, s'.objects[id], upload)
            && Awaits(o, s'.objects[id])
            && s'.blobs == s.blobs && s'.cfg == s.cfg && !Quiet(s, Publish(id, o, st, Settle))
  {
    hide Resume, Reconcile, Quiet;
    var st := AwaitingUploadStatus(o, SignedUrl(id, upload.md5, o.version), upload.request);
    assert st.upload.request != o.status.upload.request;
    if Quiet(s, Publish(id, o, st, Settle)) {
      QuietNext(s, Publish(id, o, st, Settle));
    }
    PublishNext(s, id, o, st);
    ReconcileNext(s, Publish(id, o, st, Settle));
    Returned(Serve(s, PutStatus(id, o.version, st)).store, Settle);
  }

  lemma PublishNext(s: Store, id: Id, o: Object, st: Status)
    requires id in s.objects && s.objects[id] == o
    ensures Next(s, Publish(id, o, st, Settle)) == Return(Settle)
  {
  }

  /** A new request for a checksum that the bucket does not hold gets a signed URL; a known one waits. */
  lemma BuilderSigns(s: Store, id: Id, upload: Upload)
    requires id in s.objects && Building(s, id) && Asks(s.objects[id], upload)
    requires !InBucket(s, id, upload.md5) && upload.md5 != ""
    ensures var o := s.objects[id];
            var s' := Reconcile(s, BuilderGet(id)).store;
            if upload.request == o.status.upload.request then s' == s
            else id in s'.objects && SignedFor(id, s'.objects[id], upload) && s'.objects[id].spec == o.spec
                 && Awaits(o, s'.objects[id])
                 && s'.blobs == s.blobs && s'.cfg == s.cfg
    ensures upload.request != s.objects[id].status.upload.request ==> !Quiet(s, BuilderGet(id))
  {
    hide Building, Reconcile, Quiet, Resume, CallOf, Serve, UploadCheck, SignedFor, Awaits;
    var o := s.objects[id];
    UploadStart(s, id, upload);
    CheckNext(s, id, o, upload);
    if upload.request == o.status.upload.request {
      Returned(s, Next(s, UploadCheck(id, o, upload)).outcome);
    } else {
      SignNext(s, id, o, upload);
      Silently(s, UrlSign(id, o, upload));
      SignedPublish(s, id, o, upload);
    }
  }

  /******* The errand of one client *******/

  datatype Errand = Errand(client: nat, id: Id, upload: Upload)

  /** Everybody moves by single steps, and every reconcile by single calls, answered or not. Now and then the build key
      of the errand's object is reconciled in one go. */
  datatype Event = BuildTurn | Single(step: Step)

  predicate Key(e: Errand, t: Ticket) {
    t == Ticket(Builder, e.id)
  }

  ghost predicate Happens(w: World, event: Event, w': World, e: Errand) {
    match event
    case BuildTurn =>
      var t := Ticket(Builder, e.id);
      t in w.dirty && t !in w.active
      && Legal(w, Drain.TurnSteps(w.store, t)) && w' == Execute(w, Drain.TurnSteps(w.store, t))
    case Single(step) => Enabled(w, step) && w' == Apply(w, step)
  }

  ghost predicate Healthy(w: World) {
    Safety.SafeWorld(w) && AllAttended(w) && FrankWorld(w)
  }

  ghost predicate Posted(w: World, e: Errand) {
    e.client in w.clients && w.clients[e.client].id == e.id && w.clients[e.client].md5 == e.upload.md5
    && e.id in w.store.objects && Asks(w.store.objects[e.id], e.upload)
  }

  function PhaseOf(w: World, e: Errand): Phase
    requires e.client in w.clients
  {
    w.clients[e.client].phase
  }

  ghost predicate Observed(w: World, e: Errand)
    requires Posted(w, e)
  {
    Recorded(w.store.objects[e.id], e.upload) && InBucket(w.store, e.id, e.upload.md5)
  }

  /** The copy in flight is the stored object. */
  predicate UpTo(s: Store, id: Id, pc: Pc) {
    id in s.objects && Copy(pc) == Some(s.objects[id])
  }

  /** About to replace what is recorded by a URL. */
  predicate Forgets(pc: Pc) {
    pc.UrlSign? || (pc.Publish? && !SameUpload(pc.local.status, pc.status))
  }

  /** Will still look at the upload as it is now, or fail, or write. */
  predicate Heeds(s: Store, e: Errand, pc: Pc) {
    Doomed(pc) || pc.BuilderGet?
    || (UpTo(s, e.id, pc)
        && (pc.NewUploadCheck? || pc.StoredPut? || (pc.KnownUploadCheck? && InBucket(s, e.id, e.upload.md5))))
  }

  /** The build reconcile in flight is about to forget what is recorded. */
  predicate Forgetting(w: World, e: Errand) {
    var key := Ticket(Builder, e.id);
    key in w.active && UpTo(w.store, e.id, w.active[key]) && Forgets(w.active[key])
  }

  /** The build reconcile in flight is about to record a checksum that the bucket has lost. */
  predicate Misled(w: World, e: Errand) {
    var key := Ticket(Builder, e.id);
    key in w.active && UpTo(w.store, e.id, w.active[key]) && w.active[key].StoredPut?
    && !InBucket(w.store, e.id, e.upload.md5)
  }

  /** The build key is queued, or its reconcile in flight is attentive. */
  predicate Alert(w: World, e: Errand) {
    var key := Ticket(Builder, e.id);
    key in w.dirty || (key in w.active && Heeds(w.store, e, w.active[key]))
  }

  /** How many of the five phases are still to come; six stands for none of them. */
  ghost function PhasesLeft(w: World, e: Errand): nat
    requires Posted(w, e)
  {
    var o, there := w.store.objects[e.id], InBucket(w.store, e.id, e.upload.md5);
    if Observed(w, e) && !Forgetting(w, e) then 0
    else if !Building(w.store, e.id) || Misled(w, e) then 6
    else if there && Alert(w, e) then 1
    else if there && PhaseOf(w, e) == Phase.Stored then 2
    else if SignedFor(e.id, o, e.upload) && PhaseOf(w, e).Holding? then 3
    else if SignedFor(e.id, o, e.upload) && PhaseOf(w, e) == Waiting then 4
    else if PhaseOf(w, e) == Waiting && Alert(w, e) && o.status.upload.request != e.upload.request
            && o.status.upload.stored != e.upload.md5 then 5
    else 6
  }

  ghost predicate Underway(w: World, e: Errand) {
    Posted(w, e) && PhasesLeft(w, e) < 6
  }

  /******* What every event does to the errand *******/

  /** Nothing the errand depends on has moved, except that its key may have been queued, as it is when its object
      changes or its reconcile is lost. */
  ghost predicate Gentle(w: World, w': World, e: Errand) {
    e.id in w.store.objects && e.id in w'.store.objects
    && w'.store.objects[e.id].spec == w.store.objects[e.id].spec && w'.store.cfg == w.store.cfg
    && SameUpload(w.store.objects[e.id].status, w'.store.objects[e.id].status)
    && SameAt(w.store.blobs, w'.store.blobs, e.id)
    && SameAt(w.clients, w'.clients, e.client)
    && (Ticket(Builder, e.id) in w.dirty ==> Ticket(Builder, e.id) in w'.dirty)
    && (SameAt(w.active, w'.active, Ticket(Builder, e.id))
        || (Ticket(Builder, e.id) !in w'.active && Ticket(Builder, e.id) in w'.dirty))
    && (w'.store.objects[e.id] == w.store.objects[e.id] || Ticket(Builder, e.id) in w'.dirty)
  }

  lemma GentleKeeps(w: World, w': World, e: Errand)
    requires Underway(w, e) && Gentle(w, w', e) && TidyWorld(w) && Forward(w.store, w'.store)
    ensures Underway(w', e) && PhasesLeft(w', e) <= PhasesLeft(w, e)
  {
    hide DesiredImage, Forward, TidyWorld, Recorded, SignedFor, SameUpload, Heeds, Forgets, UpTo, InBucket;
    StatusKept(w.store.objects[e.id], w'.store.objects[e.id], e);
    BucketKept(w.store, w'.store, e);
    var key := Ticket(Builder, e.id);
    if key in w'.active {
      assert SameAt(w.active, w'.active, key);
      OwnCopyKept(w, w', e);
      if w'.store.objects[e.id] == w.store.objects[e.id] {
        HeedsKept(w.store, w'.store, e, w.active[key]);
      }
    }
    assert DesiredImage(w'.store.cfg, e.id, w'.store.objects[e.id].spec) ==
           DesiredImage(w.store.cfg, e.id, w.store.objects[e.id].spec);
  }

  lemma BucketKept(s: Store, s': Store, e: Errand)
    requires SameAt(s.blobs, s'.blobs, e.id)
    ensures InBucket(s', e.id, e.upload.md5) == InBucket(s, e.id, e.upload.md5)
  {
  }

  lemma HeedsKept(s: Store, s': Store, e: Errand, pc: Pc)
    requires SameAt(s.blobs, s'.blobs, e.id) && SameAt(s.objects, s'.objects, e.id)
    ensures Heeds(s', e, pc) == Heeds(s, e, pc)
  {
    hide Doomed;
  }

  lemma StatusKept(o: Object, o': Object, e: Errand)
    requires SameUpload(o.status, o'.status)
    ensures o'.status.upload == o.status.upload
    ensures Recorded(o', e.upload) == Recorded(o, e.upload)
    ensures SignedFor(e.id, o', e.upload) == SignedFor(e.id, o, e.upload)
  {
  }

  /** A copy in flight is never a later version than the stored one. */
  lemma OwnCopyKept(w: World, w': World, e: Errand)
    requires TidyWorld(w) && Forward(w.store, w'.store) && e.id in w.store.objects && e.id in w'.store.objects
    requires var key := Ticket(Builder, e.id); key in w'.active ==> key in w.active && w'.active[key] == w.active[key]
    ensures var key := Ticket(Builder, e.id);
            key in w'.active && UpTo(w'.store, e.id, w'.active[key]) ==>
              UpTo(w.store, e.id, w.active[key]) && w'.store.objects[e.id] == w.store.objects[e.id]
  {
    var key := Ticket(Builder, e.id);
    assert key in w.active ==> Tidy(w.store, key, w.active[key]);
  }

  /** What a call of anybody else leaves alone, and whom it wakes when it does write the object. */
  lemma CallGentle(w: World, t: Ticket, id: Id)
    requires TidyWorld(w) && FrankWorld(w) && t in w.active && !w.active[t].Return?
    requires id in w.store.objects && t != Ticket(Builder, id)
    ensures var c := CallOf(w.store.cfg, w.active[t]);
            var s' := Serve(w.store, c).store;
            id in s'.objects && s'.objects[id].spec == w.store.objects[id].spec
            && SameUpload(w.store.objects[id].status, s'.objects[id].status)
            && s'.blobs == w.store.blobs && s'.cfg == w.store.cfg
            && (s'.objects[id] == w.store.objects[id] || Ticket(Builder, id) in Wake(s', Target(c)))
    ensures var c := CallOf(w.store.cfg, w.active[t]);
            !Serve(w.store, c).loud ==> Serve(w.store, c).store == w.store
  {
    hide CallOf, Resume, Serve, Wake, TidyWorld, FrankWorld, SameUpload;
    var s, c := w.store, CallOf(w.store.cfg, w.active[t]);
    var s' := Serve(s, c).store;
    CallSpares(w, t, id);
    BlobsStay(s, c);
    ServeOnlyAt(s, c);
    if Target(c) == ObjectRef(id) {
      WakesBuilder(s', id);
    } else {
      assert SameAt(s.objects, s'.objects, id);
    }
  }

  /** One call of anybody but the errand's build key. */
  lemma ActGentle(w: World, t: Ticket, reply: Reply, e: Errand)
    requires Posted(w, e) && Healthy(w) && Enabled(w, Act(t, reply)) && !Key(e, t)
    ensures Gentle(w, ApplyAct(w, t, reply), e)
  {
    hide ApplyAct, CallOf, Resume, Serve, Wake, Safety.SafeWorld, AllAttended, FrankWorld, Posted, SameUpload;
    PostedThere(w, e);
    ActShape(w, t, reply);
    Drain.SafeIsTidy(w);
    SameUploadItself(w.store.objects[e.id].status);
    CallGentle(w, t, e.id);
  }

  lemma PostedThere(w: World, e: Errand)
    requires Posted(w, e)
    ensures e.id in w.store.objects && e.client in w.clients
  {
  }

  /** A call of another object's reconcile leaves this object alone; a call of its runner leaves spec and upload alone,
      because the version check lets only a genuine copy write. */
  lemma CallSpares(w: World, t: Ticket, id: Id)
    requires TidyWorld(w) && FrankWorld(w) && t in w.active && !w.active[t].Return?
    requires id in w.store.objects && t != Ticket(Builder, id)
    ensures var s' := Serve(w.store, CallOf(w.store.cfg, w.active[t])).store;
            id in s'.objects && s'.objects[id].spec == w.store.objects[id].spec
            && s'.objects[id].stamp == w.store.objects[id].stamp
            && SameUpload(w.store.objects[id].status, s'.objects[id].status)
  {
    hide CallOf, Resume, Serve, Tidy, InView, Sincere, SameUpload;
    var s, pc := w.store, w.active[t];
    var c := CallOf(s.cfg, pc);
    assert Tidy(s, t, pc) && Frank(t, pc);
    SameUploadItself(s.objects[id].status);
    ServeOnlyAt(s, c);
    if Serve(s, c).loud {
      if t.id != id {
        TidyBelongs(s, t, pc);
        OwnTarget(s, t, pc);
        assert SameAt(s.objects, Serve(s, c).store.objects, id);
      } else {
        Drain.OnlyTwo(t);
        RunnerSpares(s, t, pc);
      }
    }
  }

  lemma SameUploadItself(st: Status)
    ensures SameUpload(st, st)
  {
  }

  lemma RunnerSpares(s: Store, t: Ticket, pc: Pc)
    requires Tidy(s, t, pc) && InView(t, pc) && !pc.Return? && t.controller == Runner && t.id in s.objects
    requires Serve(s, CallOf(s.cfg, pc)).loud
    ensures var s' := Serve(s, CallOf(s.cfg, pc)).store;
            t.id in s'.objects && s'.objects[t.id].spec == s.objects[t.id].spec
            && s'.objects[t.id].stamp == s.objects[t.id].stamp
            && SameUpload(s.objects[t.id].status, s'.objects[t.id].status)
  {
    hide Resume, Serve, View, CallOf, InView;
    var c := CallOf(s.cfg, pc);
    TidyBelongs(s, t, pc);
    PutsOwnObject(s.cfg, t, pc);
    SameUploadItself(s.objects[t.id].status);
    if c.PutStatus? || c.PutSpec? {
      GenuineHolds(s, t, pc);
      CallFramed(s, t, pc);
      Drain.OwnView(s, Serve(s, c).store, t);
      assert ObjectFramed(t, t.id, s.objects[t.id], Serve(s, c).store.objects[t.id]);
      ViewIsUpload(t, s.objects[t.id].status, Serve(s, c).store.objects[t.id].status);
    } else {
      OnlyPutsWriteObjects(s, c);
    }
  }

  lemma ViewIsUpload(t: Ticket, st: Status, st': Status)
    requires t.controller == Runner && View(t, st, st')
    ensures SameUpload(st, st')
  {
  }

  /** A write that the version check lets through comes from a copy of the stored object. */
  lemma GenuineHolds(s: Store, t: Ticket, pc: Pc)
    requires Tidy(s, t, pc) && InView(t, pc) && !pc.Return? && Serve(s, CallOf(s.cfg, pc)).loud
    requires CallOf(s.cfg, pc).PutStatus? || CallOf(s.cfg, pc).PutSpec?
    ensures UpToDate(s, t, pc)
  {
    hide Resume, DesiredImage, InView, BucketUrls.Print, ArtifactUrl;
  }

  /** Take and Finish of another key. */
  lemma QueueGentle(w: World, step: Step, e: Errand)
    requires Posted(w, e) && Enabled(w, step) && (step.Take? || step.Finish?) && !Key(e, step.ticket)
    ensures Gentle(w, Apply(w, step), e)
  {
    hide Wake, ChildStore, ApplyPoke, ApplyAct, ApplyUser;
    SameUploadItself(w.store.objects[e.id].status);
  }

  /******* What the build reconcile of the object itself does *******/

  lemma OwnTake(w: World, e: Errand)
    requires Underway(w, e) && Enabled(w, Take(Ticket(Builder, e.id)))
    ensures var w' := Apply(w, Take(Ticket(Builder, e.id)));
            Underway(w', e) && PhasesLeft(w', e) <= PhasesLeft(w, e)
  {
    hide Apply, DesiredImage, Doomed, Recorded, SignedFor, InBucket;
    Drain.TakeOnce(w, Ticket(Builder, e.id));
  }

  lemma OwnFinish(w: World, e: Errand)
    requires Underway(w, e) && Enabled(w, Finish(Ticket(Builder, e.id)))
    ensures var w' := Apply(w, Finish(Ticket(Builder, e.id)));
            Underway(w', e) && PhasesLeft(w', e) <= PhasesLeft(w, e)
  {
    hide Apply, ApplyFinish, DesiredImage, Recorded, SignedFor, InBucket;
    Drain.FinishOnce(w, Ticket(Builder, e.id));
  }

  lemma HeedsLook(s: Store, e: Errand, pc: Pc)
    requires UpTo(s, e.id, pc) && AtUpload(pc) && !pc.UrlSign? && pc.id == e.id && Sincere(e.id, pc)
    requires Asks(s.objects[e.id], e.upload)
    requires InBucket(s, e.id, e.upload.md5) || (pc.NewUploadCheck? && e.upload.md5 != "")
    ensures Heeds(s, e, Next(s, pc))
  {
  }

  lemma HeedsBegin(s: Store, e: Errand)
    requires e.id in s.objects && Building(s, e.id) && Asks(s.objects[e.id], e.upload)
    requires InBucket(s, e.id, e.upload.md5) || s.objects[e.id].status.upload.request != e.upload.request
    ensures Heeds(s, e, Next(s, BuilderGet(e.id)))
  {
    hide DesiredImage;
  }

  lemma HeedsPut(s: Store, e: Errand, pc: Pc)
    requires UpTo(s, e.id, pc) && pc.StoredPut? && pc.id == e.id && Sincere(e.id, pc)
    requires Asks(s.objects[e.id], e.upload) && !Serve(s, CallOf(s.cfg, pc)).loud
    ensures Recorded(s.objects[e.id], e.upload)
  {
  }

  /** An attentive reconcile stays attentive while it writes nothing, unless the upload is recorded. */
  lemma HeedsStep(s: Store, t: Ticket, e: Errand, pc: Pc)
    requires Key(e, t) && Tidy(s, t, pc) && Sincere(e.id, pc) && Heeds(s, e, pc) && !pc.Return? && e.upload.md5 != ""
    requires e.id in s.objects && Building(s, e.id) && Asks(s.objects[e.id], e.upload)
    requires InBucket(s, e.id, e.upload.md5) || s.objects[e.id].status.upload.request != e.upload.request
    ensures Heeds(s, e, Resume(s.cfg, pc, Failed))
    ensures !Serve(s, CallOf(s.cfg, pc)).loud ==>
              Heeds(s, e, Next(s, pc)) || (pc.StoredPut? && UpTo(s, e.id, pc) && Recorded(s.objects[e.id], e.upload))
  {
    hide Doomed, Sincere, Serve, CallOf, Resume, Building, Recorded, InBucket;
    FailureDooms(s, t, pc);
    if !Serve(s, CallOf(s.cfg, pc)).loud {
      if Doomed(pc) {
        DoomedStep(s, t, pc);
      } else if pc.BuilderGet? {
        OwnStart(s, t, pc);
        HeedsBegin(s, e);
      } else if pc.StoredPut? {
        OwnStart(s, t, pc);
        HeedsPut(s, e, pc);
      } else {
        OwnStart(s, t, pc);
        NotSigning(pc);
        HeedsLook(s, e, pc);
      }
    }
  }

  lemma NotSigning(pc: Pc)
    requires !Doomed(pc)
    ensures !pc.UrlSign?
  {
  }

  lemma OwnStart(s: Store, t: Ticket, pc: Pc)
    requires Tidy(s, t, pc) && !pc.Return?
    ensures pc.id == t.id && (pc.BuilderGet? ==> pc == BuilderGet(t.id))
  {
  }

  /** Only a lookup that does not find the checksum makes a reconcile forgetful, and only one that does makes it
      record. */
  lemma TurnsForgetful(s: Store, t: Ticket, pc: Pc, r: Response)
    requires Tidy(s, t, pc) && t.controller == Builder && !pc.Return?
    requires r == Failed || (r == Serve(s, CallOf(s.cfg, pc)).response && !Serve(s, CallOf(s.cfg, pc)).loud)
    ensures var next := Resume(s.cfg, pc, r);
            (UpTo(s, t.id, next) && Forgets(next) ==>
               UpTo(s, t.id, pc)
               && (Forgets(pc) || (pc.NewUploadCheck? && !(r.TheChecksum? && r.md5 == pc.upload.md5))))
            && (UpTo(s, t.id, next) && next.StoredPut? ==>
                  UpTo(s, t.id, pc) && (pc.NewUploadCheck? || pc.KnownUploadCheck?)
                  && ((r.TheChecksum? && r.md5 == pc.upload.md5) || pc.upload.md5 == ""))
  {
    hide DesiredImage, Genuine, ServePut, ServeCreateJob, ServeApplyPod, ServeApplyDeployment, ResumeCompletion;
    hide ResumeNotebook, ResumeServer;
  }

  lemma FoundIsThere(s: Store, e: Errand, pc: Pc)
    requires (pc.NewUploadCheck? || pc.KnownUploadCheck?) && pc.id == e.id && UpTo(s, e.id, pc) && Sincere(e.id, pc)
    requires Asks(s.objects[e.id], e.upload)
    ensures pc.upload == e.upload && !Serve(s, CallOf(s.cfg, pc)).loud
    ensures var r := Serve(s, CallOf(s.cfg, pc)).response;
            (r.TheChecksum? && r.md5 == pc.upload.md5) <==> InBucket(s, e.id, e.upload.md5)
  {
  }

  /** A call of the build reconcile that writes nothing. */
  lemma OwnSilent(w: World, reply: Reply, e: Errand)
    requires Underway(w, e) && Healthy(w) && |e.upload.md5| == 32
    requires Enabled(w, Act(Ticket(Builder, e.id), reply)) && Polite(w, Single(Act(Ticket(Builder, e.id), reply)), e)
    requires reply.Dropped? || !Serve(w.store, CallOf(w.store.cfg, w.active[Ticket(Builder, e.id)])).loud
    ensures var w' := ApplyAct(w, Ticket(Builder, e.id), reply);
            Underway(w', e) && PhasesLeft(w', e) <= PhasesLeft(w, e)
  {
    hide CallOf, Resume, Serve, Doomed, Tidy, Sincere, InView, Safety.SafeWorld, AllAttended, Building, Forgets, Heeds;
    hide Recorded, SignedFor, InBucket, Genuine;
    var key := Ticket(Builder, e.id);
    var s, pc := w.store, w.active[key];
    var c := CallOf(s.cfg, pc);
    var r := Answer(w, c, reply);
    var w' := ApplyAct(w, key, reply);
    Drain.SafeIsTidy(w);
    assert Tidy(s, key, pc) && Frank(key, pc);
    OwnStart(s, key, pc);
    TurnsForgetful(s, key, pc, r);
    if (pc.NewUploadCheck? || pc.KnownUploadCheck?) && UpTo(s, e.id, pc) {
      FoundIsThere(s, e, pc);
    }
    assert w'.store == s && w'.dirty == w.dirty && w'.clients == w.clients;
    if PhasesLeft(w, e) in {1, 5} && key !in w.dirty {
      HeedsStep(s, key, e, pc);
      RecordingTells(s.objects[e.id], e, pc);
    }
  }

  lemma RecordingTells(o: Object, e: Errand, pc: Pc)
    ensures Recorded(o, e.upload) ==> o.status.upload.stored == e.upload.md5
    ensures pc.StoredPut? ==> !Forgets(pc)
  {
  }

  lemma StatusTells(o: Object, e: Errand)
    ensures SignedFor(e.id, o, e.upload) ==> !Recorded(o, e.upload) && o.status.upload.request == e.upload.request
    ensures Recorded(o, e.upload) ==> o.status.upload.stored == e.upload.md5
  {
  }

  /** One of the three effects that a write of the build reconcile can have. */
  ghost predicate Wrote(o: Object, o': Object, e: Errand, pc: Pc) {
    (pc.Publish? && Forgets(pc) && o'.spec == o.spec && SignedFor(e.id, o', e.upload)
     && o.status.upload.request != e.upload.request)
    || ((pc.StoredPut? || (pc.ImagePut? && Recorded(o, e.upload))) && Recorded(o', e.upload))
    || (o'.spec == o.spec && SameUpload(o.status, o'.status))
  }

  /** What a write of the build reconcile does to its own object. */
  lemma OwnEffect(s: Store, t: Ticket, e: Errand, pc: Pc)
    requires Key(e, t) && Tidy(s, t, pc) && Frank(t, pc) && !pc.Return? && Serve(s, CallOf(s.cfg, pc)).loud
    requires e.id in s.objects && Asks(s.objects[e.id], e.upload)
    ensures var s' := Serve(s, CallOf(s.cfg, pc)).store;
            e.id in s'.objects && s'.cfg == s.cfg && s'.blobs == s.blobs && Asks(s'.objects[e.id], e.upload)
            && var o, o' := s.objects[e.id], s'.objects[e.id];
               Wrote(o, o', e, pc) && (UpTo(s, e.id, pc) || (o'.spec == o.spec && SameUpload(o.status, o'.status)))
  {
    hide CallOf, Resume, Serve, InView, Tidy, Genuine, Sincere, Recorded, SignedFor, SameUpload;
    var c := CallOf(s.cfg, pc);
    OwnStart(s, t, pc);
    BlobsStay(s, c);
    TidyBelongs(s, t, pc);
    SameUploadItself(s.objects[e.id].status);
    if c.PutStatus? || c.PutSpec? {
      GenuineHolds(s, t, pc);
      PutsOwnObject(s.cfg, t, pc);
      PutEffect(s, e, pc);
    } else {
      OnlyPutsWriteObjects(s, c);
    }
  }

  lemma PutEffect(s: Store, e: Errand, pc: Pc)
    requires UpToDate(s, Ticket(Builder, e.id), pc) && Sincere(e.id, pc) && !pc.Return?
    requires CallOf(s.cfg, pc).PutStatus? || CallOf(s.cfg, pc).PutSpec?
    requires Serve(s, CallOf(s.cfg, pc)).loud && e.id in s.objects && Asks(s.objects[e.id], e.upload)
    ensures var s' := Serve(s, CallOf(s.cfg, pc)).store;
            e.id in s'.objects && Asks(s'.objects[e.id], e.upload) && UpTo(s, e.id, pc)
            && Wrote(s.objects[e.id], s'.objects[e.id], e, pc)
  {
    hide CallOf, Serve, Resume, InView, Recorded, SignedFor, SameUpload;
    PutDoes(s, e.id, pc);
    assert RecordedIn(s.objects[e.id].status, e.upload) ==> Recorded(s.objects[e.id], e.upload) by {
      StatusIs(s.objects[e.id], e);
    }
    var o' := Serve(s, CallOf(s.cfg, pc)).store.objects[e.id];
    StatusIs(o', e);
  }

  lemma StatusIs(o: Object, e: Errand)
    ensures RecordedIn(o.status, e.upload) == Recorded(o, e.upload)
    ensures SignedIn(e.id, o.status, e.upload) == SignedFor(e.id, o, e.upload)
  {
  }

  /** A write of an up-to-date build reconcile replaces the image, or the status. */
  lemma PutDoes(s: Store, id: Id, pc: Pc)
    requires UpToDate(s, Ticket(Builder, id), pc) && !pc.Return? && Serve(s, CallOf(s.cfg, pc)).loud
    requires CallOf(s.cfg, pc).PutStatus? || CallOf(s.cfg, pc).PutSpec?
    ensures var s' := Serve(s, CallOf(s.cfg, pc)).store;
            id in s.objects && id in s'.objects && UpTo(s, id, pc) && (pc.ImagePut? || pc.StoredPut? || pc.Publish?)
            && var o, o' := s.objects[id], s'.objects[id];
               if pc.ImagePut? then o'.status == o.status && SameButImage(o.spec, o'.spec)
               else o'.spec == o.spec && o'.status == pc.status
  {
    hide Resume, DesiredImage, InView;
  }

  /** After a write, a build reconcile neither forgets nor records. */
  lemma AfterWrite(s: Store, t: Ticket, pc: Pc, r: Response)
    requires Tidy(s, t, pc) && t.controller == Builder && !pc.Return? && Serve(s, CallOf(s.cfg, pc)).loud
    ensures !Forgets(Resume(s.cfg, pc, r)) && !Resume(s.cfg, pc, r).StoredPut?
  {
    hide DesiredImage, Genuine, ServePut, ServeCreateJob, ServeApplyPod, ServeApplyDeployment, ResumeCompletion;
    hide ResumeNotebook, ResumeServer;
  }

  /** No phase is lost when the build reconcile has written and its key is queued. */
  lemma WriteKeeps(w: World, w': World, e: Errand)
    requires Underway(w, e) && e.id in w'.store.objects && Asks(w'.store.objects[e.id], e.upload)
    requires w'.store.cfg == w.store.cfg && w'.store.blobs == w.store.blobs && w'.clients == w.clients
    requires var key := Ticket(Builder, e.id);
             key in w.active && key in w'.active && key in w'.dirty
             && !Forgets(w'.active[key]) && !w'.active[key].StoredPut?
             && var o, o' := w.store.objects[e.id], w'.store.objects[e.id];
                Wrote(o, o', e, w.active[key])
                && (UpTo(w.store, e.id, w.active[key]) || (o'.spec == o.spec && SameUpload(o.status, o'.status)))
    ensures Underway(w', e) && PhasesLeft(w', e) <= PhasesLeft(w, e)
  {
    hide DesiredImage, Recorded, SignedFor, SameUpload, Forgets, UpTo, InBucket, Heeds;
    var o, o' := w.store.objects[e.id], w'.store.objects[e.id];
    BucketKept(w.store, w'.store, e);
    StatusTells(o, e);
    StatusTells(o', e);
    if o'.spec == o.spec {
      assert DesiredImage(w'.store.cfg, e.id, o'.spec) == DesiredImage(w.store.cfg, e.id, o.spec);
      if SameUpload(o.status, o'.status) {
        StatusKept(o, o', e);
      }
    }
  }

  /** A call of the build reconcile that writes: it queues its own key. */
  lemma OwnLoud(w: World, reply: Reply, e: Errand)
    requires Underway(w, e) && Healthy(w) && Enabled(w, Act(Ticket(Builder, e.id), reply))
    requires !reply.Dropped? && Serve(w.store, CallOf(w.store.cfg, w.active[Ticket(Builder, e.id)])).loud
    ensures var w' := ApplyAct(w, Ticket(Builder, e.id), reply);
            Underway(w', e) && PhasesLeft(w', e) <= PhasesLeft(w, e)
  {
    hide CallOf, Resume, Serve, Tidy, Sincere, InView, Safety.SafeWorld, AllAttended, Wrote, UpTo, Wake, PhasesLeft;
    hide Forgets, SameUpload, Asks, InBucket;
    var key := Ticket(Builder, e.id);
    var s, pc := w.store, w.active[key];
    var w' := ApplyAct(w, key, reply);
    Drain.SafeIsTidy(w);
    assert Tidy(s, key, pc) && Frank(key, pc);
    OwnEffect(s, key, e, pc);
    AfterWrite(s, key, pc, Answer(w, CallOf(s.cfg, pc), reply));
    LoudWakesActor(w, key);
    WriteKeeps(w, w', e);
  }

  /** The turn of the build controller never loses a phase, ends phase 5 and phase 1. */
  lemma BuilderTurn(w: World, w': World, e: Errand)
    requires Underway(w, e) && |e.upload.md5| == 32 && Happens(w, BuildTurn, w', e)
    ensures Underway(w', e) && PhasesLeft(w', e) <= PhasesLeft(w, e)
    ensures PhasesLeft(w, e) in {1, 5} ==> PhasesLeft(w', e) < PhasesLeft(w, e)
  {
    hide Reconcile, Legal, Execute, Drain.TurnSteps, Quiet, ImageUrl;
    var t := Ticket(Builder, e.id);
    Drain.TurnEffect(w, t);
    if !Building(w.store, e.id) {
      FinishedBuild(w.store, e.id);
    } else if InBucket(w.store, e.id, e.upload.md5) {
      BuilderRecords(w.store, e.id, e.upload);
    } else {
      BuilderSigns(w.store, e.id, e.upload);
    }
  }

  lemma FinishedBuild(s: Store, id: Id)
    requires id in s.objects && !Building(s, id)
    ensures Reconcile(s, BuilderGet(id)).store == s
  {
    hide ImageUrl, Reconcile;
    assert Next(s, BuilderGet(id)) == Return(Settle);
    Silently(s, BuilderGet(id));
    Returned(s, Settle);
  }

  /** Nobody else edits or removes the object or writes its upload, the client's own poke changes the text of the
      timestamp, and once the upload is recorded, no lookup for a new request fails: such a failure would be taken for
      an empty bucket. */
  predicate Polite(w: World, event: Event, e: Errand)
    requires e.id in w.store.objects
  {
    event.Single? ==>
      match event.step
      case Edit(id, _) => id != e.id
      case Remove(id) => id != e.id
      case Puts(c) =>
        c != e.client && c in w.clients && w.clients[c].phase.Holding? ==> w.clients[c].phase.url.target != e.id
      case Pokes(c, stamp) => c == e.client ==> stamp != w.store.objects[e.id].stamp
      case Act(t, reply) =>
        (Key(e, t) && t in w.active && w.active[t].NewUploadCheck? && Recorded(w.store.objects[e.id], e.upload)
         && InBucket(w.store, e.id, e.upload.md5))
        ==> reply.Delivered?
      case _ => true
  }

  lemma UserGentle(w: World, step: Step, e: Errand)
    requires Posted(w, e) && Enabled(w, step) && UserStep(step) && Polite(w, Single(step), e)
    ensures Gentle(w, Apply(w, step), e)
  {
    hide Apply, Wake, SameUpload, Posted;
    PostedThere(w, e);
    SameUploadItself(w.store.objects[e.id].status);
    UserIsApply(w, step);
  }

  lemma UserIsApply(w: World, step: Step)
    requires Enabled(w, step) && UserStep(step)
    ensures Apply(w, step) == ApplyUser(w, step)
  {
    hide ApplyUser;
  }

  lemma ChildGentle(w: World, step: Step, e: Errand)
    requires Posted(w, e) && Enabled(w, step) && ChildStep(step)
    ensures Gentle(w, Apply(w, step), e)
  {
    hide Wake, SameUpload, ApplyAct, ApplyPut, ApplyPoke, ApplyFinish, ApplyUser, Reaction, Posted;
    PostedThere(w, e);
    SameUploadItself(w.store.objects[e.id].status);
    var s' := ChildStore(w, step);
    assert Apply(w, step) == Changed(w, s', ChildRef(step));
    assert s'.objects == w.store.objects && s'.blobs == w.store.blobs && s'.cfg == w.store.cfg;
  }

  lemma OthersGentle(w: World, step: Step, e: Errand)
    requires Posted(w, e) && Enabled(w, step)
    requires step.Restart? || step.Join? || (step.Sees? && step.client != e.client)
    ensures Gentle(w, Apply(w, step), e)
  {
    hide Wake, Reaction, ChildStore, ApplyPoke, ApplyAct, ApplyUser;
  }

  lemma OthersPut(w: World, c: nat, e: Errand)
    requires Posted(w, e) && Enabled(w, Puts(c)) && Polite(w, Single(Puts(c)), e) && c != e.client
    ensures Gentle(w, Apply(w, Puts(c)), e)
  {
    hide Wake;
  }

  lemma WakesBuilder(s: Store, id: Id)
    ensures Ticket(Builder, id) in Wake(s, ObjectRef(id))
  {
    hide Dependents;
  }

  lemma OthersPoke(w: World, c: nat, stamp: string, e: Errand)
    requires Posted(w, e) && Enabled(w, Pokes(c, stamp)) && c != e.client
    ensures Gentle(w, Apply(w, Pokes(c, stamp)), e)
  {
    hide Wake, SameUpload, ApplyAct, ApplyUser, ApplyPut, ApplyFinish, ChildStore, Reaction, Posted;
    PostedThere(w, e);
    WakesBuilder(Apply(w, Pokes(c, stamp)).store, e.id);
    SameUploadItself(w.store.objects[e.id].status);
  }

  lemma OwnPoke(w: World, stamp: string, e: Errand)
    requires Underway(w, e) && Enabled(w, Pokes(e.client, stamp)) && Polite(w, Single(Pokes(e.client, stamp)), e)
    requires TidyWorld(w) && Forward(w.store, Apply(w, Pokes(e.client, stamp)).store)
    ensures var w' := Apply(w, Pokes(e.client, stamp));
            Underway(w', e) && PhasesLeft(w', e) <= PhasesLeft(w, e)
            && (PhasesLeft(w, e) == 2 ==> PhasesLeft(w', e) < 2)
  {
    hide ImageUrl, Dependents, Doomed, Recorded, SignedFor, InBucket, Forgets, Heeds, Forward, TidyWorld;
    var w' := Apply(w, Pokes(e.client, stamp));
    assert DesiredImage(w'.store.cfg, e.id, w'.store.objects[e.id].spec) ==
           DesiredImage(w.store.cfg, e.id, w.store.objects[e.id].spec);
    assert Ticket(Builder, e.id) in w'.dirty;
    BucketKept(w.store, w'.store, e);
    SameUploadItself(w.store.objects[e.id].status);
    StatusKept(w.store.objects[e.id], w'.store.objects[e.id], e);
    OwnCopyKept(w, w', e);
  }

  /** The URL a client holds is the upload URL of its own object. */
  lemma HeldTarget(w: World, c: nat)
    requires Safety.SafeWorld(w) && c in w.clients && w.clients[c].phase.Holding?
    ensures w.clients[c].phase.url.target == w.clients[c].id
  {
    hide Safety.PcSound, Safety.JobSound, Safety.ReadySound;
    var client := w.clients[c];
    assert Safety.ClientSound(w.past, client);
    var o :| Version(client.id, o) in w.past && o.status.upload.url == Some(client.phase.url);
    assert Safety.StatusSound(w.past, client.id, o.status);
  }

  lemma OwnPut(w: World, e: Errand)
    requires Underway(w, e) && Enabled(w, Puts(e.client)) && Safety.SafeWorld(w)
    ensures var w' := Apply(w, Puts(e.client));
            Underway(w', e) && PhasesLeft(w', e) <= PhasesLeft(w, e)
            && (PhasesLeft(w, e) == 3 ==> PhasesLeft(w', e) < 3)
  {
    hide ImageUrl, Safety.SafeWorld;
    HeldTarget(w, e.client);
  }

  /** What the watch of the client may deliver: versions since the run began. */
  ghost predicate Fresh(o: Object, e: Errand) {
    Asks(o, e.upload)
    && (SignedFor(e.id, o, e.upload)
        || (o.status.upload.request != e.upload.request && o.status.upload.stored != e.upload.md5))
  }

  lemma OwnSight(w: World, o: Object, e: Errand)
    requires Underway(w, e) && Enabled(w, Sees(e.client, o)) && e.upload.md5 != ""
    requires PhasesLeft(w, e) in {4, 5} ==> Fresh(o, e)
    requires PhasesLeft(w, e) == 5 ==> o.status.upload.request != e.upload.request
    ensures var w' := Apply(w, Sees(e.client, o));
            Underway(w', e) && PhasesLeft(w', e) <= PhasesLeft(w, e)
            && (PhasesLeft(w, e) == 4 && SignedFor(e.id, o, e.upload) ==> PhasesLeft(w', e) < 4)
  {
    hide ImageUrl;
  }

  /******* Infinite runs *******/

  /** A run of events in which nobody interferes with the errand and the watch delivers versions of this run. */
  ghost predicate ErrandRun(run: nat -> World, event: nat -> Event, e: Errand) {
    forall n: nat ::
      Happens(run(n), event(n), run(n + 1), e)
      && (e.id in run(n).store.objects ==> Polite(run(n), event(n), e))
      && (event(n).Single? && event(n).step.Sees? && event(n).step.client == e.client ==>
            exists k: nat :: k <= n && VersionAt(run(k), e, event(n).step.version))
  }

  predicate VersionAt(w: World, e: Errand, o: Object) {
    e.id in w.store.objects && w.store.objects[e.id] == o
  }

  predicate Pays(event: Event, c: nat) {
    event.Single? && event.step.Pokes? && event.step.client == c
  }

  ghost predicate TurnsAgain(event: nat -> Event, n: nat) {
    exists m: nat :: n <= m && event(m) == BuildTurn
  }

  ghost predicate NeverQueued(run: nat -> World, e: Errand, n: nat) {
    forall m: nat :: n <= m ==> Ticket(Builder, e.id) !in run(m).dirty
  }

  ghost predicate EndsInFlight(run: nat -> World, e: Errand, n: nat) {
    exists m: nat :: n <= m && Ticket(Builder, e.id) !in run(m).active
  }

  /** The build key gets a turn of its own again and again, unless it is queued no more; its reconciles end; a waiting
      client is in the end shown every version; a client that holds a URL uses it before it expires, and a client that
      has used it pokes the object. */
  ghost predicate Fair(run: nat -> World, event: nat -> Event, e: Errand) {
    ((forall n: nat :: TurnsAgain(event, n)) || (exists k: nat :: NeverQueued(run, e, k)))
    && (forall n: nat :: EndsInFlight(run, e, n))
    && (forall n: nat :: Posted(run(n), e) && PhaseOf(run(n), e) == Waiting ==>
          exists m: nat :: n <= m && (event(m) == Single(Sees(e.client, run(n).store.objects[e.id]))
                                      || (e.client in run(m).clients && PhaseOf(run(m), e) != Waiting)))
    && (forall n: nat :: Posted(run(n), e) && PhaseOf(run(n), e).Holding? ==>
          exists m: nat :: n <= m && event(m) == Single(Puts(e.client)))
    && (forall n: nat :: Posted(run(n), e) && PhaseOf(run(n), e) == Phase.Stored ==>
          exists m: nat :: n <= m && Pays(event(m), e.client))
  }

  lemma HealthyRun(w: World, steps: seq<Step>)
    requires Healthy(w) && Legal(w, steps)
    ensures Healthy(Execute(w, steps))
  {
    hide Safety.SafeWorld, AllAttended, FrankWorld, Apply;
    Drain.SafeIsTidy(w);
    Safety.SafeRun(w, steps);
    RunAttends(w, steps);
    FrankRun(w, steps);
  }

  lemma HealthyStep(w: World, event: Event, w': World, e: Errand)
    requires Healthy(w) && Happens(w, event, w', e)
    ensures Healthy(w')
  {
    hide Healthy, Apply, Drain.TurnSteps;
    if event.BuildTurn? {
      HealthyRun(w, Drain.TurnSteps(w.store, Ticket(Builder, e.id)));
    } else {
      Drain.Once(w, event.step);
      HealthyRun(w, [event.step]);
    }
  }

  lemma ActIsApply(w: World, step: Step)
    requires Enabled(w, step) && step.Act?
    ensures Apply(w, step) == ApplyAct(w, step.ticket, step.reply)
  {
  }

  /** The steps of the build key of the object itself. */
  lemma OwnKeeps(w: World, step: Step, e: Errand)
    requires Underway(w, e) && Healthy(w) && |e.upload.md5| == 32 && Enabled(w, step) && Polite(w, Single(step), e)
    requires (step.Act? || step.Take? || step.Finish?) && Key(e, step.ticket)
    ensures Underway(Apply(w, step), e) && PhasesLeft(Apply(w, step), e) <= PhasesLeft(w, e)
  {
    hide Apply, PhasesLeft, Healthy, CallOf, Serve, Polite;
    if step.Act? {
      ActIsApply(w, step);
      if step.reply.Dropped? || !Serve(w.store, CallOf(w.store.cfg, w.active[step.ticket])).loud {
        OwnSilent(w, step.reply, e);
      } else {
        OwnLoud(w, step.reply, e);
      }
    } else if step.Take? {
      OwnTake(w, e);
    } else {
      OwnFinish(w, e);
    }
  }

  lemma SinglesKeep(w: World, step: Step, e: Errand)
    requires Underway(w, e) && Healthy(w) && |e.upload.md5| == 32
    requires Enabled(w, step) && Polite(w, Single(step), e)
    requires step.Sees? && step.client == e.client && PhasesLeft(w, e) in {4, 5} ==> Fresh(step.version, e)
    requires step.Sees? && step.client == e.client && PhasesLeft(w, e) == 5 ==>
               step.version.status.upload.request != e.upload.request
    ensures var w' := Apply(w, step);
            Underway(w', e) && PhasesLeft(w', e) <= PhasesLeft(w, e)
            && (PhasesLeft(w, e) == 4 && step.Sees? && step.client == e.client
                && SignedFor(e.id, step.version, e.upload)
                ==> PhasesLeft(w', e) < 4)
            && (PhasesLeft(w, e) == 3 && step == Puts(e.client) ==> PhasesLeft(w', e) < 3)
            && (PhasesLeft(w, e) == 2 && Pays(Single(step), e.client) ==> PhasesLeft(w', e) < 2)
  {
    hide Apply, PhasesLeft, Safety.SafeWorld, AllAttended, FrankWorld, Gentle, Fresh, SignedFor, Asks;
    var w' := Apply(w, step);
    Drain.SafeIsTidy(w);
    TidyWorldStep(w, step);
    if (step.Act? || step.Take? || step.Finish?) && Key(e, step.ticket) {
      OwnKeeps(w, step, e);
    } else if step.Act? {
      ActIsApply(w, step);
      ActGentle(w, step.ticket, step.reply, e);
      GentleKeeps(w, w', e);
    } else if step.Take? || step.Finish? {
      QueueGentle(w, step, e);
      GentleKeeps(w, w', e);
    } else if UserStep(step) {
      UserGentle(w, step, e);
      GentleKeeps(w, w', e);
    } else if ChildStep(step) {
      ChildGentle(w, step, e);
      GentleKeeps(w, w', e);
    } else if step.Sees? && step.client == e.client {
      OwnSight(w, step.version, e);
    } else if step.Puts? && step.client == e.client {
      OwnPut(w, e);
    } else if step.Pokes? && step.client == e.client {
      OwnPoke(w, step.stamp, e);
    } else {
      if step.Puts? {
        OthersPut(w, step.client, e);
      } else if step.Pokes? {
        OthersPoke(w, step.client, step.stamp, e);
      } else {
        OthersGentle(w, step, e);
      }
      GentleKeeps(w, w', e);
    }
  }

  ghost predicate Started(run: nat -> World, event: nat -> Event, e: Errand) {
    ErrandRun(run, event, e) && Healthy(run(0)) && Underway(run(0), e) && |e.upload.md5| == 32
  }

  /** Phases are never lost. */
  lemma {:induction false} PhasesFall(run: nat -> World, event: nat -> Event, e: Errand, n: nat, k: nat)
    requires Started(run, event, e) && k <= n
    ensures Healthy(run(n)) && Underway(run(n), e) && Underway(run(k), e)
    ensures PhasesLeft(run(n), e) <= PhasesLeft(run(k), e)
    decreases n, 0
  {
    hide Happens, Healthy, PhasesLeft, Polite;
    if n > 0 {
      PhasesFall(run, event, e, n - 1, if k < n then k else n - 1);
      EventKeeps(run, event, e, n - 1);
    }
  }

  /** The event that the current phase waits for. */
  ghost predicate Ends(w: World, event: Event, e: Errand)
    requires Posted(w, e)
  {
    match PhasesLeft(w, e)
    case 5 => event == BuildTurn
    case 4 =>
      event.Single? && event.step.Sees? && event.step.client == e.client
      && SignedFor(e.id, event.step.version, e.upload)
    case 3 => event == Single(Puts(e.client))
    case 2 => Pays(event, e.client)
    case 1 => event == BuildTurn
    case _ => false
  }

  lemma FreshThen(w: World, e: Errand)
    requires Underway(w, e) && PhasesLeft(w, e) in {4, 5}
    ensures Fresh(w.store.objects[e.id], e)
    ensures PhasesLeft(w, e) == 5 <==> w.store.objects[e.id].status.upload.request != e.upload.request
  {
  }

  lemma {:induction false} SeenIsFresh(run: nat -> World, event: nat -> Event, e: Errand, n: nat)
    requires Started(run, event, e) && Underway(run(n), e)
    requires event(n).Single? && event(n).step.Sees? && event(n).step.client == e.client
    ensures PhasesLeft(run(n), e) in {4, 5} ==> Fresh(event(n).step.version, e)
    ensures PhasesLeft(run(n), e) == 5 ==> event(n).step.version.status.upload.request != e.upload.request
    decreases n, 1
  {
    hide Happens, Healthy, PhasesLeft, Polite, Fresh, SignedFor;
    var k: nat :| k <= n && VersionAt(run(k), e, event(n).step.version);
    PhasesFall(run, event, e, n, k);
    if PhasesLeft(run(n), e) in {4, 5} {
      FreshThen(run(k), e);
    }
  }

  /** One event: no phase is lost, and the event a phase waits for ends it. */
  lemma {:induction false} EventKeeps(run: nat -> World, event: nat -> Event, e: Errand, n: nat)
    requires Started(run, event, e) && Healthy(run(n)) && Underway(run(n), e)
    ensures Healthy(run(n + 1)) && Underway(run(n + 1), e)
    ensures PhasesLeft(run(n + 1), e) <= PhasesLeft(run(n), e)
    ensures Ends(run(n), event(n), e) ==> PhasesLeft(run(n + 1), e) < PhasesLeft(run(n), e)
    decreases n, 2
  {
    hide Healthy, PhasesLeft, Polite, Apply, Fresh, SignedFor, Asks;
    var w, w' := run(n), run(n + 1);
    assert Happens(w, event(n), w', e);
    HealthyStep(w, event(n), w', e);
    match event(n) {
      case BuildTurn => BuilderTurn(w, w', e);
      case Single(step) =>
        if step.Sees? && step.client == e.client {
          SeenIsFresh(run, event, e, n);
        }
        SinglesKeep(w, step, e);
    }
  }

  /** A key that is queued no more has been worked off. */
  lemma NoMoreTurns(run: nat -> World, event: nat -> Event, e: Errand, n: nat) returns (m: nat)
    requires Started(run, event, e) && Fair(run, event, e) && exists k: nat :: NeverQueued(run, e, k)
    requires Underway(run(n), e) && PhasesLeft(run(n), e) in {1, 5}
    ensures n <= m && Underway(run(m), e) && PhasesLeft(run(m), e) < PhasesLeft(run(n), e)
  {
    hide Happens, Healthy, Polite, ErrandRun, PhasesLeft;
    var k: nat :| NeverQueued(run, e, k);
    var from := if n < k then k else n;
    assert EndsInFlight(run, e, from);
    m :| from <= m && Ticket(Builder, e.id) !in run(m).active;
    PhasesFall(run, event, e, m, n);
    NotAlert(run(m), e);
  }

  lemma NotAlert(w: World, e: Errand)
    requires Underway(w, e) && Ticket(Builder, e.id) !in w.dirty && Ticket(Builder, e.id) !in w.active
    ensures PhasesLeft(w, e) !in {1, 5}
  {
  }

  /** While phases are left, fairness brings the event that ends the current one. */
  lemma NextPhase(run: nat -> World, event: nat -> Event, e: Errand, n: nat) returns (m: nat)
    requires Started(run, event, e) && Fair(run, event, e)
    requires Underway(run(n), e) && PhasesLeft(run(n), e) > 0
    ensures n <= m && Underway(run(m), e) && PhasesLeft(run(m), e) < PhasesLeft(run(n), e)
  {
    hide Happens, Healthy, Polite, ErrandRun, SignedFor, Asks, Recorded, InBucket, Building, Forgetting, Misled, Heeds;
    var left := PhasesLeft(run(n), e);
    if left in {1, 5} && exists k: nat :: NeverQueued(run, e, k) {
      m := NoMoreTurns(run, event, e, n);
      return;
    }
    if left == 4 {
      m :| n <= m && (event(m) == Single(Sees(e.client, run(n).store.objects[e.id]))
                      || (e.client in run(m).clients && PhaseOf(run(m), e) != Waiting));
    } else if left == 3 {
      m :| n <= m && event(m) == Single(Puts(e.client));
    } else if left == 2 {
      m :| n <= m && Pays(event(m), e.client);
    } else {
      assert TurnsAgain(event, n);
      m :| n <= m && event(m) == BuildTurn;
    }
    PhasesFall(run, event, e, m, n);
    if PhasesLeft(run(m), e) == left {
      EventKeeps(run, event, e, m);
      m := m + 1;
    }
  }

  lemma {:induction false} Finishes(run: nat -> World, event: nat -> Event, e: Errand, n: nat) returns (end: nat)
    requires Started(run, event, e) && Fair(run, event, e) && Underway(run(n), e)
    ensures n <= end && Underway(run(end), e) && PhasesLeft(run(end), e) == 0
    decreases PhasesLeft(run(n), e)
  {
    hide Happens, Healthy, PhasesLeft, Polite, ErrandRun, Fair;
    if PhasesLeft(run(n), e) == 0 {
      end := n;
    } else {
      var m := NextPhase(run, event, e, n);
      end := Finishes(run, event, e, m);
    }
  }

  /** Any state of the handshake from which it can still complete: recorded and not about to be forgotten; uploaded, and
      to be poked or looked at; holding the URL; waiting for a URL that is signed or still to be signed. */
  ghost predicate Open(w: World, e: Errand)
    requires Posted(w, e)
  {
    var o, upload := w.store.objects[e.id], w.store.objects[e.id].status.upload;
    (Observed(w, e) && !Forgetting(w, e))
    || (Building(w.store, e.id) && !Misled(w, e)
        && ((InBucket(w.store, e.id, e.upload.md5)
             && (PhaseOf(w, e) == Phase.Stored || e.id !in w.owed || Alert(w, e)))
            || (SignedFor(e.id, o, e.upload) && (PhaseOf(w, e).Holding? || PhaseOf(w, e) == Waiting))
            || (PhaseOf(w, e) == Waiting && (e.id !in w.owed || Alert(w, e))
                && upload.request != e.upload.request && upload.stored != e.upload.md5)))
  }

  /** From any reachable state in which the handshake is open, whatever reconciles are in flight, every fair run in
      which nobody interferes reaches Uploaded=True with the client's checksum, and stays there for ever. */
  lemma HandshakeCompletes(cfg: Config, steps: seq<Step>, run: nat -> World, event: nat -> Event, e: Errand)
      returns (end: nat)
    requires Legal(Initial(cfg), steps) && run(0) == Execute(Initial(cfg), steps)
    requires ErrandRun(run, event, e) && Fair(run, event, e)
    requires Posted(run(0), e) && Open(run(0), e)
    ensures forall n: nat :: end <= n ==>
              e.id in run(n).store.objects && Recorded(run(n).store.objects[e.id], e.upload)
              && InBucket(run(n).store, e.id, e.upload.md5)
  {
    hide Happens, Polite, ErrandRun, Fair, PhasesLeft, Recorded, Open, Healthy;
    var w := run(0);
    ReachableHealthy(cfg, steps);
    assert |w.clients[e.client].md5| == 32 by { ClientChecksum(w, e.client); }
    StartUnderway(w, e);
    end := Finishes(run, event, e, 0);
    forall n: nat | end <= n
      ensures e.id in run(n).store.objects && Recorded(run(n).store.objects[e.id], e.upload)
              && InBucket(run(n).store, e.id, e.upload.md5)
    {
      PhasesFall(run, event, e, n, end);
      NoneLeft(run(n), e);
    }
  }

  lemma ReachableHealthy(cfg: Config, steps: seq<Step>)
    requires Legal(Initial(cfg), steps)
    ensures Healthy(Execute(Initial(cfg), steps))
  {
    var w := Initial(cfg);
    forall t ensures Attended(w, t) {
      AbsentIsQuiet(w.store, t);
    }
    HealthyRun(w, steps);
  }

  lemma NoneLeft(w: World, e: Errand)
    requires Underway(w, e) && PhasesLeft(w, e) == 0
    ensures Observed(w, e)
  {
  }

  lemma ClientChecksum(w: World, c: nat)
    requires Healthy(w) && c in w.clients
    ensures |w.clients[c].md5| == 32
  {
  }

  /** Why a misled reconcile closes the handshake: its next call records a checksum that the bucket no longer holds. */
  lemma MisledRecords(w: World, e: Errand)
    requires Healthy(w) && e.id in w.store.objects && Asks(w.store.objects[e.id], e.upload) && Misled(w, e)
    ensures var w' := ApplyAct(w, Ticket(Builder, e.id), Delivered);
            e.id in w'.store.objects && Recorded(w'.store.objects[e.id], e.upload)
            && !InBucket(w'.store, e.id, e.upload.md5)
  {
    hide CallOf, Resume, Serve, InView, Safety.SafeWorld, AllAttended, Recorded, Genuine, Wake;
    var key := Ticket(Builder, e.id);
    var s, pc := w.store, w.active[key];
    Drain.SafeIsTidy(w);
    assert Tidy(s, key, pc) && Frank(key, pc);
    OwnStart(s, key, pc);
    BlobsStay(s, CallOf(s.cfg, pc));
    if Serve(s, CallOf(s.cfg, pc)).loud {
      StoredPuts(s, key, e, pc);
    } else {
      ServeOnlyAt(s, CallOf(s.cfg, pc));
      HeedsPut(s, e, pc);
    }
  }

  lemma StoredPuts(s: Store, t: Ticket, e: Errand, pc: Pc)
    requires Key(e, t) && Tidy(s, t, pc) && Frank(t, pc) && pc.StoredPut? && UpTo(s, e.id, pc)
    requires Asks(s.objects[e.id], e.upload) && Serve(s, CallOf(s.cfg, pc)).loud
    ensures var s' := Serve(s, CallOf(s.cfg, pc)).store;
            e.id in s'.objects && Recorded(s'.objects[e.id], e.upload)
  {
    hide CallOf, Serve, Resume, InView, Recorded;
    assert CallOf(s.cfg, pc).PutStatus? by { PutCall(s.cfg, pc); }
    GenuineHolds(s, t, pc);
    PutDoes(s, e.id, pc);
    StatusIs(Serve(s, CallOf(s.cfg, pc)).store.objects[e.id], e);
  }

  lemma PutCall(cfg: Config, pc: Pc)
    requires pc.StoredPut?
    ensures CallOf(cfg, pc).PutStatus?
  {
  }

  /** Where the build controller still has something to do for an open handshake, its key is queued or its reconcile in
      flight is attentive, because nothing is owed to it. */
  lemma StartUnderway(w: World, e: Errand)
    requires Posted(w, e) && Healthy(w) && |e.upload.md5| == 32
    ensures Open(w, e) <==> Underway(w, e)
  {
    hide Healthy, Quiet, Building, Forgetting, Misled, Recorded, SignedFor, InBucket, Alert;
    if Building(w.store, e.id) && !Misled(w, e) && e.id !in w.owed && !(Observed(w, e) && !Forgetting(w, e))
       && (InBucket(w.store, e.id, e.upload.md5)
           || (w.store.objects[e.id].status.upload.request != e.upload.request
               && w.store.objects[e.id].status.upload.stored != e.upload.md5)) {
      AlertAtStart(w, e);
    }
  }

  lemma AlertAtStart(w: World, e: Errand)
    requires Posted(w, e) && Healthy(w) && |e.upload.md5| == 32 && e.id !in w.owed
    requires Building(w.store, e.id) && (!Observed(w, e) || Forgetting(w, e))
    requires var st := w.store.objects[e.id].status;
             InBucket(w.store, e.id, e.upload.md5)
             || (st.upload.request != e.upload.request && st.upload.stored != e.upload.md5)
    ensures Alert(w, e)
  {
    hide Quiet, ImageUrl, Safety.SafeWorld, FrankWorld, Passes, Doomed;
    var key := Ticket(Builder, e.id);
    assert Attended(w, key);
    if key in w.active {
      if Forgetting(w, e) {
        ForgettingIsDoomed(w.active[key]);
      } else if !Doomed(w.active[key]) && key !in w.dirty {
        PassesHeed(w.store, e, w.active[key]);
      }
    } else if InBucket(w.store, e.id, e.upload.md5) {
      BuilderRecords(w.store, e.id, e.upload);
    } else {
      BuilderSigns(w.store, e.id, e.upload);
    }
  }

  lemma ForgettingIsDoomed(pc: Pc)
    requires Forgets(pc)
    ensures Doomed(pc)
  {
  }

  /** A reconcile that has looked at nothing but the present state is attentive, unless the upload is recorded. */
  lemma PassesHeed(s: Store, e: Errand, pc: Pc)
    requires e.id in s.objects && Building(s, e.id) && Asks(s.objects[e.id], e.upload) && e.upload.md5 != ""
    requires !(Recorded(s.objects[e.id], e.upload) && InBucket(s, e.id, e.upload.md5))
    requires var st := s.objects[e.id].status;
             InBucket(s, e.id, e.upload.md5)
             || (st.upload.request != e.upload.request && st.upload.stored != e.upload.md5)
    requires Passes(s, BuilderGet(e.id), pc) && !Doomed(pc)
    ensures Heeds(s, e, pc)
  {
    hide Passes, Building, Doomed, SignedFor, Recorded, InBucket, Serve, CallOf, Resume, UploadCheck;
    var o := s.objects[e.id];
    var check := UploadCheck(e.id, o, e.upload);
    PassesNext(s, BuilderGet(e.id), pc);
    BuilderChecks(s, e.id, e.upload);
    if pc != BuilderGet(e.id) {
      PassesNext(s, check, pc);
      CheckIs(s, e);
      CheckNext(s, e.id, o, e.upload);
      if pc != check {
        if InBucket(s, e.id, e.upload.md5) {
          PassesNext(s, Next(s, check), pc);
          PutIsLoud(s, e, Next(s, check));
        } else {
          PassesSigning(s, e, pc);
        }
      }
    }
  }

  lemma CheckIs(s: Store, e: Errand)
    requires e.id in s.objects
    ensures var o := s.objects[e.id];
            var check := UploadCheck(e.id, o, e.upload);
            UpTo(s, e.id, check)
            && (check.NewUploadCheck? || (check.KnownUploadCheck? && o.status.upload.request == e.upload.request))
    ensures RecordedIn(StoredStatus(s.objects[e.id], "", e.upload.md5), e.upload)
    ensures RecordedIn(StoredStatus(s.objects[e.id], e.upload.request, e.upload.md5), e.upload)
  {
  }

  /** On the way to a new URL every step is attentive. */
  lemma PassesSigning(s: Store, e: Errand, pc: Pc)
    requires e.id in s.objects && s.objects[e.id].status.upload.request != e.upload.request
    requires Passes(s, UrlSign(e.id, s.objects[e.id], e.upload), pc)
    ensures Doomed(pc)
  {
    hide Passes, Doomed, Serve, CallOf, Resume;
    var o := s.objects[e.id];
    PassesNext(s, UrlSign(e.id, o, e.upload), pc);
    SignNext(s, e.id, o, e.upload);
    SigningDooms(s, e.id, o, e.upload);
    if pc != UrlSign(e.id, o, e.upload) {
      PassesNext(s, Next(s, UrlSign(e.id, o, e.upload)), pc);
    }
  }

  lemma PassesNext(s: Store, from: Pc, pc: Pc)
    requires Passes(s, from, pc)
    ensures from == pc || (!from.Return? && !Serve(s, CallOf(s.cfg, from)).loud && Passes(s, Next(s, from), pc))
  {
  }

  lemma PutIsLoud(s: Store, e: Errand, pc: Pc)
    requires pc.StoredPut? && pc.id == e.id && UpTo(s, e.id, pc) && !Recorded(s.objects[e.id], e.upload)
    requires RecordedIn(pc.status, e.upload)
    ensures Serve(s, CallOf(s.cfg, pc)).loud
  {
  }

  lemma SigningDooms(s: Store, id: Id, o: Object, upload: Upload)
    requires upload.request != o.status.upload.request && id in s.objects && s.objects[id] == o
    ensures var st := AwaitingUploadStatus(o, SignedUrl(id, upload.md5, o.version), upload.request);
            var pc := Publish(id, o, st, Settle);
            Doomed(UrlSign(id, o, upload)) && Doomed(pc) && Serve(s, CallOf(s.cfg, pc)).loud
  {
    hide Resume;
  }

  /******* The poke *******/

  /** After the PUT and the poke, the build controller will see the upload (its key is queued, or it has nothing left to
      record) exactly when the poke changed the text of the timestamp. */
  lemma PokeCounts(w: World, c: nat, stamp: string, upload: Upload)
    requires Enabled(w, Pokes(c, stamp)) && Ticket(Builder, w.clients[c].id) !in w.dirty
    requires var id := w.clients[c].id;
             id in w.store.objects && Building(w.store, id) && Asks(w.store.objects[id], upload)
             && InBucket(w.store, id, upload.md5) && SignedFor(id, w.store.objects[id], upload)
    ensures var id := w.clients[c].id;
            var w' := Apply(w, Pokes(c, stamp));
            (Ticket(Builder, id) in w'.dirty || Quiet(w'.store, Start(Ticket(Builder, id))))
            <==> stamp != w.store.objects[id].stamp
  {
    hide Quiet, ImageUrl, Dependents;
    var id := w.clients[c].id;
    var w' := Apply(w, Pokes(c, stamp));
    if stamp == w.store.objects[id].stamp {
      assert w'.store == w.store && w'.dirty == w.dirty;
      BuilderRecords(w.store, id, upload);
    } else {
      assert Ticket(Builder, id) in w'.dirty;
    }
  }

  /** A request with an empty identifier on a fresh object is taken for the known one and never gets a URL. */
  lemma EmptyRequestWaits(s: Store, id: Id, upload: Upload)
    requires id in s.objects && Building(s, id) && Asks(s.objects[id], upload)
    requires s.objects[id].status == NEW_STATUS && upload.md5 != "" && !InBucket(s, id, upload.md5)
    ensures Reconcile(s, BuilderGet(id)).store == s <==> upload.request == ""
  {
    hide Reconcile, ImageUrl;
    BuilderSigns(s, id, upload);
  }

  /** A failed lookup for a new request is taken for an empty bucket. So a reconcile that looks an upload up which is
      recorded, and in the bucket, forgets it and signs a URL, exactly if the request it is recorded for is not the one
      asked for: that is so once it was recorded without waiting for a client. */
  lemma FailedLookupForgets(s: Store, id: Id, upload: Upload)
    requires id in s.objects && Asks(s.objects[id], upload) && Recorded(s.objects[id], upload) && |upload.md5| == 32
    ensures var o := s.objects[id];
            var s' := Reconcile(s, Resume(s.cfg, UploadCheck(id, o, upload), Failed)).store;
            id in s'.objects && (Recorded(s'.objects[id], upload) <==> o.status.upload.request == upload.request)
            && (!Recorded(s'.objects[id], upload) ==> SignedFor(id, s'.objects[id], upload))
  {
    hide Reconcile, CallOf, Serve;
    var o := s.objects[id];
    if o.status.upload.request == upload.request {
      Returned(s, Retry);
    } else {
      SignNext(s, id, o, upload);
      Silently(s, UrlSign(id, o, upload));
      SignedPublish(s, id, o, upload);
    }
  }

  /** A client that finds its checksum already recorded goes away at once. That is right exactly when the bucket still
      holds it: otherwise the controller signs a URL for the new request, and nobody is left to use it. */
  lemma StaleRecordSkips(s: Store, id: Id, upload: Upload, c: Client)
    requires id in s.objects && Building(s, id) && Asks(s.objects[id], upload) && c.md5 == upload.md5 != ""
    requires s.objects[id].status.upload.stored == upload.md5 && s.objects[id].status.upload.request != upload.request
    ensures Reaction(c, s.objects[id]) == Skipped
    ensures var s' := Reconcile(s, BuilderGet(id)).store;
            id in s'.objects && (Recorded(s'.objects[id], upload) <==> InBucket(s, id, upload.md5))
  {
    hide Reconcile, ImageUrl;
    if InBucket(s, id, upload.md5) {
      BuilderRecords(s, id, upload);
    } else {
      BuilderSigns(s, id, upload);
    }
  }
}
