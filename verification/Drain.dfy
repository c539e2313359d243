/** Draining: what every sequence of whole reconciles comes to while users, Jobs, Pods and Deployments hold still. */
module Drain {
  import opened Basics
  import opened Identity
  import opened Cluster
  import opened Programs
  import opened Wakeups
  import opened Quiescence
  import opened Network
  import opened Stages
  import opened Idempotence
  import opened Stuck
  import opened Frames
  import Artifacts
  import Safety
  import BucketUrls

  /******* Turns *******/

  /** The store and the queues between two reconciles. */
  datatype Plant = Plant(store: Store, dirty: set<Ticket>)

  /** One key is taken and reconciled to the end; it comes back if the reconcile returns an error. */
  function Turn(p: Plant, t: Ticket): Plant {
    var done := Reconcile(p.store, Start(t));
    Plant(done.store, p.dirty - {t} + done.woken + (if done.outcome == Settle then {} else {t}))
  }

  ghost predicate Turns(p: Plant, p': Plant) {
    if p.dirty == {} then p' == p else exists t :: t in p.dirty && p' == Turn(p, t)
  }

  /** A run of turns; an empty queue stays as it is. */
  ghost predicate TurnRun(run: nat -> Plant) {
    forall n: nat :: Turns(run(n), run(n + 1))
  }

  /******* The measure *******/

  function StageSum(s: Store, ids: seq<Id>): nat
    requires forall id :: id in ids ==> id in s.objects
  {
    if ids == [] then 0 else StageOf(s, ids[0]) + StageSum(s, ids[1..])
  }

  /** The tickets that would write something now. */
  ghost function Restless(s: Store): set<Ticket> {
    set t | t in AllTickets(s) && !AtEase(s, t)
  }

  lemma {:induction false} SumSame(s: Store, s': Store, ids: seq<Id>)
    requires forall id :: id in ids ==> id in s.objects && id in s'.objects && StageOf(s', id) == StageOf(s, id)
    ensures StageSum(s', ids) == StageSum(s, ids)
  {
    if ids != [] {
      assert ids[0] in ids;
      SumSame(s, s', ids[1..]);
    }
  }

  lemma {:induction false} SumMoves(s: Store, s': Store, ids: seq<Id>, id: Id)
    requires forall i :: i in ids ==> i in s.objects && i in s'.objects && (i != id ==> StageOf(s', i) == StageOf(s, i))
    requires id in ids && StageOf(s', id) < StageOf(s, id)
    ensures StageSum(s', ids) < StageSum(s, ids)
    decreases ids
  {
    assert ids[0] in ids;
    if id in ids[1..] {
      SumMoves(s, s', ids[1..], id);
    } else {
      SumSame(s, s', ids[1..]);
    }
  }

  /******* Nobody else is disturbed *******/

  lemma {:induction false} ElsewhereQuiet(s: Store, s': Store, id: Id, t: Ticket, pc: Pc)
    requires Mild(s, s', id) && CalmObject(s, id) && t.id != id
    requires Tied(s, t, pc) && Quiet(s, pc)
    ensures Quiet(s', pc)
    decreases Rank(pc)
  {
    hide Mild, CalmObject, Resume;
    if !pc.Return? {
      var c := CallOf(s.cfg, pc);
      TiedStep(s, t, pc);
      ElsewhereSilent(s, s', id, t, pc);
      ElsewhereQuiet(s, s', id, t, Resume(s.cfg, pc, Serve(s, c).response));
    }
  }

  lemma ElsewhereSilent(s: Store, s': Store, id: Id, t: Ticket, pc: Pc)
    requires Mild(s, s', id) && CalmObject(s, id) && t.id != id
    requires Tied(s, t, pc) && !pc.Return? && !Serve(s, CallOf(s.cfg, pc)).loud
    ensures s'.cfg == s.cfg && !Serve(s', CallOf(s.cfg, pc)).loud
    ensures Serve(s', CallOf(s.cfg, pc)).response == Serve(s, CallOf(s.cfg, pc)).response
  {
    hide CalmObject, StageOf;
    var c := CallOf(s.cfg, pc);
    MildKeeps(s, s', id);
    if c.PutStatus? || c.PutSpec? || c.GetObject? {
      OwnObject(s, s', id, t, pc);
    } else {
      if c.GetDependency? {
        DependencyTrained(s, t, pc);
      }
      SameAnswers(s, s', id, c);
    }
  }

  lemma OwnObject(s: Store, s': Store, id: Id, t: Ticket, pc: Pc)
    requires Mild(s, s', id) && t.id != id && Belongs(t, pc) && !pc.Return?
    requires var c := CallOf(s.cfg, pc); (c.PutStatus? || c.PutSpec? || c.GetObject?) && !Serve(s, c).loud
    ensures var c := CallOf(s.cfg, pc); !Serve(s', c).loud && Serve(s', c).response == Serve(s, c).response
  {
    hide Resume, ArtifactUrl;
    var c := CallOf(s.cfg, pc);
    assert c.id == t.id;
    assert SameAt(s.objects, s'.objects, t.id);
  }

  lemma DependencyTrained(s: Store, t: Ticket, pc: Pc)
    requires Belongs(t, pc) && !pc.Return? && CallOf(s.cfg, pc).GetDependency?
    ensures Trained(CallOf(s.cfg, pc).id)
  {
  }

  /** The two controllers of one object never both have work, unless an old image was left beside a build: one needs an
      image, the other needs it missing. */
  lemma PeerIsQuiet(s: Store, id: Id)
    requires id in s.objects && !Stale(s, id)
    ensures Quiet(s, Start(Ticket(if Building(s, id) then Runner else Builder, id)))
  {
    hide DesiredImage;
    var t := Ticket(if Building(s, id) then Runner else Builder, id);
    Returned(s, Settle);
    assert Next(s, Start(t)) == Return(Settle);
    QuietBack(s, Start(t));
  }

  /** Where both may have work, a quiet runner is not woken by what the build controller alone writes. */
  lemma RunnerUndisturbed(s: Store, s': Store, id: Id)
    requires Mild(s, s', id) && Regular(s, id) && Stale(s, id) && Quiet(s, RunnerGet(id))
    requires View(Ticket(Builder, id), s.objects[id].status, s'.objects[id].status)
    ensures Quiet(s', RunnerGet(id))
  {
    hide BucketUrls.Print, ArtifactUrl, JobResult, Constructible, Quiet, Building;
    var o, o' := s.objects[id], s'.objects[id];
    NoReferences(id, o.spec);
    MildKeeps(s, s', id);
    QuietNext(s, RunnerGet(id));
    Returned(s', Settle);
    if o.status.ready || !Constructible(s.cfg, o.spec) {
      assert Next(s', RunnerGet(id)) == Return(Settle);
    } else if id.kind == Model {
      RunJobUndisturbed(s, s', id);
      assert Next(s', RunnerGet(id)) == RunJobCreate(id, o');
    } else {
      QuietNext(s, DataUrlPut(id, o));
      assert Next(s, DataUrlPut(id, o)) == RunJobCreate(id, o);
      RunJobUndisturbed(s, s', id);
      assert Next(s', DataUrlPut(id, o')) == RunJobCreate(id, o');
      QuietBack(s', DataUrlPut(id, o'));
      assert Next(s', RunnerGet(id)) == DataUrlPut(id, o');
    }
    QuietBack(s', RunnerGet(id));
  }

  lemma RunJobUndisturbed(s: Store, s': Store, id: Id)
    requires Mild(s, s', id) && Trained(id) && Quiet(s, RunJobCreate(id, s.objects[id]))
    requires View(Ticket(Builder, id), s.objects[id].status, s'.objects[id].status)
    ensures Quiet(s', RunJobCreate(id, s'.objects[id]))
    ensures WithUrl(s.cfg, id, s'.objects[id].status) == s'.objects[id].status
  {
    hide BucketUrls.Print, ArtifactUrl, JobResult, Quiet, Building;
    var o, o' := s.objects[id], s'.objects[id];
    RunJobExactly(s, id, o);
    var stage := JobStage(s, id);
    assert CompletionStatus(s.cfg, id, o', stage == JobComplete, stage).conditions == o'.status.conditions;
    assert CompletionStatus(s.cfg, id, o', stage == JobComplete, stage) == o'.status;
    TwinPublishQuiet(s', id, o');
    assert Next(s', RunJobGet(id, o')) == Publish(id, o', o'.status, Settle);
    QuietBack(s', RunJobGet(id, o'));
    assert Next(s', RunJobCreate(id, o')) == RunJobGet(id, o');
    QuietBack(s', RunJobCreate(id, o'));
  }

  /** And the other way round. */
  lemma BuilderUndisturbed(s: Store, s': Store, id: Id)
    requires Mild(s, s', id) && CalmObject(s, id) && Stale(s, id) && Quiet(s, BuilderGet(id))
    requires View(Ticket(Runner, id), s.objects[id].status, s'.objects[id].status)
    ensures Quiet(s', BuilderGet(id))
  {
    hide DesiredImage, BucketUrls.Print, ArtifactUrl, Quiet;
    var o, o' := s.objects[id], s'.objects[id];
    var job := JobId(id, BuildJob);
    MildKeeps(s, s', id);
    SameDesired(s.cfg, id, o, o');
    QuietNext(s, BuilderGet(id));
    QuietNext(s, BuildJobGet(id, o, FromGit));
    GitQuiet(s, id, o);
    assert BuildPendingStatus(o').conditions == o'.status.conditions;
    assert BuildPendingStatus(o') == o'.status;
    PendingQuiet(s, s', id, o', o', FromGit);
    assert Next(s', BuilderGet(id)) == BuildJobGet(id, o', FromGit);
    QuietBack(s', BuilderGet(id));
  }

  /** A quiet Git build has an up-to-date unfinished Job and says so. */
  lemma GitQuiet(s: Store, id: Id, o: Object)
    requires id in s.objects && s.objects[id] == o && o.spec.image != DesiredImage(s.cfg, id, o.spec)
    requires Quiet(s, BuildJobGet(id, o, FromGit))
    ensures JobId(id, BuildJob) in s.jobs
    ensures BuildJobSeen(s.cfg, id, o, s.jobs[JobId(id, BuildJob)]) == BuildPending(id, o)
    ensures BuildPendingStatus(o) == o.status
  {
    hide DesiredImage, Quiet;
    var pc := BuildJobGet(id, o, FromGit);
    QuietNext(s, pc);
    if JobId(id, BuildJob) !in s.jobs {
      QuietNext(s, BuildJobCreate(id, o, FromGit));
    } else {
      var job := s.jobs[JobId(id, BuildJob)];
      if job.image != DesiredImage(s.cfg, id, o.spec) {
        QuietNext(s, BuildJobDelete(id, o, job));
      } else if job.succeeded < 1 {
        QuietNext(s, BuildPending(id, o));
      } else {
        QuietNext(s, ImagePut(id, o, job));
      }
    }
  }

  lemma NoReferences(id: Id, spec: Spec)
    requires References(id, spec) == {}
    ensures ModelRef(id, spec).None? && DatasetRef(id, spec).None?
  {
    assert Elements(ModelRef(id, spec)) <= References(id, spec);
    assert Elements(DatasetRef(id, spec)) <= References(id, spec);
  }

  /** A ticket at ease stays at ease when another ticket moves no stage. */
  lemma OthersAtEase(s: Store, t: Ticket, other: Ticket)
    requires t.id in s.objects && Calm(s) && SameStage(s, Reconcile(s, Start(t)).store, t.id)
    requires other != t && AtEase(s, other)
    ensures AtEase(Reconcile(s, Start(t)).store, other)
  {
    hide Mild, CalmObject, StageOf, Reconcile, Quiet, Resume, CallOf, StuckTicket;
    var s' := Reconcile(s, Start(t)).store;
    StartFits(s, t);
    EndsMild(s, t, Start(t));
    if other.id != t.id {
      if StuckTicket(s, other) {
        StuckElsewhere(s, s', t.id, other);
      } else {
        ElsewhereQuiet(s, s', t.id, other, Start(other));
      }
    } else {
      PeerAtEase(s, s', t, other);
    }
  }

  lemma StuckElsewhere(s: Store, s': Store, id: Id, t: Ticket)
    requires Mild(s, s', id) && t.id != id && StuckTicket(s, t)
    ensures StuckTicket(s', t)
  {
    hide DesiredImage, BucketUrls.Print, ArtifactUrl, Constructible;
  }

  lemma PeerAtEase(s: Store, s': Store, t: Ticket, other: Ticket)
    requires t.id in s.objects && Calm(s) && s' == Reconcile(s, Start(t)).store && SameStage(s, s', t.id)
    requires Mild(s, s', t.id) && other.id == t.id && other != t && AtEase(s, other)
    ensures AtEase(s', other)
  {
    hide Mild, CalmObject, StageOf, Reconcile, Quiet, Resume, CallOf, ObjectFramed;
    MildKeeps(s, s', t.id);
    TurnFramed(s, t);
    OwnView(s, s', t);
    OnlyTwo(t);
    OnlyTwo(other);
    if Stale(s, t.id) {
      StaleFacts(s, t.id, other);
      if other.controller == Runner {
        RunnerUndisturbed(s, s', t.id);
      } else {
        BuilderUndisturbed(s, s', t.id);
      }
    } else {
      PeerIsQuiet(s, t.id);
      PeerIsQuiet(s', t.id);
      if other.controller == (if Building(s, t.id) then Builder else Runner) {
        QuietStays(s, Start(t));
      }
    }
  }

  lemma OwnView(s: Store, s': Store, t: Ticket)
    requires t.id in s.objects && Framed(s, s', t)
    ensures t.id in s'.objects && View(t, s.objects[t.id].status, s'.objects[t.id].status)
  {
    assert ObjectFramed(t, t.id, s.objects[t.id], s'.objects[t.id]);
  }

  lemma StaleFacts(s: Store, id: Id, t: Ticket)
    requires id in s.objects && CalmObject(s, id) && Stale(s, id) && t.id == id
    ensures Regular(s, id) && !StuckTicket(s, t)
  {
    hide DesiredImage, BucketUrls.Print, ArtifactUrl, Constructible;
  }

  lemma OnlyTwo(t: Ticket)
    ensures t == Ticket(Runner, t.id) || t == Ticket(Builder, t.id)
  {
    match t.controller {
      case Runner => assert t == Ticket(Runner, t.id);
      case Builder => assert t == Ticket(Builder, t.id);
    }
  }

  lemma StartFits(s: Store, t: Ticket)
    requires t.id in s.objects
    ensures Fits(s, t, Start(t))
  {
  }

  /** Reconciling a quiet key writes nothing, wakes nobody and returns no error. */
  lemma {:induction false} QuietStays(s: Store, pc: Pc)
    requires Quiet(s, pc)
    ensures Reconcile(s, pc) == Completion(s, {}, Settle)
    decreases Rank(pc)
  {
    hide Resume, CallOf;
    if !pc.Return? {
      var c := CallOf(s.cfg, pc);
      ServeOnlyAt(s, c);
      QuietStays(s, Resume(s.cfg, pc, Serve(s, c).response));
    }
  }

  /******* One turn *******/

  /** A turn in a calm cluster lowers the sum of stages, or lowers the number of restless tickets, or only shortens the
      queue, or changes nothing at all because its ticket is stuck. */
  lemma TurnLowers(p: Plant, t: Ticket, ids: seq<Id>)
    requires t in p.dirty && Calm(p.store) && (forall id :: id in ids <==> id in p.store.objects)
    ensures var p' := Turn(p, t);
            Calm(p'.store) && p'.store.objects.Keys == p.store.objects.Keys
            && StageSum(p'.store, ids) <= StageSum(p.store, ids)
            && (StageSum(p'.store, ids) == StageSum(p.store, ids) ==>
                  |Restless(p'.store)| < |Restless(p.store)| || (p'.store == p.store && p'.dirty == p.dirty - {t})
                  || (p' == p && StuckTicket(p.store, t)))
  {
    hide CalmObject, StageOf, Reconcile, Mild, Quiet, StuckTicket;
    var s, s' := p.store, Turn(p, t).store;
    if Quiet(s, Start(t)) {
      QuietStays(s, Start(t));
    } else if StuckTicket(s, t) {
      StuckRetries(s, t);
      assert p.dirty - {t} + {t} == p.dirty;
    } else {
      MissingIsQuiet(s, t);
      StartFits(s, t);
      ReconcileProgress(s, t, Start(t));
      if StageOf(s', t.id) < StageOf(s, t.id) {
        SumMoves(s, s', ids, t.id);
      } else {
        assert SameStage(s, s', t.id);
        assert forall id :: id in ids ==> StageOf(s', id) == StageOf(s, id);
        SumSame(s, s', ids);
        Calmer(s, t);
      }
    }
  }

  /** A turn leaves store and queue exactly as they were, and wakes nobody, if and only if its ticket is stuck. */
  lemma TurnForNothing(p: Plant, t: Ticket)
    requires t in p.dirty && !(t.controller == Builder && Sourceless(p.store, t.id))
    ensures (Turn(p, t) == p && Reconcile(p.store, Start(t)).woken == {}) <==> StuckTicket(p.store, t)
  {
    hide Reconcile, Sourceless, StuckTicket;
    CrashesExactly(p.store, t);
    StuckRetries(p.store, t);
    if StuckTicket(p.store, t) {
      assert p.dirty - {t} + {t} == p.dirty;
    }
  }

  lemma MissingIsQuiet(s: Store, t: Ticket)
    ensures t.id !in s.objects ==> Quiet(s, Start(t))
  {
    if t.id !in s.objects {
      AbsentIsQuiet(s, t);
    }
  }

  lemma Calmer(s: Store, t: Ticket)
    requires t.id in s.objects && Calm(s) && SameStage(s, Reconcile(s, Start(t)).store, t.id)
    requires !AtEase(s, t) && Reconcile(s, Start(t)).store.objects.Keys == s.objects.Keys
    ensures |Restless(Reconcile(s, Start(t)).store)| < |Restless(s)|
  {
    hide CalmObject, StageOf, Reconcile, Mild, AtEase;
    var s' := Reconcile(s, Start(t)).store;
    OnlyTwo(t);
    Idempotent(s, t);
    assert AllTickets(s') == AllTickets(s);
    forall other | other in Restless(s') ensures other in Restless(s) - {t} {
      if AtEase(s, other) && other != t {
        OthersAtEase(s, t, other);
      }
    }
    Smaller(Restless(s'), Restless(s), t);
  }

  lemma Smaller<T>(a: set<T>, b: set<T>, t: T)
    requires a <= b - {t} && t in b
    ensures |a| < |b|
  {
    Fewer(a, b - {t});
  }

  lemma {:induction false} Fewer<T>(a: set<T>, b: set<T>)
    requires a <= b
    ensures |a| <= |b|
  {
    if a != {} {
      var x :| x in a;
      Fewer(a - {x}, b - {x});
    }
  }

  /******* Termination *******/

  lemma {:induction false} Listed(ids: set<Id>) returns (list: seq<Id>)
    ensures forall id :: id in list <==> id in ids
  {
    if ids == {} {
      list := [];
    } else {
      var id :| id in ids;
      var rest := Listed(ids - {id});
      list := [id] + rest;
    }
  }

  /** From `n` on nothing changes any more. */
  ghost predicate Constant(run: nat -> Plant, n: nat) {
    forall m: nat :: n <= m ==> run(m) == run(n)
  }

  /** The last moment before the first change, given that there is one. */
  lemma {:induction false} FirstChange(run: nat -> Plant, n: nat, m: nat) returns (first: nat)
    requires n <= m && run(m) != run(n)
    ensures n <= first && run(first) == run(n) && run(first + 1) != run(first)
    decreases m - n
  {
    if run(n + 1) != run(n) {
      first := n;
    } else {
      first := FirstChange(run, n + 1, m);
    }
  }

  lemma {:induction false} ConstantFrom(run: nat -> Plant, n: nat, ids: seq<Id>) returns (end: nat)
    requires TurnRun(run) && Calm(run(n).store) && (forall id :: id in ids <==> id in run(n).store.objects)
    ensures n <= end && Constant(run, end) && Calm(run(end).store)
    decreases StageSum(run(n).store, ids), |Restless(run(n).store)|, |run(n).dirty|
  {
    hide CalmObject, StageOf, AtEase, Turn, StuckTicket;
    if Constant(run, n) {
      end := n;
    } else {
      var m: nat :| n <= m && run(m) != run(n);
      var first := FirstChange(run, n, m);
      assert Turns(run(first), run(first + 1));
      var t :| t in run(first).dirty && run(first + 1) == Turn(run(first), t);
      TurnLowers(run(first), t, ids);
      if run(first + 1).dirty == run(first).dirty - {t} {
        Smaller(run(first + 1).dirty, run(first).dirty, t);
      }
      end := ConstantFrom(run, first + 1, ids);
    }
  }

  /** A turn that changes nothing in a calm cluster is the turn of a stuck ticket. */
  lemma IdleTurn(p: Plant, t: Ticket)
    requires t in p.dirty && Calm(p.store) && Turn(p, t) == p
    ensures StuckTicket(p.store, t)
  {
    hide CalmObject, AtEase, StuckTicket, Turn;
    var ids := Listed(p.store.objects.Keys);
    TurnLowers(p, t, ids);
  }

  /** Every run of turns that starts in a calm cluster, whatever is queued and whichever key is taken at each turn,
      becomes constant, either with empty queues or with turns of stuck tickets only. */
  lemma BecomesConstant(run: nat -> Plant) returns (end: nat)
    requires TurnRun(run) && Calm(run(0).store)
    ensures Constant(run, end) && Calm(run(end).store)
    ensures run(end).dirty == {} || exists t :: t in run(end).dirty && StuckTicket(run(end).store, t)
  {
    hide CalmObject, StuckTicket, Turn;
    var ids := Listed(run(0).store.objects.Keys);
    end := ConstantFrom(run, 0, ids);
    if run(end).dirty != {} {
      assert Turns(run(end), run(end + 1));
      var t :| t in run(end).dirty && run(end + 1) == Turn(run(end), t);
      IdleTurn(run(end), t);
    }
  }

  /** The same run with the key of each turn. */
  ghost predicate Picked(run: nat -> Plant, pick: nat -> Ticket) {
    forall n: nat :: run(n).dirty != {} ==> pick(n) in run(n).dirty && run(n + 1) == Turn(run(n), pick(n))
  }

  /** No queued key is passed over for ever. */
  ghost predicate FairPicks(run: nat -> Plant, pick: nat -> Ticket) {
    forall n: nat, t :: t in run(n).dirty ==> exists m: nat :: n <= m && (pick(m) == t || t !in run(m).dirty)
  }

  /** Under fair picks, nothing but stuck tickets is left in the queue of the constant tail. */
  lemma OnlyStuckRemain(run: nat -> Plant, pick: nat -> Ticket) returns (end: nat)
    requires TurnRun(run) && Picked(run, pick) && FairPicks(run, pick) && Calm(run(0).store)
    ensures Constant(run, end)
    ensures forall t :: t in run(end).dirty ==> StuckTicket(run(end).store, t)
  {
    hide CalmObject, StuckTicket, Turn;
    end := BecomesConstant(run);
    forall t | t in run(end).dirty ensures StuckTicket(run(end).store, t) {
      var m: nat :| end <= m && (pick(m) == t || t !in run(m).dirty);
      assert run(m) == run(end) && run(m + 1) == run(end);
      IdleTurn(run(m), t);
    }
  }

  /******* Without anything in the way *******/

  /** A pending upload is in the bucket, and the Pods of Notebooks and Servers can be constructed. */
  predicate Provided(s: Store, id: Id)
    requires id in s.objects
  {
    (Building(s, id) && s.objects[id].spec.build.value.upload.Some? ==> id in s.blobs)
    && (Trained(id) || Constructible(s.cfg, s.objects[id].spec))
  }

  ghost predicate AllProvided(s: Store) {
    forall id :: id in s.objects ==> Provided(s, id)
  }

  lemma ProvidedNotStuck(s: Store, t: Ticket)
    requires AllProvided(s)
    ensures !StuckTicket(s, t)
  {
    hide DesiredImage, Constructible;
  }

  lemma ProvidedStays(s: Store, t: Ticket)
    requires AllProvided(s)
    ensures AllProvided(Reconcile(s, Start(t)).store)
  {
    hide Provided, Reconcile, ObjectFramed;
    var s' := Reconcile(s, Start(t)).store;
    TurnFramed(s, t);
    forall id | id in s'.objects ensures Provided(s', id) {
      assert ObjectFramed(t, id, s.objects[id], s'.objects[id]);
      ProvidedObjectStays(s, s', t, id);
    }
  }

  lemma ProvidedObjectStays(s: Store, s': Store, t: Ticket, id: Id)
    requires id in s.objects && id in s'.objects && Provided(s, id)
             && ObjectFramed(t, id, s.objects[id], s'.objects[id])
    requires s' == Reconcile(s, Start(t)).store && s'.blobs == s.blobs && s'.cfg == s.cfg
    ensures Provided(s', id)
  {
    hide Reconcile, ImageUrl, View;
    var o, o' := s.objects[id], s'.objects[id];
    assert Constructible(s.cfg, o'.spec) == Constructible(s.cfg, o.spec);
    if !Building(s, id) && t == Ticket(Builder, id) {
      PeerIsQuiet(s, id);
      QuietStays(s, Start(t));
    }
  }

  lemma {:induction false} ProvidedAlong(run: nat -> Plant, n: nat)
    requires TurnRun(run) && AllProvided(run(0).store)
    ensures AllProvided(run(n).store)
  {
    hide AllProvided, Reconcile;
    if n > 0 {
      ProvidedAlong(run, n - 1);
      assert Turns(run(n - 1), run(n - 1 + 1));
      if run(n - 1).dirty != {} {
        var t :| t in run(n - 1).dirty && run(n) == Turn(run(n - 1), t);
        ProvidedStays(run(n - 1).store, t);
      }
    }
  }

  /** With nothing in the way of any object, every run of turns reaches empty queues. */
  lemma Drains(run: nat -> Plant) returns (end: nat)
    requires TurnRun(run) && Calm(run(0).store) && AllProvided(run(0).store)
    ensures run(end).dirty == {}
  {
    hide Calm, AllProvided, StuckTicket, Turn;
    end := BecomesConstant(run);
    ProvidedAlong(run, end);
    if run(end).dirty != {} {
      var t :| t in run(end).dirty && StuckTicket(run(end).store, t);
      ProvidedNotStuck(run(end).store, t);
    }
  }

  /******* Turns are runs of the network *******/

  /** The API calls of one undisturbed reconcile. */
  function Acts(s: Store, t: Ticket, pc: Pc): seq<Step>
    decreases Rank(pc)
  {
    if pc.Return? then []
    else [Act(t, Delivered)] + Acts(Serve(s, CallOf(s.cfg, pc)).store, t, Next(s, pc))
  }

  lemma {:induction false} RunThen(w: World, a: seq<Step>, b: seq<Step>)
    requires Legal(w, a) && Legal(Execute(w, a), b)
    ensures Legal(w, a + b) && Execute(w, a + b) == Execute(Execute(w, a), b)
    decreases |a|
  {
    hide Apply;
    if a == [] {
      assert a + b == b;
    } else {
      RunThen(Apply(w, a[0]), a[1..], b);
      assert (a + b)[0] == a[0] && (a + b)[1..] == a[1..] + b;
    }
  }

  lemma ActOnce(w: World, t: Ticket)
    requires t in w.active && !w.active[t].Return?
    ensures var c := CallOf(w.store.cfg, w.active[t]);
            var w' := Apply(w, Act(t, Delivered));
            w'.store == Serve(w.store, c).store && w'.dirty == w.dirty + Woken(w.store, c) && w'.owed == w.owed
            && w'.clients == w.clients
            && w'.active == w.active[t := Next(w.store, w.active[t])]
  {
    hide Resume, CallOf, Wake;
    ServeOnlyAt(w.store, CallOf(w.store.cfg, w.active[t]));
  }

  lemma {:induction false} ActsRun(w: World, t: Ticket)
    requires t in w.active
    ensures var pc := w.active[t];
            var steps := Acts(w.store, t, pc);
            Legal(w, steps)
            && var w' := Execute(w, steps);
               var done := Reconcile(w.store, pc);
               w'.store == done.store && w'.dirty == w.dirty + done.woken && w'.owed == w.owed
               && w'.clients == w.clients
               && w'.active == w.active[t := Return(done.outcome)]
    decreases Rank(w.active[t])
  {
    hide Resume, CallOf, Serve, Apply;
    var pc := w.active[t];
    if !pc.Return? {
      ActOnce(w, t);
      var w1 := Apply(w, Act(t, Delivered));
      ActsRun(w1, t);
      var steps := Acts(w.store, t, pc);
      assert steps[0] == Act(t, Delivered) && steps[1..] == Acts(w1.store, t, w1.active[t]);
    }
  }

  lemma TakeOnce(w: World, t: Ticket)
    requires t in w.dirty && t !in w.active
    ensures var w' := Apply(w, Take(t));
            w'.store == w.store && w'.dirty == w.dirty - {t} && w'.owed == w.owed && w'.clients == w.clients
            && w'.active == w.active[t := Start(t)]
  {
  }

  lemma FinishOnce(w: World, t: Ticket)
    requires t in w.active && w.active[t].Return?
    ensures var w' := Apply(w, Finish(t));
            var outcome := w.active[t].outcome;
            w'.store == w.store && w'.owed == w.owed && w'.clients == w.clients
            && w'.active == (if outcome == Crash then map[] else w.active - {t})
            && w'.dirty == match outcome {
                             case Settle => w.dirty
                             case Retry => w.dirty + {t}
                             case Crash => AllTickets(w.store)
                           }
  {
  }

  /** One undisturbed reconcile as steps of the network. */
  function TurnSteps(s: Store, t: Ticket): seq<Step> {
    [Take(t)] + (Acts(s, t, Start(t)) + [Finish(t)])
  }

  /** What `TurnSteps` does, whatever the reconcile returns and whatever else is in flight: a crash restarts the
      process. */
  lemma TurnEffect(w: World, t: Ticket)
    requires t in w.dirty && t !in w.active
    ensures Legal(w, TurnSteps(w.store, t))
    ensures var w' := Execute(w, TurnSteps(w.store, t));
            var done := Reconcile(w.store, Start(t));
            w'.store == done.store && w'.owed == w.owed && w'.clients == w.clients
            && w'.active == (if done.outcome == Crash then map[] else w.active)
            && w'.dirty == (if done.outcome == Crash then AllTickets(done.store)
                            else Turn(Plant(w.store, w.dirty), t).dirty)
  {
    hide Apply, Reconcile, Acts, Legal, Execute;
    var w1 := Apply(w, Take(t));
    TakeOnce(w, t);
    ActsRun(w1, t);
    var acts := Acts(w1.store, t, Start(t));
    var w2 := Execute(w1, acts);
    FinishOnce(w2, t);
    Once(w2, Finish(t));
    RunThen(w1, acts, [Finish(t)]);
    Once(w, Take(t));
    RunThen(w, [Take(t)], acts + [Finish(t)]);
    assert w2.active - {t} == w.active;
  }

  lemma Once(w: World, step: Step)
    requires Enabled(w, step)
    ensures Legal(w, [step]) && Execute(w, [step]) == Apply(w, step)
  {
    hide Apply;
    assert [step][1..] == [];
    assert Execute(Apply(w, step), []) == Apply(w, step);
  }

  ghost predicate AllSourced(s: Store) {
    forall id :: id in s.objects ==> Sourced(s.objects[id].spec)
  }

  lemma SourcedStays(s: Store, t: Ticket)
    requires AllSourced(s)
    ensures AllSourced(Reconcile(s, Start(t)).store) && Reconcile(s, Start(t)).outcome != Crash
  {
    hide Reconcile, ObjectFramed;
    var s' := Reconcile(s, Start(t)).store;
    CrashesExactly(s, t);
    TurnFramed(s, t);
    forall id | id in s'.objects ensures Sourced(s'.objects[id].spec) {
      assert ObjectFramed(t, id, s.objects[id], s'.objects[id]);
      SourcedFramed(t, id, s.objects[id], s'.objects[id]);
    }
  }

  lemma SourcedFramed(t: Ticket, id: Id, o: Object, o': Object)
    requires ObjectFramed(t, id, o, o') && Sourced(o.spec)
    ensures Sourced(o'.spec)
  {
    hide View;
  }

  /** If every build has a source, the plants of a run of turns are states that the network reaches. */
  lemma {:induction false} RunIsReachable(cfg: Config, steps: seq<Step>, run: nat -> Plant, n: nat)
      returns (more: seq<Step>)
    requires Legal(Initial(cfg), steps) && TurnRun(run)
    requires var w := Execute(Initial(cfg), steps);
             w.active == map[] && AllSourced(w.store) && run(0) == Plant(w.store, w.dirty)
    ensures Legal(Initial(cfg), more) && AllSourced(run(n).store)
    ensures var w := Execute(Initial(cfg), more);
            w.active == map[] && run(n) == Plant(w.store, w.dirty) && w.owed == Execute(Initial(cfg), steps).owed
  {
    hide AllSourced, Apply, Reconcile, TurnSteps;
    if n == 0 {
      more := steps;
    } else {
      more := RunIsReachable(cfg, steps, run, n - 1);
      assert Turns(run(n - 1), run(n - 1 + 1));
      if run(n - 1).dirty != {} {
        var w := Execute(Initial(cfg), more);
        var t :| t in run(n - 1).dirty && run(n) == Turn(run(n - 1), t);
        SourcedStays(run(n - 1).store, t);
        TurnEffect(w, t);
        RunThen(Initial(cfg), more, TurnSteps(w.store, t));
        more := more + TurnSteps(w.store, t);
      }
    }
  }

  /** Every object is regular and none clashes. */
  ghost predicate AllRegular(s: Store) {
    forall id :: id in s.objects ==> Regular(s, id) && !Clash(s, id)
  }

  lemma ReachableIsCalm(cfg: Config, steps: seq<Step>)
    requires Legal(Initial(cfg), steps) && AllRegular(Execute(Initial(cfg), steps).store)
    ensures Calm(Execute(Initial(cfg), steps).store)
  {
    hide Regular, Clash, Apply, Artifacts.PcUrl, Legal, Execute, BucketUrls.Print, ArtifactUrl;
    Artifacts.RunUrls(Initial(cfg), steps);
    Safety.Reachable(cfg, steps);
    SafeIsTidy(Execute(Initial(cfg), steps));
  }

  lemma SafeIsTidy(w: World)
    requires Safety.SafeWorld(w)
    ensures TidyWorld(w) && forall id :: id in w.store.objects ==> SchemaOk(w.store.objects[id].spec)
  {
  }

  lemma RegularIsSourced(s: Store)
    requires AllRegular(s)
    ensures AllSourced(s)
  {
  }

  /** From any reachable state with no reconcile in flight and nothing in the way, every run of turns ends with empty
      queues and a cluster at rest. */
  lemma DrainsToRest(cfg: Config, steps: seq<Step>, run: nat -> Plant) returns (end: nat)
    requires Legal(Initial(cfg), steps) && TurnRun(run)
    requires var w := Execute(Initial(cfg), steps);
             w.active == map[] && AllRegular(w.store) && AllProvided(w.store) && run(0) == Plant(w.store, w.dirty)
    ensures run(end).dirty == {} && AtRest(run(end).store)
  {
    hide AllRegular, AllProvided, AllSourced, Turn, Apply, Quiet, Calm;
    ReachableIsCalm(cfg, steps);
    RegularIsSourced(run(0).store);
    end := Drains(run);
    var more := RunIsReachable(cfg, steps, run, end);
    EmptyQueuesAtRest(cfg, more);
  }

  /** From any reachable state with no reconcile in flight and no clash, every fair run of turns ends
      with exactly the stuck tickets in the queue. */
  lemma EndsWithStuck(cfg: Config, steps: seq<Step>, run: nat -> Plant, pick: nat -> Ticket) returns (end: nat)
    requires Legal(Initial(cfg), steps) && TurnRun(run) && Picked(run, pick) && FairPicks(run, pick)
    requires var w := Execute(Initial(cfg), steps);
             w.active == map[] && AllRegular(w.store) && run(0) == Plant(w.store, w.dirty)
    ensures Constant(run, end)
    ensures forall t :: t in run(end).dirty <==> StuckTicket(run(end).store, t)
  {
    hide AllRegular, AllSourced, Turn, Apply, Quiet, Calm, StuckTicket, Constant;
    ReachableIsCalm(cfg, steps);
    RegularIsSourced(run(0).store);
    end := OnlyStuckRemain(run, pick);
    var more := RunIsReachable(cfg, steps, run, end);
    forall t | StuckTicket(run(end).store, t) ensures t in run(end).dirty {
      NoLostWakeups(cfg, more, t);
      NothingOwedUnstored(cfg, more);
      StuckIsNotQuiet(run(end).store, t);
      StuckOwesNothing(Execute(Initial(cfg), more), t);
    }
  }

  lemma StuckOwesNothing(w: World, t: Ticket)
    requires StuckTicket(w.store, t) && w.owed <= w.store.blobs.Keys
    ensures !Owing(w, t)
  {
    hide UploadDue;
  }

  lemma StuckIsNotQuiet(s: Store, t: Ticket)
    requires StuckTicket(s, t)
    ensures !Quiet(s, Start(t))
  {
    hide StuckTicket, Quiet, Reconcile;
    StuckRetries(s, t);
    if Quiet(s, Start(t)) {
      QuietStays(s, Start(t));
    }
  }
}
