/** Ready: what it implies, who takes it away, and in which order it spreads along references. */
module Readiness {
  import opened Basics
  import opened Identity
  import opened Cluster
  import opened Programs
  import opened Network
  import opened Wakeups
  import opened Safety

  /******* Ready and its condition *******/

  /** Two controllers write the same status, yet Ready never stands without its condition. */
  lemma ReadyMeansCondition(cfg: Config, steps: seq<Step>, id: Id)
    requires Legal(Initial(cfg), steps)
    ensures var objects := Execute(Initial(cfg), steps).store.objects;
            id in objects && objects[id].status.ready ==> IsTrue(objects[id].status, MainCondition(id.kind))
  {
    Reachable(cfg, steps);
    var w := Execute(Initial(cfg), steps);
    if id in w.store.objects {
      assert Version(id, w.store.objects[id]) in w.past;
    }
  }

  predicate Writes(step: Step) {
    UserStep(step) || step.Act? || step.Pokes?
  }

  lemma OnlyWritersWrite(w: World, step: Step)
    requires Enabled(w, step) && !Writes(step)
    ensures Apply(w, step).store.objects == w.store.objects && Apply(w, step).readyAt == w.readyAt
  {
    hide Wake;
  }

  lemma UserWrites(w: World, step: Step, id: Id)
    requires Enabled(w, step) && UserStep(step)
    requires id in w.store.objects && id in ApplyUser(w, step).store.objects
    ensures ApplyUser(w, step).store.objects[id].status == w.store.objects[id].status
    ensures ApplyUser(w, step).store.objects[id].spec == w.store.objects[id].spec || step.Edit?
  {
    hide Wake;
  }

  lemma PokeWrites(w: World, c: nat, stamp: string, id: Id)
    requires Enabled(w, Pokes(c, stamp))
    requires id in w.store.objects && id in ApplyPoke(w, c, stamp).store.objects
    ensures ApplyPoke(w, c, stamp).store.objects[id].status == w.store.objects[id].status
    ensures ApplyPoke(w, c, stamp).store.objects[id].spec == w.store.objects[id].spec
  {
    hide Wake;
  }

  lemma ActWrites(w: World, t: Ticket, reply: Reply, id: Id)
    requires SafeWorld(w) && Enabled(w, Act(t, reply))
    requires id in w.store.objects && id in ApplyAct(w, t, reply).store.objects
    requires ApplyAct(w, t, reply).store.objects[id] != w.store.objects[id]
    ensures t.id == id
    ensures var c := CallOf(w.store.cfg, w.active[t]);
            (c.PutStatus? || c.PutSpec?) && Serve(w.store, c).loud
            && ApplyAct(w, t, reply).store == Serve(w.store, c).store
  {
    hide Wake, CallOf, Serve, Resume, PcSound, JobSound, StatusSound, ReadySound;
    var c := CallOf(w.store.cfg, w.active[t]);
    assert Tidy(w.store, t, w.active[t]);
    PutsOwnObject(w.store.cfg, t, w.active[t]);
    ServeOnlyAt(w.store, c);
    assert ApplyAct(w, t, reply).store == Serve(w.store, c).store;
    if c.PutStatus? || c.PutSpec? {
      PutFrame(w.store, c);
      assert id != c.id ==> SameAt(w.store.objects, Serve(w.store, c).store.objects, id);
    } else {
      OnlyPutsWriteObjects(w.store, c);
    }
  }

  /** How one step can rewrite an object that exists before and after it. */
  lemma WhoWrites(w: World, step: Step, id: Id)
    requires SafeWorld(w) && Enabled(w, step)
    requires id in w.store.objects && id in Apply(w, step).store.objects
    requires Apply(w, step).store.objects[id] != w.store.objects[id]
    ensures Apply(w, step).store.objects[id].status == w.store.objects[id].status
            || (step.Act? && step.ticket.id == id)
    ensures Apply(w, step).store.objects[id].spec == w.store.objects[id].spec || step.Edit?
            || (step.Act? && step.ticket.id == id)
    ensures step.Act? ==>
              var c := CallOf(w.store.cfg, w.active[step.ticket]);
              (c.PutStatus? || c.PutSpec?) && Serve(w.store, c).loud && Apply(w, step).store == Serve(w.store, c).store
  {
    hide CallOf, Serve, SafeWorld, ApplyAct, ApplyUser, ApplyPoke, ChildStore, Changed;
    if UserStep(step) {
      UserWrites(w, step, id);
    } else if step.Act? {
      ActWrites(w, step.ticket, step.reply, id);
    } else if step.Pokes? {
      PokeWrites(w, step.client, step.stamp, id);
    } else {
      OnlyWritersWrite(w, step);
    }
  }

  /** Readiness of a Model or Dataset is sticky: only a build whose desired image differs from the image in the
      spec takes it back. */
  lemma WhoUnreadies(cfg: Config, steps: seq<Step>, step: Step, id: Id)
    requires Legal(Initial(cfg), steps) && Enabled(Execute(Initial(cfg), steps), step)
    requires var w := Execute(Initial(cfg), steps);
             Trained(id) && id in w.store.objects && w.store.objects[id].status.ready
             && id in Apply(w, step).store.objects && !Apply(w, step).store.objects[id].status.ready
    ensures var w := Execute(Initial(cfg), steps);
            step.Act? && step.ticket == Ticket(Builder, id)
            && w.store.objects[id].spec.image != DesiredImage(w.store.cfg, id, w.store.objects[id].spec)
  {
    hide Apply, Serve, CallOf, SafeWorld;
    var w := Execute(Initial(cfg), steps);
    Reachable(cfg, steps);
    WhoWrites(w, step, id);
    LoudPut(w, step.ticket);
  }

  /******* First Ready moments *******/

  ghost predicate FirstMoments(w: World, w': World, id: Id) {
    (id in w.readyAt ==> id in w'.readyAt && w'.readyAt[id] == w.readyAt[id])
    && (id !in w.readyAt && id in w'.readyAt ==>
          w'.readyAt[id] == w'.now > w.now
          && id in w'.store.objects && w'.store.objects[id].status.ready
          && !(id in w.store.objects && w.store.objects[id].status.ready))
  }

  lemma ChangedMoments(w: World, s: Store, r: Ref, id: Id)
    requires ReadySound(w)
    ensures FirstMoments(w, Changed(w, s, r), id)
  {
    hide Wake;
  }

  /** `readyAt` records the moment of the first step after which an object is Ready, and keeps it. */
  lemma FirstReadyMoment(w: World, step: Step, id: Id)
    requires SafeWorld(w) && Enabled(w, step)
    ensures FirstMoments(w, Apply(w, step), id)
  {
    hide Wake, CallOf, Serve, Resume, PcSound, JobSound, StatusSound, ReadySound, Changed, Revise, ChildStore;
    var w' := Apply(w, step);
    if !Writes(step) {
      OnlyWritersWrite(w, step);
    } else if step.Act? {
      var c := CallOf(w.store.cfg, w.active[step.ticket]);
      ChangedMoments(w, Serve(w.store, c).store, Target(c), id);
    } else if UserStep(step) {
      UserMoments(w, step, id);
    } else {
      PokeMoments(w, step.client, step.stamp, id);
    }
  }

  lemma UserMoments(w: World, step: Step, id: Id)
    requires SafeWorld(w) && Enabled(w, step) && UserStep(step)
    ensures FirstMoments(w, ApplyUser(w, step), id)
  {
    hide Wake, PcSound, JobSound, StatusSound;
  }

  lemma PokeMoments(w: World, c: nat, stamp: string, id: Id)
    requires SafeWorld(w) && Enabled(w, Pokes(c, stamp))
    ensures FirstMoments(w, ApplyPoke(w, c, stamp), id)
  {
    hide Wake, PcSound, JobSound, StatusSound;
  }

  /** No two versions of an object name different objects. */
  ghost predicate FixedReferences(past: set<Fact>) {
    forall id, o1, o2 :: Version(id, o1) in past && Version(id, o2) in past ==>
      o1.spec.model == o2.spec.model && o1.spec.dataset == o2.spec.dataset
  }

  /** The spec names `ref`, in the same namespace. */
  predicate Names(id: Id, spec: Spec, ref: Id) {
    ref.ns == id.ns
    && ((ref.kind == Model && spec.model == Some(ref.name)) || (ref.kind == Dataset && spec.dataset == Some(ref.name)))
  }

  ghost predicate RefersTo(past: set<Fact>, id: Id, ref: Id) {
    exists o :: Version(id, o) in past && Names(id, o.spec, ref)
  }

  lemma OrderedBefore(w: World, id: Id, ref: Id)
    requires SafeWorld(w) && FixedReferences(w.past)
    requires id.kind == Model && id in w.readyAt && RefersTo(w.past, id, ref)
    ensures ref in w.readyAt && w.readyAt[ref] < w.readyAt[id]
  {
    var o :| Witness(w.past, w.readyAt, id, o);
    var p :| Version(id, p) in w.past && Names(id, p.spec, ref);
    assert Names(id, o.spec, ref);
  }

  /** With fixed references, a Model is first Ready strictly after its base Model and its Dataset. */
  lemma DependencyOrder(cfg: Config, steps: seq<Step>, id: Id, ref: Id)
    requires Legal(Initial(cfg), steps)
    requires var w := Execute(Initial(cfg), steps);
             FixedReferences(w.past) && id.kind == Model && id in w.readyAt && RefersTo(w.past, id, ref)
    ensures var w := Execute(Initial(cfg), steps); ref in w.readyAt && w.readyAt[ref] < w.readyAt[id]
  {
    Reachable(cfg, steps);
    OrderedBefore(Execute(Initial(cfg), steps), id, ref);
  }

  /** A path of references whose inner nodes are Models. */
  ghost predicate Chain(past: set<Fact>, path: seq<Id>) {
    forall i :: 0 <= i < |path| - 1 ==> path[i].kind == Model && RefersTo(past, path[i], path[i + 1])
  }

  /** The whole ancestor chain: each link costs at least one moment. */
  lemma {:induction false} ChainOrder(w: World, path: seq<Id>)
    requires SafeWorld(w) && FixedReferences(w.past)
    requires path != [] && Chain(w.past, path) && path[0] in w.readyAt
    ensures path[|path| - 1] in w.readyAt
    ensures w.readyAt[path[|path| - 1]] + (|path| - 1) <= w.readyAt[path[0]]
  {
    if |path| > 1 {
      OrderedBefore(w, path[0], path[1]);
      ChainOrder(w, path[1..]);
    }
  }

  /** No Model on or behind a cycle of references ever becomes Ready. */
  lemma NeverReadyBehindCycle(cfg: Config, steps: seq<Step>, path: seq<Id>, cycle: seq<Id>)
    requires Legal(Initial(cfg), steps)
    requires var past := Execute(Initial(cfg), steps).past;
             FixedReferences(past) && path != [] && Chain(past, path) && |cycle| > 1 && Chain(past, cycle)
    requires path[|path| - 1] == cycle[0] == cycle[|cycle| - 1]
    ensures path[0] !in Execute(Initial(cfg), steps).readyAt
  {
    Reachable(cfg, steps);
    var w := Execute(Initial(cfg), steps);
    if path[0] in w.readyAt {
      ChainOrder(w, path);
      ChainOrder(w, cycle);
    }
  }
}
