/** Mirroring a notebook's files: the watcher that emits events, and the loop that consumes them. */
module FileSync {
  import opened Basics
  import BucketUrls

  datatype Op = Create | Write | Remove | Rename | Chmod | Combined(text: string)

  datatype Event = Event(index: nat, path: string, op: Op)

  type Files = map<string, string>

  /******* Which paths are watched *******/

  function Unslashed(path: string): string {
    if path != "" && path[|path| - 1] == '/' then Unslashed(path[..|path| - 1]) else path
  }

  function Base(path: string): string {
    if path == "" then "."
    else
      var p := Unslashed(path);
      if p == "" then "/" else p[BucketUrls.FindLast(p, '/') + 1..]
  }

  predicate Hidden(path: string) {
    Base(path) != "" && Base(path)[0] == '.'
  }

  /** A name in a directory. */
  predicate Names(path: string, dir: string, name: string) {
    path == dir + "/" + name && name != "" && '/' !in name
  }

  /** A path is hidden exactly if its last name starts with a dot, in whatever directory it is. */
  lemma HiddenNames(path: string, dir: string, name: string)
    requires Names(path, dir, name) || (path == name && name != "" && '/' !in name)
    ensures Base(path) == name && (Hidden(path) <==> name[0] == '.')
  {
    assert path[|path| - 1] == name[|name| - 1];
    assert Unslashed(path) == path;
    if path == dir + "/" + name {
      BucketUrls.LastSplits(dir, '/', name);
    } else {
      BucketUrls.FindLastNone(name, '/');
      assert path[0..] == name;
    }
  }

  /** Slashes at the end do not count. */
  lemma TrailingSlash(path: string)
    requires path != ""
    ensures Base(path + "/") == Base(path)
  {
    assert (path + "/")[..|path|] == path;
  }

  /** Nothing but slashes is the root, which is not hidden; no path at all is the current directory, which is. */
  lemma {:induction false} NoNames(path: string)
    requires forall i :: 0 <= i < |path| ==> path[i] == '/'
    ensures if path == "" then Base(path) == "." && Hidden(path) else Base(path) == "/" && !Hidden(path)
  {
    if |path| > 1 {
      NoNames(path[..|path| - 1]);
    }
  }

  /******* Pending events *******/

  predicate Tells(op: Op) {
    op.Create? || op.Write? || op.Remove? || op.Rename?
  }

  /** The last pending event that says whether `path` exists. */
  function Last(events: seq<Event>, path: string): Option<Op> {
    if events == [] then None
    else
      var e := events[|events| - 1];
      if e.path == path && Tells(e.op) then Some(e.op) else Last(events[..|events| - 1], path)
  }

  lemma LastAppend(events: seq<Event>, e: Event, path: string)
    ensures Last(events + [e], path) == if e.path == path && Tells(e.op) then Some(e.op) else Last(events, path)
  {
    assert (events + [e])[..|events|] == events;
  }

  lemma {:induction false} LastConcat(a: seq<Event>, b: seq<Event>, path: string)
    ensures Last(a + b, path) == if Last(b, path).Some? then Last(b, path) else Last(a, path)
  {
    if b == [] {
      assert a + b == a;
    } else {
      var front := b[..|b| - 1];
      assert (a + b)[..|a + b| - 1] == a + front;
      LastConcat(a, front, path);
    }
  }

  predicate Removes(op: Op) {
    op.Remove? || op.Rename?
  }

  /** Some pending event says that `path` is gone. */
  predicate Removed(events: seq<Event>, path: string) {
    events != [] && ((events[0].path == path && Removes(events[0].op)) || Removed(events[1..], path))
  }

  lemma {:induction false} RemovedConcat(a: seq<Event>, b: seq<Event>, path: string)
    ensures Removed(a + b, path) <==> Removed(a, path) || Removed(b, path)
  {
    if a == [] {
      assert a + b == b;
    } else {
      assert (a + b)[1..] == a[1..] + b;
      RemovedConcat(a[1..], b, path);
    }
  }

  /** Both lists tell the same about `path`. */
  predicate TellSame(a: seq<Event>, b: seq<Event>, path: string) {
    Last(a, path) == Last(b, path) && Removed(a, path) == Removed(b, path)
  }

  lemma SkipOne(a: seq<Event>, e: Event, b: seq<Event>, path: string)
    requires e.path != path || !Tells(e.op)
    ensures TellSame(a + ([e] + b), a + b, path)
  {
    LastConcat(a, b, path);
    LastConcat(a, [e] + b, path);
    LastConcat([e], b, path);
    RemovedConcat(a, b, path);
    RemovedConcat(a, [e] + b, path);
    RemovedConcat([e], b, path);
    assert [e][..0] == [];
  }

  lemma Renumber(a: seq<Event>, e: Event, index: nat, b: seq<Event>, path: string)
    ensures TellSame(a + ([e] + b), a + ([e.(index := index)] + b), path)
  {
    LastConcat(a, [e] + b, path);
    LastConcat([e], b, path);
    LastConcat(a, [e.(index := index)] + b, path);
    LastConcat([e.(index := index)], b, path);
    RemovedConcat(a, [e] + b, path);
    RemovedConcat([e], b, path);
    RemovedConcat(a, [e.(index := index)] + b, path);
    RemovedConcat([e.(index := index)], b, path);
    assert [e][..0] == [] && [e.(index := index)][..0] == [];
  }

  /** The two sides agree on `path`, or the last pending event for it says whether it exists remotely. */
  ghost predicate Faithful(remote: Files, copy: Files, pending: seq<Event>, path: string) {
    match Last(pending, path)
    case None => SameAt(remote, copy, path)
    case Some(op) => (op.Create? || op.Write?) <==> path in remote
  }

  lemma SameLast(remote: Files, copy: Files, events: seq<Event>, events': seq<Event>, path: string)
    requires TellSame(events, events', path) && Faithful(remote, copy, events, path)
    ensures Faithful(remote, copy, events', path)
  {
  }

  lemma Consumed(remote: Files, copy: Files, copy': Files, e: Event, rest: seq<Event>, path: string)
    requires Faithful(remote, copy, [e] + rest, path)
    requires copy' == Mirrored(remote, copy, e)
    ensures Faithful(remote, copy', rest, path)
  {
    LastConcat([e], rest, path);
    assert Last([e], path) == if e.path == path && Tells(e.op) then Some(e.op) else None by {
      assert [e][..0] == [];
    }
  }

  /** What one event does to the local files: a copy reads the remote file as it is now, and fails only if it is gone;
      a removal fails only if there is nothing to remove. */
  function Mirrored(remote: Files, copy: Files, e: Event): Files {
    if e.op.Write? || e.op.Create? then
      if e.path in remote then copy[e.path := remote[e.path]] else copy
    else if e.op.Remove? || e.op.Rename? then copy - {e.path}
    else copy
  }

  /** The local files once all these events are consumed while nothing moves remotely. */
  function MirroredAll(remote: Files, copy: Files, events: seq<Event>): Files
    decreases |events|
  {
    if events == [] then copy else MirroredAll(remote, Mirrored(remote, copy, events[0]), events[1..])
  }

  /** What decides whether the two sides will agree on `path`: for a file that exists, the last event that tells; for
      one that does not, whether it was never copied or some event removes it. */
  ghost predicate WillAgree(remote: Files, copy: Files, events: seq<Event>, path: string) {
    if path in remote then
      match Last(events, path)
      case None => SameAt(remote, copy, path)
      case Some(op) => !Removes(op)
    else path !in copy || Removed(events, path)
  }

  /** Whatever is pending, and whether or not it tells the truth: consuming it makes the two sides agree on a path if
      and only if the last telling event, or in its absence the present contents, say so. */
  lemma {:induction false} ConsumingExactly(remote: Files, copy: Files, events: seq<Event>, path: string)
    ensures SameAt(remote, MirroredAll(remote, copy, events), path) <==> WillAgree(remote, copy, events, path)
    decreases |events|
  {
    if events != [] {
      var e, rest := events[0], events[1..];
      ConsumingExactly(remote, Mirrored(remote, copy, e), rest, path);
      assert events == [e] + rest;
      LastConcat([e], rest, path);
      assert [e][..0] == [];
    }
  }

  /** An event that combines operations is skipped, so it makes no difference: the sides agree on its path afterwards
      exactly when they would have without it. */
  lemma CombinedIsLost(remote: Files, copy: Files, before: seq<Event>, e: Event, after: seq<Event>, path: string)
    requires e.op.Combined?
    ensures WillAgree(remote, copy, before + ([e] + after), path) <==> WillAgree(remote, copy, before + after, path)
  {
    SkipOne(before, e, after, path);
  }

  /******* The two machines *******/

  class Mirror {
    var remote: Files
    var local_: Files
    var raw: seq<Event>
    var pipe: seq<Event>
    var i: nat

    /** The paths whose last change was told by nothing but a combined event. */
    ghost var untold: set<string>

    ghost function Pending(): seq<Event>
      reads this
    {
      pipe + raw
    }

    /** What every step keeps: each visible path whose last change was told is the same on both sides, or has its
        presence told by a pending event. */
    ghost predicate Valid()
      reads this
    {
      (forall path :: !Hidden(path) && path !in untold ==> Faithful(remote, local_, Pending(), path))
      && (forall e :: e in pipe ==> !Hidden(e.path) && e.index <= i)
      && (forall j, k :: 0 <= j < k < |pipe| ==> pipe[j].index < pipe[k].index)
    }

    constructor (remote: Files, local_: Files)
      requires forall path :: !Hidden(path) ==> SameAt(remote, local_, path)
      ensures Valid() && this.remote == remote && this.local_ == local_ && Pending() == [] && untold == {}
    {
      this.remote, this.local_, untold := remote, local_, {};
      raw, pipe, i := [], [], 0;
    }

    /******* The notebook *******/

    method Emit(path: string, op: Op)
      modifies this`raw, this`untold
      ensures raw == old(raw) + [Event(0, path, op)]
      ensures untold == if Tells(op) then old(untold) - {path} else old(untold)
      ensures forall q :: Last(Pending(), q) == if q == path && Tells(op) then Some(op) else Last(old(Pending()), q)
    {
      raw := raw + [Event(0, path, op)];
      untold := if Tells(op) then untold - {path} else untold;
      assert Pending() == old(Pending()) + [Event(0, path, op)];
      forall q ensures Last(Pending(), q) == if q == path && Tells(op) then Some(op) else Last(old(Pending()), q) {
        LastAppend(old(Pending()), Event(0, path, op), q);
      }
    }

    method CreateFile(path: string, content: string)
      requires Valid() && path !in remote
      modifies this`remote, this`raw, this`untold
      ensures Valid() && untold == old(untold) - {path} && remote == old(remote)[path := content]
    {
      hide Hidden, Last;
      remote := remote[path := content];
      Emit(path, Create);
    }

    method WriteFile(path: string, content: string)
      requires Valid() && path in remote
      modifies this`remote, this`raw, this`untold
      ensures Valid() && untold == old(untold) - {path} && remote == old(remote)[path := content]
    {
      hide Hidden, Last;
      remote := remote[path := content];
      Emit(path, Write);
    }

    method RemoveFile(path: string)
      requires Valid() && path in remote
      modifies this`remote, this`raw, this`untold
      ensures Valid() && untold == old(untold) - {path} && remote == old(remote) - {path}
    {
      hide Hidden, Last;
      remote := remote - {path};
      Emit(path, Remove);
    }

    /** Also over an existing file, and also from a hidden temporary name. */
    method RenameFile(path: string, to: string)
      requires Valid() && path in remote && to != path
      modifies this`remote, this`raw, this`untold
      ensures Valid() && untold == old(untold) - {path, to}
      ensures remote == old(remote)[to := old(remote)[path]] - {path}
    {
      hide Hidden, Last;
      remote := remote[to := remote[path]] - {path};
      Emit(path, Rename);
      Emit(to, Create);
    }

    method ChmodFile(path: string)
      requires Valid()
      modifies this`raw, this`untold
      ensures Valid() && untold == old(untold)
    {
      hide Hidden, Last;
      Emit(path, Chmod);
    }

    /** Any change of one path that the notification system reports as one event with several operations. */
    method ChangeFile(path: string, after: Option<string>, text: string)
      requires Valid()
      modifies this`remote, this`raw, this`untold
      ensures Valid() && untold == old(untold) + {path}
      ensures remote == if after.Some? then old(remote)[path := after.value] else old(remote) - {path}
    {
      hide Hidden, Last;
      remote := if after.Some? then remote[path := after.value] else remote - {path};
      untold := untold + {path};
      Emit(path, Combined(text));
    }

    /******* The watcher *******/

    /** One event from the channel: counted, dropped if hidden, otherwise written to the pipe. */
    method WatchOne()
      requires Valid() && raw != []
      modifies this`raw, this`pipe, this`i
      ensures Valid() && i == old(i) + 1 && raw == old(raw)[1..]
      ensures var e := old(raw)[0]; pipe == if Hidden(e.path) then old(pipe) else old(pipe) + [e.(index := i)]
      ensures forall path :: !Hidden(path) ==> TellSame(old(Pending()), Pending(), path)
      ensures forall dir, name :: Names(old(raw)[0].path, dir, name) ==>
                pipe == if name[0] == '.' then old(pipe) else old(pipe) + [old(raw)[0].(index := i)]
    {
      hide Hidden, Last, Removed, TellSame, Faithful;
      forall dir, name | Names(raw[0].path, dir, name) ensures Hidden(raw[0].path) <==> name[0] == '.' {
        HiddenNames(raw[0].path, dir, name);
      }
      var e := raw[0];
      raw := raw[1..];
      i := i + 1;
      assert old(raw) == [e] + raw;
      assert old(Pending()) == old(pipe) + ([e] + raw);
      if Hidden(e.path) {
        forall path | !Hidden(path) ensures TellSame(old(Pending()), Pending(), path) {
          SkipOne(pipe, e, raw, path);
        }
      } else {
        pipe := pipe + [e.(index := i)];
        assert Pending() == old(pipe) + ([e.(index := i)] + raw);
        forall path | !Hidden(path) ensures TellSame(old(Pending()), Pending(), path) {
          Renumber(old(pipe), e, i, raw, path);
        }
      }
      forall path | !Hidden(path) && path !in untold ensures Faithful(remote, local_, Pending(), path) {
        SameLast(remote, local_, old(Pending()), Pending(), path);
      }
    }

    method WatchLoop()
      requires Valid()
      modifies this`raw, this`pipe, this`i
      ensures Valid() && raw == [] && i == old(i) + |old(raw)|
      ensures forall path :: !Hidden(path) ==> TellSame(old(Pending()), Pending(), path)
    {
      while raw != []
        invariant Valid() && i + |raw| == old(i) + |old(raw)|
        invariant forall path :: !Hidden(path) ==> TellSame(old(Pending()), Pending(), path)
        decreases |raw|
      {
        WatchOne();
      }
    }

    /******* The client *******/

    method SyncOne()
      requires Valid() && pipe != []
      modifies this`pipe, this`local_
      ensures Valid() && pipe == old(pipe)[1..]
      ensures local_ == Mirrored(remote, old(local_), old(pipe)[0])
    {
      hide Hidden, Last, Faithful;
      var e := pipe[0];
      pipe := pipe[1..];
      ghost var before := local_;
      if e.op == Write || e.op == Create {
        if e.path in remote {
          local_ := local_[e.path := remote[e.path]];
        }
      } else if e.op == Remove || e.op == Rename {
        local_ := local_ - {e.path};
      }
      assert old(Pending()) == [e] + Pending();
      forall path | !Hidden(path) && path !in untold ensures Faithful(remote, local_, Pending(), path) {
        Consumed(remote, before, local_, e, Pending(), path);
      }
    }

    method SyncLoop()
      requires Valid()
      modifies this`pipe, this`local_
      ensures Valid() && pipe == [] && local_ == MirroredAll(remote, old(local_), old(pipe))
      ensures forall path :: Hidden(path) ==> SameAt(old(local_), local_, path)
    {
      while pipe != []
        invariant Valid() && MirroredAll(remote, local_, pipe) == MirroredAll(remote, old(local_), old(pipe))
        invariant forall path :: Hidden(path) ==> SameAt(old(local_), local_, path)
        decreases |pipe|
      {
        assert !Hidden(pipe[0].path);
        SyncOne();
      }
    }

    /** Once the event stream is consumed: a visible path is the same on both sides if and only if the events pending
        before say so, and always unless its last change was told by nothing but a combined event. Hidden local files
        have not been touched. */
    method Settle()
      requires Valid()
      modifies this`raw, this`pipe, this`i, this`local_
      ensures Valid() && Pending() == []
      ensures forall path :: !Hidden(path) ==>
                (SameAt(remote, local_, path) <==> WillAgree(remote, old(local_), old(Pending()), path))
      ensures forall path :: !Hidden(path) && path !in untold ==> SameAt(remote, local_, path)
      ensures forall path :: Hidden(path) ==> SameAt(old(local_), local_, path)
      ensures forall path, dir, name :: Names(path, dir, name) && name[0] != '.' ==>
                (SameAt(remote, local_, path) <==> WillAgree(remote, old(local_), old(Pending()), path))
                && (path !in untold ==> SameAt(remote, local_, path))
      ensures forall path, dir, name :: Names(path, dir, name) && name[0] == '.' ==> SameAt(old(local_), local_, path)
    {
      hide Hidden, Removed, MirroredAll;
      WatchLoop();
      ghost var events := pipe;
      assert Pending() == events;
      SyncLoop();
      forall path | !Hidden(path)
        ensures SameAt(remote, local_, path) <==> WillAgree(remote, old(local_), old(Pending()), path)
      {
        assert TellSame(old(Pending()), events, path);
        ConsumingExactly(remote, old(local_), events, path);
      }
      forall path, dir, name | Names(path, dir, name) ensures Hidden(path) <==> name[0] == '.' {
        HiddenNames(path, dir, name);
      }
    }
  }
}
