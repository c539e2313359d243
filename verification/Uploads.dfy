/** The client side of an upload: the manifest it prepares and the watch it keeps until it may upload. */
module Uploads {
  import opened Basics
  import opened Identity
  import opened Cluster
  import opened Programs
  import opened Network
  import opened Stages
  import Versions

  /******* The watch *******/

  datatype WatchEvent = Seen(o: Object) | Broken | Deleted | Other

  /** The reaction to the first event that is not ignored; a watch that ends without one leaves no URL to upload to. */
  function Follow(c: Client, events: seq<WatchEvent>): Phase {
    if events == [] then Aborted
    else if !events[0].Seen? then Aborted
    else if Reaction(c, events[0].o) != Waiting then Reaction(c, events[0].o)
    else Follow(c, events[1..])
  }

  /** The upload loop up to the PUT. */
  method AwaitUrl(c: Client, events: seq<WatchEvent>) returns (phase: Phase)
    ensures phase == Follow(c, events)
  {
    for i := 0 to |events|
      invariant Follow(c, events) == Follow(c, events[i..])
    {
      assert events[i..][0] == events[i] && events[i..][1..] == events[i + 1..];
      match events[i] {
        case Seen(o) =>
          if o.spec.build.None? {
            return Aborted;
          }
          var status, spec := o.status.upload, o.spec.build.value.upload;
          if status.stored == c.md5 {
            return Skipped;
          }
          if status.url.Some? {
            if spec.None? {
              return Aborted;
            }
            if status.request == spec.value.request {
              return Holding(status.url.value, spec.value);
            }
          }
        case Broken => return Aborted;
        case Deleted => return Aborted;
        case Other => return Aborted;
      }
    }
    return Aborted;
  }

  /** Nothing to react to: neither the checksum is recorded nor a URL signed for the request in the spec. */
  predicate Ignored(c: Client, event: WatchEvent) {
    event.Seen? && event.o.spec.build.Some? && event.o.status.upload.stored != c.md5
    && (event.o.status.upload.url.None?
        || (event.o.spec.build.value.upload.Some?
            && event.o.spec.build.value.upload.value.request != event.o.status.upload.request))
  }

  /** What the client makes of the first event that is not ignored. */
  predicate Decides(c: Client, event: WatchEvent, phase: Phase) {
    if !event.Seen? || event.o.spec.build.None? then phase == Aborted
    else
      var status, upload := event.o.status.upload, event.o.spec.build.value.upload;
      if status.stored == c.md5 then phase == Skipped
      else phase == if upload.Some? && status.url.Some? then Holding(status.url.value, upload.value) else Aborted
  }

  /** The client never uploads on the word of an ignored event, what it holds comes from one version it has seen, and it
      skips the upload only for a version that records its checksum. */
  lemma {:induction false} HoldsWhatItSaw(c: Client, events: seq<WatchEvent>) returns (i: nat)
    ensures i <= |events| && forall j :: 0 <= j < i ==> Ignored(c, events[j])
    ensures i == |events| ==> Follow(c, events) == Aborted
    ensures i < |events| ==> !Ignored(c, events[i]) && Decides(c, events[i], Follow(c, events))
  {
    if events == [] || !Ignored(c, events[0]) {
      i := 0;
    } else {
      var k := HoldsWhatItSaw(c, events[1..]);
      i := k + 1;
      assert forall j :: 0 < j < i ==> events[j] == events[1..][j - 1];
    }
  }

  /******* The manifest *******/

  class Manifest {
    var ns: string
    var name: string
    var spec: Spec

    constructor (ns: string, name: string, spec: Spec)
      ensures this.ns == ns && this.name == name && this.spec == spec
    {
      this.ns, this.name, this.spec := ns, name, spec;
    }

    method ClearImage()
      modifies this`spec
      ensures spec == old(spec).(image := "")
    {
      spec := spec.(image := "");
    }

    /** Whatever the build was before, Upload becomes its only source. */
    method SetUploadContainerSpec(md5: string, request: string)
      modifies this`spec
      ensures spec == old(spec).(build := Some(Build(None, Some(Upload(md5, request)))))
    {
      var b := spec.build;
      if b.None? {
        b := Some(Build(None, None));
      }
      b := Some(b.value.(git := None));
      b := Some(b.value.(upload := Some(Upload(md5, request))));
      spec := spec.(build := b);
    }

    method SpecifyUpload(md5: string, request: string)
      modifies this`spec
      ensures spec == Specified(old(spec), md5, request)
    {
      ClearImage();
      SetUploadContainerSpec(md5, request);
    }

    /** An explicit namespace wins over the one in the manifest, and that one over the context and the default. */
    method SetNamespace(specified: string, contextual: string)
      modifies this`ns
      ensures ns == if specified != "" then specified
                    else if old(ns) != "" then old(ns)
                    else if contextual != "" then contextual else "default"
    {
      if specified != "" {
        ns := specified;
      } else if ns == "" {
        var chosen := "default";
        if contextual != "" {
          chosen := contextual;
        }
        ns := chosen;
      }
    }

    /** Appends the next version; on an error the name stays. */
    method Increment(items: seq<string>) returns (ok: bool)
      requires Versions.NameOk(name)
      modifies this`name
      ensures ok <==> !Versions.TooLarge(old(name), items)
      ensures var next := Versions.Wrap(Versions.Highest(old(name), items) + 1);
              name == if ok then old(name) + "-" + Versions.PrintInt(next) else old(name)
      ensures ok && Versions.Highest(old(name), items) < Versions.MAX_INT ==> name !in items
    {
      var version := Versions.NextVersion(items, name);
      if version.Error? {
        return false;
      }
      Versions.FreshName(items, name);
      name := name + "-" + Versions.PrintInt(version.value);
      return true;
    }
  }

  function Specified(spec: Spec, md5: string, request: string): Spec {
    spec.(image := "", build := Some(Build(None, Some(Upload(md5, request)))))
  }

  /** What the client prepares always starts a build, tagged with its own checksum, and leaves neither of the build
      traps behind: no stale image and exactly one source. */
  lemma SpecifiedStartsBuild(s: Store, id: Id, spec: Spec, md5: string, request: string)
    requires id in s.objects && s.objects[id].spec == Specified(spec, md5, request)
    ensures Building(s, id) && s.objects[id].spec.image == ""
    ensures var b := s.objects[id].spec.build.value; Tag(b) == md5 && b.git.None? && b.upload.Some?
    ensures Regular(s, id) && !Clash(s, id)
  {
    assert |ImageUrl(s.cfg, id, s.objects[id].spec.build.value)| > 0;
  }
}
