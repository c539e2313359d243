/** Pod assembly: the in-place edits that give a Pod its params, its buckets and its resources. */
module PodAssembly {
  import opened Basics
  import opened Cluster
  import BucketUrls

  /******* Pod specs *******/

  datatype VolumeSource =
    | ConfigMapVolume(configMap: string)
    | HostPathVolume(path: string)
    | CsiVolume(bucket: string, readOnly: bool)

  datatype Volume = Volume(name: string, source: VolumeSource)

  datatype VolumeMount = VolumeMount(name: string, mountPath: string, subPath: string, readOnly: bool)

  type ResourceList = map<string, int>

  /** A list that was never made is None. */
  datatype Container = Container(
    name: string,
    image: string,
    mounts: seq<VolumeMount>,
    requests: Option<ResourceList>,
    limits: Option<ResourceList>)

  datatype BucketMount = BucketMount(bucketSubdir: string, contentSubdir: string)

  datatype MountRequest = MountRequest(name: string, mounts: seq<BucketMount>, container: string, readOnly: bool)

  datatype GpuRequest = GpuRequest(gpu: Gpu, count: int)

  datatype Resources = Resources(cpu: int, memory: int, disk: int, gpu: Option<GpuRequest>)

  /** The first container of that name, or the number of containers. */
  function FirstNamed(containers: seq<Container>, name: string): (k: nat)
    ensures k <= |containers| && (k < |containers| ==> containers[k].name == name)
    ensures forall i :: 0 <= i < k ==> containers[i].name != name
  {
    if containers == [] || containers[0].name == name then 0 else 1 + FirstNamed(containers[1..], name)
  }

  predicate Has(containers: seq<Container>, name: string) {
    FirstNamed(containers, name) < |containers|
  }

  lemma FirstIs(containers: seq<Container>, name: string, k: nat)
    requires k <= |containers| && (k < |containers| ==> containers[k].name == name)
    requires forall i :: 0 <= i < k ==> containers[i].name != name
    ensures FirstNamed(containers, name) == k
  {
  }

  /******* What the edits are meant to do *******/

  function Mounted(containers: seq<Container>, name: string, mounts: seq<VolumeMount>): (r: seq<Container>)
    ensures |r| == |containers|
    ensures forall i :: 0 <= i < |r| ==>
              r[i] == if i == FirstNamed(containers, name) then containers[i].(mounts := containers[i].mounts + mounts)
                      else containers[i]
  {
    var k := FirstNamed(containers, name);
    if k == |containers| then containers
    else containers[k := containers[k].(mounts := containers[k].mounts + mounts)]
  }

  const PARAMS_MOUNT := VolumeMount("params", "/content/params.json", "params.json", false)

  function BucketVolume(cloud: Cloud, url: BucketUrls.BucketUrl, req: MountRequest): Volume {
    Volume(req.name, if cloud.Gcp? then CsiVolume(url.bucket, req.readOnly) else HostPathVolume(url.path))
  }

  function SubPath(cloud: Cloud, url: BucketUrls.BucketUrl, bucketSubdir: string): string {
    if cloud.Gcp? then BucketUrls.TrimSlash(url.path + "/" + bucketSubdir) else bucketSubdir
  }

  function OneMount(cloud: Cloud, url: BucketUrls.BucketUrl, req: MountRequest, m: BucketMount): VolumeMount {
    VolumeMount(req.name, "/content/" + m.contentSubdir, SubPath(cloud, url, m.bucketSubdir), req.readOnly)
  }

  function BucketMounts(cloud: Cloud, url: BucketUrls.BucketUrl, req: MountRequest): seq<VolumeMount> {
    seq(|req.mounts|, i requires 0 <= i < |req.mounts| => OneMount(cloud, url, req, req.mounts[i]))
  }

  /** The persisted URL if there is one, parsed; otherwise the computed one. */
  function MountSource(persisted: string, computed: BucketUrls.BucketUrl): Result<BucketUrls.BucketUrl> {
    if persisted != "" then BucketUrls.Parse(persisted) else Ok(computed)
  }

  /** Mounting starts from the persisted URL if there is one, and otherwise from the computed one. */
  predicate StartsFrom(persisted: string, computed: BucketUrls.BucketUrl, url: BucketUrls.BucketUrl) {
    if persisted != "" then BucketUrls.Parse(persisted) == Ok(url) else url == computed
  }

  /** On GCP a bucket volume is the bucket, and the mount goes to the path of the URL and the subdirectory below it,
      without a leading slash; on a local cluster the volume is the host directory of the URL. */
  predicate VolumeOf(cloud: Cloud, url: BucketUrls.BucketUrl, readOnly: bool, volume: VolumeSource) {
    match cloud
    case Gcp => volume == CsiVolume(url.bucket, readOnly)
    case KindCluster => volume == HostPathVolume(url.path)
  }

  predicate Below(cloud: Cloud, url: BucketUrls.BucketUrl, subdir: string, subPath: string) {
    match cloud
    case Gcp => if url.path != "" && url.path[0] == '/' then "/" + subPath == url.path + "/" + subdir
                else if url.path == "" then subPath == subdir
                else subPath == url.path + "/" + subdir
    case KindCluster => subPath == subdir
  }

  lemma SubPathIsBelow(cloud: Cloud, url: BucketUrls.BucketUrl, subdir: string)
    ensures Below(cloud, url, subdir, SubPath(cloud, url, subdir))
  {
    assert "/" + (url.path + "/" + subdir)[1..] == url.path + "/" + subdir <== url.path != "" && url.path[0] == '/';
    assert ("" + "/" + subdir)[1..] == subdir;
  }

  /** The mounts that one request asks for. */
  predicate MountsIn(cloud: Cloud, url: BucketUrls.BucketUrl, req: MountRequest, mounts: seq<VolumeMount>) {
    |mounts| == |req.mounts|
    && forall j :: 0 <= j < |mounts| ==>
         mounts[j].name == req.name && mounts[j].mountPath == "/content/" + req.mounts[j].contentSubdir
         && mounts[j].readOnly == req.readOnly && Below(cloud, url, req.mounts[j].bucketSubdir, mounts[j].subPath)
  }

  lemma MountsAre(cloud: Cloud, persisted: string, computed: BucketUrls.BucketUrl, req: MountRequest)
    ensures MountSource(persisted, computed).Ok? <==> persisted == "" || BucketUrls.Parse(persisted).Ok?
    ensures MountSource(persisted, computed).Ok? ==>
              var url := MountSource(persisted, computed).value;
              StartsFrom(persisted, computed, url) && MountsIn(cloud, url, req, BucketMounts(cloud, url, req))
              && BucketVolume(cloud, url, req).name == req.name
              && VolumeOf(cloud, url, req.readOnly, BucketVolume(cloud, url, req).source)
  {
    hide BucketUrls.Parse, SubPath, Below;
    if MountSource(persisted, computed).Ok? {
      var url := MountSource(persisted, computed).value;
      forall j | 0 <= j < |req.mounts|
        ensures Below(cloud, url, req.mounts[j].bucketSubdir, BucketMounts(cloud, url, req)[j].subPath)
      {
        SubPathIsBelow(cloud, url, req.mounts[j].bucketSubdir);
      }
    }
  }

  const FUSE_ANNOTATIONS: map<string, string> := map[
    "gke-gcsfuse/volumes" := "true",
    "gke-gcsfuse/cpu-limit" := "2",
    "gke-gcsfuse/memory-limit" := "800Mi",
    "gke-gcsfuse/ephemeral-storage-limit" := "100Gi"]

  /******* Resources *******/

  const GIGABYTE: int := 0x4000_0000

  function Wrap64(n: int): int {
    (n + 0x8000_0000_0000_0000) % 0x1_0000_0000_0000_0000 - 0x8000_0000_0000_0000
  }

  /** A size in gigabytes is exact exactly below eight giga-gigabytes. */
  lemma ExactSize(size: int)
    requires -0x8000_0000_0000_0000 <= size < 0x8000_0000_0000_0000
    ensures Wrap64(size * GIGABYTE) == size * GIGABYTE <==> -0x2_0000_0000 <= size < 0x2_0000_0000
  {
  }

  function Defaults(cloud: Cloud): Resources {
    if cloud.KindCluster? then Resources(0, 0, 0, None) else Resources(2, 4, 100, None)
  }

  const GPU_RESOURCE := "nvidia.com/gpu"

  function GpuSelector(cloud: Cloud, gpu: Gpu): map<string, string>
    requires GpuSupported(cloud, gpu)
  {
    if cloud.KindCluster? then map[]
    else
      match gpu
      case NvidiaT4 => map["cloud.google.com/gke-accelerator" := "nvidia-tesla-t4"]
      case NvidiaL4 => map["cloud.google.com/gke-accelerator" := "nvidia-l4"]
      case NvidiaA100 => map["cloud.google.com/gke-accelerator" := "nvidia-tesla-a100"]
  }

  /** On GCP a Pod with a GPU goes to nodes with exactly that accelerator; a local cluster does not care. */
  lemma SelectorsAre(cloud: Cloud, gpu: Gpu)
    requires GpuSupported(cloud, gpu)
    ensures GpuSelector(cloud, gpu).Keys == if cloud.Gcp? then {"cloud.google.com/gke-accelerator"} else {}
    ensures cloud.Gcp? ==>
              var node := GpuSelector(cloud, gpu)["cloud.google.com/gke-accelerator"];
              match gpu
              case NvidiaT4 => node == "nvidia-tesla-t4"
              case NvidiaL4 => node == "nvidia-l4"
              case NvidiaA100 => node == "nvidia-tesla-a100"
  {
  }

  function Requests(res: Resources): ResourceList {
    var base := map["cpu" := res.cpu, "memory" := Wrap64(res.memory * GIGABYTE),
      "ephemeral-storage" := Wrap64(res.disk * GIGABYTE)];
    if res.gpu.Some? then base[GPU_RESOURCE := res.gpu.value.count] else base
  }

  function Limits(res: Resources): ResourceList {
    if res.gpu.Some? then map[GPU_RESOURCE := res.gpu.value.count] else map[]
  }

  function Listed(list: Option<ResourceList>): ResourceList {
    if list.Some? then list.value else map[]
  }

  /** A container asks for exactly this: processors, memory and disk in bytes where they are exact, and a GPU with its
      count if there is one, which is also its only limit. */
  lemma RequestsAre(res: Resources)
    ensures Requests(res).Keys ==
            {"cpu", "memory", "ephemeral-storage"} + (if res.gpu.Some? then {"nvidia.com/gpu"} else {})
    ensures Limits(res).Keys == (if res.gpu.Some? then {"nvidia.com/gpu"} else {})
    ensures Requests(res)["cpu"] == res.cpu
    ensures -0x2_0000_0000 <= res.memory < 0x2_0000_0000 ==> Requests(res)["memory"] == res.memory * 1024 * 1024 * 1024
    ensures -0x2_0000_0000 <= res.disk < 0x2_0000_0000 ==>
              Requests(res)["ephemeral-storage"] == res.disk * 1024 * 1024 * 1024
    ensures res.gpu.Some? ==>
              Requests(res)["nvidia.com/gpu"] == res.gpu.value.count == Limits(res)["nvidia.com/gpu"]
  {
    assert |"cpu"| == 3 && |"memory"| == 6 && |"ephemeral-storage"| == 17 && |"nvidia.com/gpu"| == 14;
  }

  /** Without resources in the spec, a local cluster asks for nothing, and GCP for two processors, four gigabytes of
      memory and a hundred of disk. */
  lemma DefaultsAre(cloud: Cloud)
    ensures var res := Effective(cloud, None);
            res.gpu.None?
            && (if cloud.KindCluster? then (res.cpu, res.memory, res.disk) == (0, 0, 0)
                else (res.cpu, res.memory, res.disk) == (2, 4, 100))
  {
  }

  predicate Merged(was: Option<ResourceList>, more: ResourceList, merged: ResourceList) {
    merged.Keys == more.Keys + (if was.Some? then was.value.Keys else {})
    && forall k :: k in merged ==>
         if k in more then merged[k] == more[k] else was.Some? && k in was.value && merged[k] == was.value[k]
  }

  /** A right-biased merge; afterwards both lists have been made. */
  function WithResources(c: Container, requests: ResourceList, limits: ResourceList): Container {
    c.(requests := Some(Listed(c.requests) + requests), limits := Some(Listed(c.limits) + limits))
  }

  function Resourced(containers: seq<Container>, name: string, requests: ResourceList, limits: ResourceList)
      : (r: seq<Container>)
    ensures |r| == |containers|
    ensures forall i :: 0 <= i < |r| ==>
              r[i] == if i == FirstNamed(containers, name) then WithResources(containers[i], requests, limits)
                      else containers[i]
  {
    var k := FirstNamed(containers, name);
    if k == |containers| then containers else containers[k := WithResources(containers[k], requests, limits)]
  }

  /******* The edits *******/

  class PodSpec {
    var annotations: Option<map<string, string>>
    var volumes: seq<Volume>
    var initContainers: seq<Container>
    var containers: seq<Container>
    var nodeSelector: Option<map<string, string>>
    var spotTolerations: nat

    constructor (annotations: Option<map<string, string>>, initContainers: seq<Container>, containers: seq<Container>)
      ensures this.annotations == annotations && this.initContainers == initContainers && this.containers == containers
      ensures volumes == [] && nodeSelector == None && spotTolerations == 0
    {
      this.annotations, this.initContainers, this.containers := annotations, initContainers, containers;
      volumes, nodeSelector, spotTolerations := [], None, 0;
    }

    /** The volume is added even when the container is missing; only the first container of that name gets the mount. */
    method MountParams(configMap: string, container: string) returns (ok: bool)
      modifies this`volumes, this`containers
      ensures ok == Has(old(containers), container)
      ensures volumes == old(volumes) + [Volume("params", ConfigMapVolume(configMap))]
      ensures containers == Mounted(old(containers), container, [PARAMS_MOUNT])
    {
      volumes := volumes + [Volume("params", ConfigMapVolume(configMap))];
      for i := 0 to |containers|
        invariant containers == old(containers)
        invariant forall j :: 0 <= j < i ==> containers[j].name != container
      {
        if containers[i].name == container {
          FirstIs(containers, container, i);
          containers := containers[i := containers[i].(mounts := containers[i].mounts + [PARAMS_MOUNT])];
          return true;
        }
      }
      FirstIs(containers, container, |containers|);
      return false;
    }

    method MountBucket(cloud: Cloud, persisted: string, computed: BucketUrls.BucketUrl, req: MountRequest)
        returns (ok: bool)
      modifies this`annotations, this`volumes, this`containers
      ensures ok == (MountSource(persisted, computed).Ok? && Has(old(containers), req.container))
      ensures annotations ==
              if cloud.Gcp?
              then Some((if old(annotations).Some? then old(annotations).value else map[]) + FUSE_ANNOTATIONS)
              else old(annotations)
      ensures MountSource(persisted, computed).Error? ==> volumes == old(volumes) && containers == old(containers)
      ensures MountSource(persisted, computed).Ok? ==>
                volumes == old(volumes) + [BucketVolume(cloud, MountSource(persisted, computed).value, req)]
                && containers == Mounted(old(containers), req.container,
                                         BucketMounts(cloud, MountSource(persisted, computed).value, req))
      ensures ok <==> (persisted == "" || BucketUrls.Parse(persisted).Ok?) && Has(old(containers), req.container)
      ensures ok ==>
                var url := MountSource(persisted, computed).value;
                var k := FirstNamed(old(containers), req.container);
                StartsFrom(persisted, computed, url) && volumes[|old(volumes)|].name == req.name
                && VolumeOf(cloud, url, req.readOnly, volumes[|old(volumes)|].source)
                && MountsIn(cloud, url, req, containers[k].mounts[|old(containers[k].mounts)|..])
    {
      hide BucketUrls.Parse, BucketVolume, BucketMounts, MountsIn, VolumeOf;
      MountsAre(cloud, persisted, computed, req);
      if cloud.Gcp? {
        if annotations.None? {
          annotations := Some(map[]);
        }
        annotations := Some(annotations.value + FUSE_ANNOTATIONS);
      }
      var url := computed;
      if persisted != "" {
        var parsed := BucketUrls.Parse(persisted);
        if parsed.Error? {
          return false;
        }
        url := parsed.value;
      }
      volumes := volumes + [BucketVolume(cloud, url, req)];
      for i := 0 to |containers|
        invariant containers == old(containers)
        invariant forall j :: 0 <= j < i ==> containers[j].name != req.container
      {
        if containers[i].name == req.container {
          FirstIs(containers, req.container, i);
          var c := AppendMounts(containers[i], cloud, url, req);
          containers := containers[i := c];
          assert c.mounts[|old(containers[i].mounts)|..] == BucketMounts(cloud, url, req);
          return true;
        }
      }
      FirstIs(containers, req.container, |containers|);
      return false;
    }

    method SetContainerResources(container: string, requests: ResourceList, limits: ResourceList) returns (ok: bool)
      modifies this`initContainers, this`containers
      ensures ok == (Has(old(initContainers), container) || Has(old(containers), container))
      ensures initContainers == Resourced(old(initContainers), container, requests, limits)
      ensures containers == if Has(old(initContainers), container) then old(containers)
                            else Resourced(old(containers), container, requests, limits)
    {
      for i := 0 to |initContainers|
        invariant initContainers == old(initContainers) && containers == old(containers)
        invariant forall j :: 0 <= j < i ==> initContainers[j].name != container
      {
        if initContainers[i].name == container {
          FirstIs(initContainers, container, i);
          var c := ByIndex(initContainers[i], requests, limits);
          initContainers := initContainers[i := c];
          return true;
        }
      }
      FirstIs(initContainers, container, |initContainers|);
      for i := 0 to |containers|
        invariant initContainers == old(initContainers) && containers == old(containers)
        invariant forall j :: 0 <= j < i ==> containers[j].name != container
      {
        if containers[i].name == container {
          FirstIs(containers, container, i);
          var c := ByIndex(containers[i], requests, limits);
          containers := containers[i := c];
          return true;
        }
      }
      FirstIs(containers, container, |containers|);
      return false;
    }

    /** An unsupported GPU type is refused before anything is edited. */
    method ApplyResources(container: string, cloud: Cloud, given: Option<Resources>) returns (ok: bool)
      modifies this`initContainers, this`containers, this`nodeSelector, this`spotTolerations
      ensures var res := if given.Some? then given.value else Defaults(cloud);
              var supported := res.gpu.None? || GpuSupported(cloud, res.gpu.value.gpu);
              ok == (supported && (Has(old(initContainers), container) || Has(old(containers), container)))
              && (!supported ==> unchanged(this))
              && (supported ==>
                    initContainers == Resourced(old(initContainers), container, Requests(res), Limits(res))
                    && containers == (if Has(old(initContainers), container) then old(containers)
                                      else Resourced(old(containers), container, Requests(res), Limits(res)))
                    && nodeSelector == (if res.gpu.None? then old(nodeSelector)
                                        else Some((if old(nodeSelector).Some? then old(nodeSelector).value else map[])
                                                  + GpuSelector(cloud, res.gpu.value.gpu)))
                    && spotTolerations == old(spotTolerations) + (if res.gpu.Some? then 1 else 0))
    {
      var res := if given.Some? then given.value else Defaults(cloud);
      var requests, limits: ResourceList := map[], map[];
      requests := requests["cpu" := res.cpu];
      requests := requests["memory" := Wrap64(res.memory * GIGABYTE)];
      requests := requests["ephemeral-storage" := Wrap64(res.disk * GIGABYTE)];
      if res.gpu.Some? {
        if !GpuSupported(cloud, res.gpu.value.gpu) {
          return false;
        }
        requests := requests[GPU_RESOURCE := res.gpu.value.count];
        limits := limits[GPU_RESOURCE := res.gpu.value.count];
        if nodeSelector.None? {
          nodeSelector := Some(map[]);
        }
        spotTolerations := spotTolerations + 1;
        var selector := CopyInto(nodeSelector.value, GpuSelector(cloud, res.gpu.value.gpu));
        nodeSelector := Some(selector);
      }
      ok := SetContainerResources(container, requests, limits);
    }
  }

  method AppendMounts(c: Container, cloud: Cloud, url: BucketUrls.BucketUrl, req: MountRequest) returns (r: Container)
    ensures r == c.(mounts := c.mounts + BucketMounts(cloud, url, req))
  {
    r := c;
    ghost var all := BucketMounts(cloud, url, req);
    for m := 0 to |req.mounts|
      invariant r == c.(mounts := c.mounts + all[..m])
    {
      assert all[..m] + [all[m]] == all[..m + 1];
      r := r.(mounts := r.mounts + [OneMount(cloud, url, req, req.mounts[m])]);
    }
    assert all[..|req.mounts|] == all;
  }

  /** The copy of every entry of `from` into `into`, one entry at a time and in any order. */
  method CopyInto<K(==), V>(into: map<K, V>, from: map<K, V>) returns (r: map<K, V>)
    ensures r == into + from
  {
    r := into;
    var left := from.Keys;
    while left != {}
      invariant left <= from.Keys
      invariant forall k :: k in r <==> k in into || (k in from && k !in left)
      invariant forall k :: k in r ==> r[k] == if k in from && k !in left then from[k] else into[k]
      decreases |left|
    {
      var k :| k in left;
      r := r[k := from[k]];
      left := left - {k};
    }
    assert r == into + from;
  }

  /** Each list has the old and the new entries, and a new entry wins over an old one. */
  method ByIndex(c: Container, requests: ResourceList, limits: ResourceList) returns (r: Container)
    ensures r == WithResources(c, requests, limits) && r == c.(requests := r.requests, limits := r.limits)
    ensures r.requests.Some? && Merged(c.requests, requests, r.requests.value)
    ensures r.limits.Some? && Merged(c.limits, limits, r.limits.value)
  {
    r := c;
    if r.requests.None? {
      r := r.(requests := Some(map[]));
    }
    if r.limits.None? {
      r := r.(limits := Some(map[]));
    }
    var merged := CopyInto(r.requests.value, requests);
    r := r.(requests := Some(merged));
    merged := CopyInto(r.limits.value, limits);
    r := r.(limits := Some(merged));
  }

  /******* Well-formed Pods *******/

  ghost predicate DistinctNames(volumes: seq<Volume>) {
    forall i, j :: 0 <= i < j < |volumes| ==> volumes[i].name != volumes[j].name
  }

  ghost predicate Declared(volumes: seq<Volume>, name: string) {
    exists i :: 0 <= i < |volumes| && volumes[i].name == name
  }

  ghost predicate MountsOk(volumes: seq<Volume>, mounts: seq<VolumeMount>) {
    (forall i, j :: 0 <= i < j < |mounts| ==> mounts[i].mountPath != mounts[j].mountPath)
    && (forall i :: 0 <= i < |mounts| ==> Declared(volumes, mounts[i].name))
  }

  /** Volume names are distinct, mount paths within a container are distinct, and every mount names a declared
      volume. */
  ghost predicate WellFormed(volumes: seq<Volume>, containers: seq<Container>) {
    DistinctNames(volumes) && forall i :: 0 <= i < |containers| ==> MountsOk(volumes, containers[i].mounts)
  }

  /** Mounting a new volume at a path that is not in use keeps a Pod well formed. */
  lemma MountKeeps(volumes: seq<Volume>, containers: seq<Container>, name: string, v: Volume, m: VolumeMount)
    requires WellFormed(volumes, containers) && !Declared(volumes, v.name) && m.name == v.name
    requires forall i, j :: 0 <= i < |containers| && 0 <= j < |containers[i].mounts| ==>
               containers[i].mounts[j].mountPath != m.mountPath
    ensures WellFormed(volumes + [v], Mounted(containers, name, [m]))
  {
    var volumes', containers' := volumes + [v], Mounted(containers, name, [m]);
    forall i, j | 0 <= i < j < |volumes'| ensures volumes'[i].name != volumes'[j].name {
      if j == |volumes| {
        assert volumes[i] == volumes'[i];
      }
    }
    forall i | 0 <= i < |containers'| ensures MountsOk(volumes', containers'[i].mounts) {
      assert MountsOk(volumes, containers[i].mounts);
      StillDeclared(volumes, v, containers[i].mounts);
      assert volumes'[|volumes|].name == m.name;
    }
  }

  lemma StillDeclared(volumes: seq<Volume>, v: Volume, mounts: seq<VolumeMount>)
    requires MountsOk(volumes, mounts)
    ensures MountsOk(volumes + [v], mounts)
  {
    forall i | 0 <= i < |mounts| ensures Declared(volumes + [v], mounts[i].name) {
      var k :| 0 <= k < |volumes| && volumes[k].name == mounts[i].name;
      assert (volumes + [v])[k] == volumes[k];
    }
  }

  /******* The four kinds of Pods *******/

  /** A bucket to mount: the object's persisted URL and its computed one. */
  datatype Bucket = Bucket(persisted: string, computed: BucketUrls.BucketUrl) {
    function Source(): Result<BucketUrls.BucketUrl> {
      MountSource(persisted, computed)
    }
  }

  function ArtifactsMount(container: string): MountRequest {
    MountRequest("artifacts", [BucketMount("artifacts", "artifacts")], container, false)
  }

  function DatasetMount(container: string): MountRequest {
    MountRequest("dataset", [BucketMount("artifacts", "data")], container, true)
  }

  function ModelMount(container: string): MountRequest {
    MountRequest("model", [BucketMount("artifacts", "model")], container, true)
  }

  /** A volume and its mount, in the order in which they are added. */
  datatype Mounting = Mounting(volume: Volume, mount: VolumeMount)

  function Added(cloud: Cloud, bucket: Bucket, req: MountRequest): Mounting
    requires bucket.Source().Ok? && |req.mounts| == 1
  {
    var url := bucket.Source().value;
    Mounting(BucketVolume(cloud, url, req), OneMount(cloud, url, req, req.mounts[0]))
  }

  predicate Parses(bucket: Option<Bucket>) {
    bucket.Some? ==> bucket.value.Source().Ok?
  }

  function Optional(cloud: Cloud, bucket: Option<Bucket>, req: MountRequest): seq<Mounting>
    requires Parses(bucket) && |req.mounts| == 1
  {
    if bucket.Some? then [Added(cloud, bucket.value, req)] else []
  }

  function ParamsMounting(configMap: string): Mounting {
    Mounting(Volume("params", ConfigMapVolume(configMap)), PARAMS_MOUNT)
  }

  function VolumesOf(ms: seq<Mounting>): (vs: seq<Volume>)
    ensures |vs| == |ms| && forall i :: 0 <= i < |ms| ==> vs[i] == ms[i].volume
  {
    seq(|ms|, i requires 0 <= i < |ms| => ms[i].volume)
  }

  function MountsOf(ms: seq<Mounting>): (r: seq<VolumeMount>)
    ensures |r| == |ms| && forall i :: 0 <= i < |ms| ==> r[i] == ms[i].mount
  {
    seq(|ms|, i requires 0 <= i < |ms| => ms[i].mount)
  }

  function NotebookMountings(cloud: Cloud, configMap: string, own: Bucket, model: Option<Bucket>,
                             dataset: Option<Bucket>): seq<Mounting>
    requires own.Source().Ok? && Parses(model) && Parses(dataset)
  {
    [ParamsMounting(configMap)] + Optional(cloud, dataset, DatasetMount("notebook"))
    + Optional(cloud, model, ModelMount("notebook")) + [Added(cloud, own, ArtifactsMount("notebook"))]
  }

  function ModellerMountings(cloud: Cloud, configMap: string, own: Bucket, base: Option<Bucket>,
                             dataset: Option<Bucket>): seq<Mounting>
    requires own.Source().Ok? && Parses(base) && Parses(dataset)
  {
    [ParamsMounting(configMap), Added(cloud, own, ArtifactsMount("model"))]
    + Optional(cloud, dataset, DatasetMount("model")) + Optional(cloud, base, ModelMount("model"))
  }

  function LoaderMountings(cloud: Cloud, configMap: string, own: Bucket): seq<Mounting>
    requires own.Source().Ok?
  {
    [ParamsMounting(configMap), Added(cloud, own, ArtifactsMount("load"))]
  }

  function ServerMountings(cloud: Cloud, configMap: string, model: Bucket): seq<Mounting>
    requires model.Source().Ok?
  {
    [ParamsMounting(configMap), Added(cloud, model, ModelMount("serve"))]
  }

  /******* What holds of all of them *******/

  predicate Standard(m: Mounting) {
    m.mount.name == m.volume.name && (m.volume.source.CsiVolume? ==> m.volume.source.readOnly == m.mount.readOnly)
    && (m.mount.name, m.mount.mountPath, m.mount.readOnly)
       in {("params", "/content/params.json", false), ("dataset", "/content/data", true),
           ("model", "/content/model", true), ("artifacts", "/content/artifacts", false)}
  }

  /** Standard mountings, each of the four at most once. */
  predicate Apart(ms: seq<Mounting>) {
    (forall i :: 0 <= i < |ms| ==> Standard(ms[i]))
    && (forall i, j :: 0 <= i < j < |ms| ==> ms[i].volume.name != ms[j].volume.name)
  }

  lemma NamesTell(m: Mounting, n: Mounting)
    requires Standard(m) && Standard(n) && m.mount.name != n.mount.name
    ensures m.mount.mountPath != n.mount.mountPath
  {
    assert |"/content/params.json"| == 20 && |"/content/data"| == 13 && |"/content/model"| == 14
           && |"/content/artifacts"| == 18;
  }

  lemma ApartIsWellFormed(bare: Container, ms: seq<Mounting>, res: Resources)
    requires Apart(ms)
    ensures WellFormed(VolumesOf(ms), [WithResources(bare.(mounts := MountsOf(ms)), Requests(res), Limits(res))])
    ensures forall i :: 0 <= i < |ms| && MountsOf(ms)[i].name != "params" ==>
              (!MountsOf(ms)[i].readOnly <==> MountsOf(ms)[i].name == "artifacts")
    ensures forall i :: 0 <= i < |ms| && VolumesOf(ms)[i].source.CsiVolume? && VolumesOf(ms)[i].name != "params" ==>
              (!VolumesOf(ms)[i].source.readOnly <==> VolumesOf(ms)[i].name == "artifacts")
  {
    var volumes, mounts := VolumesOf(ms), MountsOf(ms);
    forall i, j | 0 <= i < j < |mounts| ensures mounts[i].mountPath != mounts[j].mountPath {
      NamesTell(ms[i], ms[j]);
    }
    forall i | 0 <= i < |mounts| ensures Declared(volumes, mounts[i].name) {
      assert volumes[i].name == mounts[i].name;
    }
  }

  lemma StandardMounts(cloud: Cloud, bucket: Bucket, container: string)
    requires bucket.Source().Ok?
    ensures Standard(Added(cloud, bucket, ArtifactsMount(container)))
            && Added(cloud, bucket, ArtifactsMount(container)).volume.name == "artifacts"
    ensures Standard(Added(cloud, bucket, DatasetMount(container)))
            && Added(cloud, bucket, DatasetMount(container)).volume.name == "dataset"
    ensures Standard(Added(cloud, bucket, ModelMount(container)))
            && Added(cloud, bucket, ModelMount(container)).volume.name == "model"
  {
    hide BucketUrls.Parse, SubPath;
    assert "/content/" + "artifacts" == "/content/artifacts";
    assert "/content/" + "data" == "/content/data";
    assert "/content/" + "model" == "/content/model";
  }

  /** Every combination of optional Model and Dataset gives a well-formed Pod in which, of the bucket mounts, only the
      Notebook's own artifacts are writable. */
  lemma NotebookIsWellFormed(cloud: Cloud, configMap: string, own: Bucket, model: Option<Bucket>,
                             dataset: Option<Bucket>)
    requires own.Source().Ok? && Parses(model) && Parses(dataset)
    ensures Apart(NotebookMountings(cloud, configMap, own, model, dataset))
  {
    hide BucketUrls.Parse, Added, Standard;
    StandardParams(configMap);
    StandardMounts(cloud, own, "notebook");
    if model.Some? { StandardMounts(cloud, model.value, "notebook"); }
    if dataset.Some? { StandardMounts(cloud, dataset.value, "notebook"); }
  }

  lemma ModellerIsWellFormed(cloud: Cloud, configMap: string, own: Bucket, base: Option<Bucket>,
                             dataset: Option<Bucket>)
    requires own.Source().Ok? && Parses(base) && Parses(dataset)
    ensures Apart(ModellerMountings(cloud, configMap, own, base, dataset))
  {
    hide BucketUrls.Parse, Added, Standard;
    StandardParams(configMap);
    StandardMounts(cloud, own, "model");
    if base.Some? { StandardMounts(cloud, base.value, "model"); }
    if dataset.Some? { StandardMounts(cloud, dataset.value, "model"); }
  }

  lemma OthersAreWellFormed(cloud: Cloud, configMap: string, bucket: Bucket)
    requires bucket.Source().Ok?
    ensures Apart(LoaderMountings(cloud, configMap, bucket)) && Apart(ServerMountings(cloud, configMap, bucket))
  {
    hide BucketUrls.Parse, Added, Standard;
    StandardParams(configMap);
    StandardMounts(cloud, bucket, "load");
    StandardMounts(cloud, bucket, "serve");
  }

  lemma StandardParams(configMap: string)
    ensures Standard(ParamsMounting(configMap)) && ParamsMounting(configMap).volume.name == "params"
  {
  }

  /******* Assembly *******/

  /** The annotations of a Pod: its default container, and on GCP those of the bucket driver once a bucket is
      mounted. */
  function Annotations(cloud: Cloud, container: string, buckets: bool): map<string, string> {
    var own := map["kubectl.kubernetes.io/default-container" := container];
    if cloud.Gcp? && buckets then own + FUSE_ANNOTATIONS else own
  }

  /** A Pod whose only container has exactly these mounts and the resources of the request, with the annotations for its
      buckets and the node selector and toleration for its GPU; and it is well formed. */
  ghost predicate Assembled(pod: PodSpec, cloud: Cloud, bare: Container, ms: seq<Mounting>, res: Resources)
    reads pod
  {
    GpuFits(cloud, res) && WellFormed(pod.volumes, pod.containers)
    && pod.annotations == Some(Annotations(cloud, bare.name, |ms| > 1))
    && pod.volumes == VolumesOf(ms) && pod.initContainers == []
    && pod.containers == [WithResources(bare.(mounts := MountsOf(ms)), Requests(res), Limits(res))]
    && pod.nodeSelector == (if res.gpu.Some? then Some(GpuSelector(cloud, res.gpu.value.gpu)) else None)
    && pod.spotTolerations == (if res.gpu.Some? then 1 else 0)
  }

  /** The steps of an assembly so far, before resources. */
  ghost predicate Partial(pod: PodSpec, cloud: Cloud, bare: Container, ms: seq<Mounting>)
    reads pod
  {
    ms != [] && pod.annotations == Some(Annotations(cloud, bare.name, |ms| > 1))
    && pod.volumes == VolumesOf(ms) && pod.initContainers == [] && pod.containers == [bare.(mounts := MountsOf(ms))]
    && pod.nodeSelector == None && pod.spotTolerations == 0
  }

  /** The annotations by name: the default container always, and with a bucket on GCP the switch of the bucket driver
      and the three limits of its sidecar. */
  lemma AnnotationsAre(cloud: Cloud, container: string, buckets: bool)
    ensures var all := Annotations(cloud, container, buckets);
            all.Keys == {"kubectl.kubernetes.io/default-container"}
                        + (if cloud.Gcp? && buckets
                           then {"gke-gcsfuse/volumes", "gke-gcsfuse/cpu-limit", "gke-gcsfuse/memory-limit",
                                 "gke-gcsfuse/ephemeral-storage-limit"} else {})
            && all["kubectl.kubernetes.io/default-container"] == container
            && (cloud.Gcp? && buckets ==>
                  all["gke-gcsfuse/volumes"] == "true" && all["gke-gcsfuse/cpu-limit"] == "2"
                  && all["gke-gcsfuse/memory-limit"] == "800Mi"
                  && all["gke-gcsfuse/ephemeral-storage-limit"] == "100Gi")
  {
    assert |"gke-gcsfuse/volumes"| == 19 && |"gke-gcsfuse/cpu-limit"| == 21 && |"gke-gcsfuse/memory-limit"| == 24
           && |"gke-gcsfuse/ephemeral-storage-limit"| == 35 && |"kubectl.kubernetes.io/default-container"| == 39;
  }

  lemma AnnotatedTwice(cloud: Cloud, container: string, buckets: bool)
    ensures cloud.Gcp? ==>
              Annotations(cloud, container, buckets) + FUSE_ANNOTATIONS == Annotations(cloud, container, true)
    ensures !cloud.Gcp? ==> Annotations(cloud, container, buckets) == Annotations(cloud, container, true)
  {
  }

  method AddBucket(pod: PodSpec, cloud: Cloud, bucket: Bucket, req: MountRequest, bare: Container,
                   ghost ms: seq<Mounting>)
      returns (ok: bool)
    requires Partial(pod, cloud, bare, ms) && bare.name == req.container && |req.mounts| == 1
    modifies pod
    ensures ok == bucket.Source().Ok?
    ensures ok ==> Partial(pod, cloud, bare, ms + [Added(cloud, bucket, req)])
  {
    hide BucketUrls.Parse, BucketVolume, OneMount;
    AnnotatedTwice(cloud, bare.name, |ms| > 1);
    ok := pod.MountBucket(cloud, bucket.persisted, bucket.computed, req);
    if ok {
      ghost var added := Added(cloud, bucket, req);
      assert BucketMounts(cloud, bucket.Source().value, req) == [added.mount];
      assert pod.volumes == VolumesOf(ms + [added]);
      assert MountsOf(ms) + [added.mount] == MountsOf(ms + [added]);
    }
  }

  function Effective(cloud: Cloud, given: Option<Resources>): Resources {
    if given.Some? then given.value else Defaults(cloud)
  }

  predicate GpuFits(cloud: Cloud, res: Resources) {
    res.gpu.None? || GpuSupported(cloud, res.gpu.value.gpu)
  }

  method StartPod(cloud: Cloud, configMap: string, bare: Container) returns (pod: PodSpec)
    requires bare.mounts == []
    ensures fresh(pod) && Partial(pod, cloud, bare, [ParamsMounting(configMap)])
  {
    pod := new PodSpec(Some(map["kubectl.kubernetes.io/default-container" := bare.name]), [], [bare]);
    var _ := pod.MountParams(configMap, bare.name);
    assert bare.mounts + [PARAMS_MOUNT] == MountsOf([ParamsMounting(configMap)]);
    assert pod.containers[0] == bare.(mounts := MountsOf([ParamsMounting(configMap)]));
  }

  method FinishPod(pod: PodSpec, cloud: Cloud, given: Option<Resources>, bare: Container, ghost ms: seq<Mounting>)
      returns (ok: bool)
    requires Partial(pod, cloud, bare, ms) && Apart(ms)
    modifies pod
    ensures ok == GpuFits(cloud, Effective(cloud, given))
    ensures ok ==> Assembled(pod, cloud, bare, ms, Effective(cloud, given))
  {
    hide Apart, WellFormed, Annotations, Requests, Limits, WithResources, Defaults, GpuSelector, GpuSupported;
    hide BucketUrls.Parse, BucketVolume;
    ok := pod.ApplyResources(bare.name, cloud, given);
    if ok {
      var res := Effective(cloud, given);
      ApartIsWellFormed(bare, ms, res);
      assert pod.containers == [WithResources(bare.(mounts := MountsOf(ms)), Requests(res), Limits(res))];
      assert res.gpu.Some? ==> map[] + GpuSelector(cloud, res.gpu.value.gpu) == GpuSelector(cloud, res.gpu.value.gpu);
    }
  }

  /** Dataset and Model are mounted for reading if they are given, then the Notebook's own artifacts for writing. */
  method NotebookPod(cloud: Cloud, configMap: string, image: string, own: Bucket, model: Option<Bucket>,
                     dataset: Option<Bucket>, given: Option<Resources>)
      returns (ok: bool, pod: PodSpec)
    ensures fresh(pod)
    ensures ok == (own.Source().Ok? && Parses(model) && Parses(dataset) && GpuFits(cloud, Effective(cloud, given)))
    ensures ok ==> Assembled(pod, cloud, Container("notebook", image, [], None, None),
                             NotebookMountings(cloud, configMap, own, model, dataset), Effective(cloud, given))
  {
    hide BucketUrls.Parse, Added, GpuFits, Effective, Apart, Assembled;
    var bare := Container("notebook", image, [], None, None);
    pod := StartPod(cloud, configMap, bare);
    ghost var ms := [ParamsMounting(configMap)];
    if dataset.Some? {
      ok := AddBucket(pod, cloud, dataset.value, DatasetMount("notebook"), bare, ms);
      if !ok { return; }
      ms := ms + [Added(cloud, dataset.value, DatasetMount("notebook"))];
    }
    if model.Some? {
      ok := AddBucket(pod, cloud, model.value, ModelMount("notebook"), bare, ms);
      if !ok { return; }
      ms := ms + [Added(cloud, model.value, ModelMount("notebook"))];
    }
    ok := AddBucket(pod, cloud, own, ArtifactsMount("notebook"), bare, ms);
    if !ok { return; }
    ms := ms + [Added(cloud, own, ArtifactsMount("notebook"))];
    NotebookIsWellFormed(cloud, configMap, own, model, dataset);
    assert ms == NotebookMountings(cloud, configMap, own, model, dataset);
    ok := FinishPod(pod, cloud, given, bare, ms);
  }

  /** The Model's own artifacts for writing, then Dataset and base Model for reading if they are given. */
  method ModellerPod(cloud: Cloud, configMap: string, image: string, own: Bucket, base: Option<Bucket>,
                     dataset: Option<Bucket>, given: Option<Resources>)
      returns (ok: bool, pod: PodSpec)
    ensures fresh(pod)
    ensures ok == (own.Source().Ok? && Parses(base) && Parses(dataset) && GpuFits(cloud, Effective(cloud, given)))
    ensures ok ==> Assembled(pod, cloud, Container("model", image, [], None, None),
                             ModellerMountings(cloud, configMap, own, base, dataset), Effective(cloud, given))
  {
    hide BucketUrls.Parse, Added, GpuFits, Effective, Apart, Assembled;
    var bare := Container("model", image, [], None, None);
    pod := StartPod(cloud, configMap, bare);
    ghost var ms := [ParamsMounting(configMap)];
    ok := AddBucket(pod, cloud, own, ArtifactsMount("model"), bare, ms);
    if !ok { return; }
    ms := ms + [Added(cloud, own, ArtifactsMount("model"))];
    if dataset.Some? {
      ok := AddBucket(pod, cloud, dataset.value, DatasetMount("model"), bare, ms);
      if !ok { return; }
      ms := ms + [Added(cloud, dataset.value, DatasetMount("model"))];
    }
    if base.Some? {
      ok := AddBucket(pod, cloud, base.value, ModelMount("model"), bare, ms);
      if !ok { return; }
      ms := ms + [Added(cloud, base.value, ModelMount("model"))];
    }
    ModellerIsWellFormed(cloud, configMap, own, base, dataset);
    assert ms == ModellerMountings(cloud, configMap, own, base, dataset);
    ok := FinishPod(pod, cloud, given, bare, ms);
  }

  method LoaderPod(cloud: Cloud, configMap: string, image: string, own: Bucket, given: Option<Resources>)
      returns (ok: bool, pod: PodSpec)
    ensures fresh(pod)
    ensures ok == (own.Source().Ok? && GpuFits(cloud, Effective(cloud, given)))
    ensures ok ==> Assembled(pod, cloud, Container("load", image, [], None, None),
                             LoaderMountings(cloud, configMap, own), Effective(cloud, given))
  {
    hide BucketUrls.Parse, Added, GpuFits, Effective, Apart, Assembled;
    var bare := Container("load", image, [], None, None);
    pod := StartPod(cloud, configMap, bare);
    ok := AddBucket(pod, cloud, own, ArtifactsMount("load"), bare, [ParamsMounting(configMap)]);
    if !ok { return; }
    ghost var ms := [ParamsMounting(configMap)] + [Added(cloud, own, ArtifactsMount("load"))];
    OthersAreWellFormed(cloud, configMap, own);
    assert ms == LoaderMountings(cloud, configMap, own);
    ok := FinishPod(pod, cloud, given, bare, ms);
  }

  method ServerPod(cloud: Cloud, configMap: string, image: string, model: Bucket, given: Option<Resources>)
      returns (ok: bool, pod: PodSpec)
    ensures fresh(pod)
    ensures ok == (model.Source().Ok? && GpuFits(cloud, Effective(cloud, given)))
    ensures ok ==> Assembled(pod, cloud, Container("serve", image, [], None, None),
                             ServerMountings(cloud, configMap, model), Effective(cloud, given))
  {
    hide BucketUrls.Parse, Added, GpuFits, Effective, Apart, Assembled;
    var bare := Container("serve", image, [], None, None);
    pod := StartPod(cloud, configMap, bare);
    ok := AddBucket(pod, cloud, model, ModelMount("serve"), bare, [ParamsMounting(configMap)]);
    if !ok { return; }
    ghost var ms := [ParamsMounting(configMap)] + [Added(cloud, model, ModelMount("serve"))];
    OthersAreWellFormed(cloud, configMap, model);
    assert ms == ServerMountings(cloud, configMap, model);
    ok := FinishPod(pod, cloud, given, bare, ms);
  }

  /******* Readers and writers *******/

  /** Where a mount leads: the bucket or host directory, and the directory below it. */
  function Place(m: Mounting): (string, string) {
    (match m.volume.source
     case CsiVolume(bucket, _) => bucket
     case HostPathVolume(path) => path
     case ConfigMapVolume(name) => name,
     m.mount.subPath)
  }

  /** Where a mounted bucket is: the bucket or host directory of its URL, and the subdirectory below it. */
  lemma PlaceIs(cloud: Cloud, bucket: Bucket, req: MountRequest)
    requires bucket.Source().Ok? && |req.mounts| == 1
    ensures var url, m := bucket.Source().value, Added(cloud, bucket, req);
            Place(m).0 == (if cloud.Gcp? then url.bucket else url.path)
            && Below(cloud, url, req.mounts[0].bucketSubdir, Place(m).1)
            && VolumeOf(cloud, url, req.readOnly, m.volume.source) && m.volume.name == m.mount.name == req.name
            && m.mount.mountPath == "/content/" + req.mounts[0].contentSubdir && m.mount.readOnly == req.readOnly
  {
    hide BucketUrls.Parse, SubPath;
    SubPathIsBelow(cloud, bucket.Source().value, req.mounts[0].bucketSubdir);
  }

  /** The params of the object as a file. */
  predicate MountsParams(m: Mounting, configMap: string) {
    m.volume == Volume("params", ConfigMapVolume(configMap))
    && m.mount == VolumeMount("params", "/content/params.json", "params.json", false)
  }

  /** One of the mountings is of this bucket's artifacts, under this name and below /content/`dir`. */
  ghost predicate Mounts(cloud: Cloud, ms: seq<Mounting>, bucket: Bucket, name: string, dir: string, readOnly: bool)
    requires bucket.Source().Ok?
  {
    exists i :: 0 <= i < |ms| && MountsAs(cloud, ms[i], bucket, name, dir, readOnly)
  }

  predicate MountsAs(cloud: Cloud, m: Mounting, bucket: Bucket, name: string, dir: string, readOnly: bool)
    requires bucket.Source().Ok?
  {
    m.volume.name == name && m.mount.name == name && m.mount.mountPath == "/content/" + dir
    && m.mount.readOnly == readOnly && VolumeOf(cloud, bucket.Source().value, readOnly, m.volume.source)
    && Below(cloud, bucket.Source().value, "artifacts", m.mount.subPath)
  }

  lemma AddedMounts(cloud: Cloud, bucket: Bucket, container: string)
    requires bucket.Source().Ok?
    ensures MountsAs(cloud, Added(cloud, bucket, ArtifactsMount(container)), bucket, "artifacts", "artifacts", false)
    ensures MountsAs(cloud, Added(cloud, bucket, DatasetMount(container)), bucket, "dataset", "data", true)
    ensures MountsAs(cloud, Added(cloud, bucket, ModelMount(container)), bucket, "model", "model", true)
  {
    hide BucketUrls.Parse, SubPath;
    SubPathIsBelow(cloud, bucket.Source().value, "artifacts");
  }

  lemma MountsHere(cloud: Cloud, ms: seq<Mounting>, i: nat, bucket: Bucket, name: string, dir: string, readOnly: bool)
    requires bucket.Source().Ok? && i < |ms| && MountsAs(cloud, ms[i], bucket, name, dir, readOnly)
    ensures Mounts(cloud, ms, bucket, name, dir, readOnly)
  {
  }

  /** A Notebook mounts its own artifacts for writing, the Dataset it is given as the data and the Model as the
      model. */
  lemma NotebookMounts(cloud: Cloud, configMap: string, own: Bucket, model: Option<Bucket>, dataset: Option<Bucket>)
    requires own.Source().Ok? && Parses(model) && Parses(dataset)
    ensures var ms := NotebookMountings(cloud, configMap, own, model, dataset);
            MountsParams(ms[0], configMap) && Mounts(cloud, ms, own, "artifacts", "artifacts", false)
            && (dataset.Some? ==> Mounts(cloud, ms, dataset.value, "dataset", "data", true))
            && (model.Some? ==> Mounts(cloud, ms, model.value, "model", "model", true))
            && |ms| == 2 + (if dataset.Some? then 1 else 0) + (if model.Some? then 1 else 0)
  {
    hide BucketUrls.Parse, Added, MountsAs;
    var ms := NotebookMountings(cloud, configMap, own, model, dataset);
    AddedMounts(cloud, own, "notebook");
    MountsHere(cloud, ms, |ms| - 1, own, "artifacts", "artifacts", false);
    if dataset.Some? {
      AddedMounts(cloud, dataset.value, "notebook");
      MountsHere(cloud, ms, 1, dataset.value, "dataset", "data", true);
    }
    if model.Some? {
      AddedMounts(cloud, model.value, "notebook");
      MountsHere(cloud, ms, |ms| - 2, model.value, "model", "model", true);
    }
  }

  /** A modeller Job likewise, with its base Model as the model. */
  lemma ModellerMounts(cloud: Cloud, configMap: string, own: Bucket, base: Option<Bucket>, dataset: Option<Bucket>)
    requires own.Source().Ok? && Parses(base) && Parses(dataset)
    ensures var ms := ModellerMountings(cloud, configMap, own, base, dataset);
            MountsParams(ms[0], configMap) && Mounts(cloud, ms, own, "artifacts", "artifacts", false)
            && (dataset.Some? ==> Mounts(cloud, ms, dataset.value, "dataset", "data", true))
            && (base.Some? ==> Mounts(cloud, ms, base.value, "model", "model", true))
            && |ms| == 2 + (if dataset.Some? then 1 else 0) + (if base.Some? then 1 else 0)
  {
    hide BucketUrls.Parse, Added, MountsAs;
    var ms := ModellerMountings(cloud, configMap, own, base, dataset);
    AddedMounts(cloud, own, "model");
    MountsHere(cloud, ms, 1, own, "artifacts", "artifacts", false);
    if dataset.Some? {
      AddedMounts(cloud, dataset.value, "model");
      MountsHere(cloud, ms, 2, dataset.value, "dataset", "data", true);
    }
    if base.Some? {
      AddedMounts(cloud, base.value, "model");
      MountsHere(cloud, ms, |ms| - 1, base.value, "model", "model", true);
    }
  }

  /** A loader Job mounts its own artifacts for writing, a Server's Pods the Model for reading. */
  lemma OthersMount(cloud: Cloud, configMap: string, bucket: Bucket)
    requires bucket.Source().Ok?
    ensures var load, serve := LoaderMountings(cloud, configMap, bucket), ServerMountings(cloud, configMap, bucket);
            |load| == |serve| == 2 && MountsParams(load[0], configMap) && MountsParams(serve[0], configMap)
            && Mounts(cloud, load, bucket, "artifacts", "artifacts", false)
            && Mounts(cloud, serve, bucket, "model", "model", true)
  {
    hide BucketUrls.Parse, Added, MountsAs;
    AddedMounts(cloud, bucket, "load");
    AddedMounts(cloud, bucket, "serve");
    MountsHere(cloud, LoaderMountings(cloud, configMap, bucket), 1, bucket, "artifacts", "artifacts", false);
    MountsHere(cloud, ServerMountings(cloud, configMap, bucket), 1, bucket, "model", "model", true);
  }

  /** Whoever mounts an object's bucket as dataset or model sees exactly what the object's own Job wrote as
      artifacts. */
  lemma ReaderSeesWriter(cloud: Cloud, writer: Bucket, reader: Bucket, producer: string, consumer: string)
    requires writer.Source().Ok? && reader.Source() == writer.Source()
    ensures Place(Added(cloud, reader, ModelMount(consumer))) == Place(Added(cloud, writer, ArtifactsMount(producer)))
    ensures Place(Added(cloud, reader, DatasetMount(consumer))) == Place(Added(cloud, writer, ArtifactsMount(producer)))
  {
    hide BucketUrls.Parse;
  }
}
