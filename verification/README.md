# A verified model of the substratus operator and its upload client

Substratus is a Kubernetes operator for four kinds of objects (Model, Dataset, Notebook, Server) and a client that
uploads source trees to be built. Each kind has two reconcilers that share its objects: one builds container images, one
runs them. All of them are level-triggered: they are woken by events, read the cluster, and write back what they find.

This project models those reconcilers, the uploading client and everything around them as one transition system, and
proves what the reconcilers promise together, over every run and every interleaving. It also models, in the form in which
they are written, the small exact parts the system rests on. Run `dafny verify dfyconfig.toml` in this directory.

## How it is organised

The network:

- `Cluster.dfy`: objects, children, the API server's answers (optimistic concurrency, status and spec as two separate
  writes, silent writes that change nothing), the watches and field indexes.
- `Programs.dfy`: the reconcilers as programs over single API calls. A program counter holds the live local variables.
- `Controllers.dfy`: the same reconcilers step by step, editing a local copy. Each method is proved to end as its program
  does, whichever of its calls are answered, lost or refused, so what is proved of the programs holds of the methods.
- `Network.dfy`: the transition system. Every API call of every reconcile in flight is a step of its own; users, Jobs,
  Pods, Deployments, restarts and clients move between any two of them; a call may fail before or after it takes effect.
- `Wakeups.dfy`, `Safety.dfy`, `Readiness.dfy`, `Builds.dfy`: what holds in every reachable state and over whole runs.
- `Quiescence.dfy`: what statuses say once nothing is queued, and when exactly nothing is left to do.
- `Stuck.dfy`, `Flips.dfy`: the keys that are retried for nothing, the reconciles that crash, and readiness that flips for
  ever. `Failures.dfy`: legal runs from the empty cluster that lead to each of them.
- `Frames.dfy`: what one undisturbed reconcile leaves alone. `Verdicts.dfy`: what it makes of the references and Jobs it
  finds, what it writes, and what it does when a call does not succeed. `Children.dfy`: what Pods and Deployments contain
  once nothing is left to do.
- `Stages.dfy`, `Idempotence.dfy`, `Drain.dfy`, `Drained.dfy`: termination of reconciling, and exactly when the queues empty.
- `InFlight.dfy`: what a reconcile in flight knows of its upload, whatever happens around it. `Handshake.dfy`,
  `Uploads.dfy`: the upload protocol over infinite fair runs, and its client.
- `Artifacts.dfy`: artifact URLs over runs, and that readers mount where writers wrote.

The exact cores: `BucketUrls.dfy`, `Checksums.dfy`, `Identity.dfy`, `Versions.dfy`, `PodAssembly.dfy`, `FileSync.dfy`,
`SignedUrlServer.dfy`.

## Main results

1. No wakeup is lost: after any run, a key that is neither queued nor in work would find nothing to write (for a build that
   waits for an upload, unless a client still owes its poke).
2. An image is written only by the build controller, from a Job for exactly that image which stood until it was seen to have
   succeeded; for an upload, the bucket held that checksum no later than that Job was created, provided no Git tag of the
   object ever spelled it (`Builds.ProvenanceOverRuns`).
3. While the world holds still, consider clusters in which every build has a source, GPU types of Notebooks and Servers are
   offered, and an old image is left beside a build only on a Model or Dataset without references that is built from Git. A
   sequence of whole reconciles empties the queues, whichever keys are taken, if and only if every
   pending upload is already in the bucket and no object has an old image, an unfinished build and a complete Job. Then the
   cluster is at rest; otherwise a key of the blocked object stays queued for ever (`Drained.DrainsExactly`). With pending
   uploads or unsupported GPU types, but no contested image, every sequence becomes constant, and a fair one ends with
   exactly the stuck keys in the queue (`Drain.EndsWithStuck`).
4. Readiness spreads along references strictly in order; nothing on or behind a cycle becomes Ready; with empty queues on an
   acyclic finished graph everything is Ready.
5. From any reachable state in which an upload handshake is open, whatever reconciles are in flight, every fair run reaches
   Uploaded=True with the client's checksum and stays there, if nobody edits or removes the object, writes its upload or pokes
   without effect, and no lookup fails for a new request once the upload is recorded. Every reconcile moves by single calls
   that may fail; fairness asks that the client acts, that reconciles of the build key end, and that this key gets an
   undisturbed turn again and again for as long as it is queued again and again (`Handshake.HandshakeCompletes`).
6. Every verdict is spelled out, without the functions that compute it: which condition a Job, a missing reference or a failed
   call leads to, which image URL a build gets, what an idle Notebook's Pod mounts, and where every mounted bucket is. Two
   objects of one bucket never share an artifact directory unless their digests collide (`Verdicts.TrainedVerdict`,
   `Verdicts.ModelWaits`, `Builds.ImageUrlIs`, `Children.IdleNotebookPod`, `Artifacts.ObjectsApart`).
7. Round trips and conservation for URLs, checksums, names, Pods and mirrored files, each with its exact condition.

## What the proofs found

Where the code and its comments or intentions differ, the model follows the code.

- The client's poke has a resolution of one second. A poke with the timestamp text already on the object is no event, and
  then nobody looks at the upload (`Handshake.PokeCounts`).
- A client that finds its checksum recorded leaves at once, also when the bucket no longer holds it
  (`Handshake.StaleRecordSkips`). A request with an empty identifier on a fresh object never gets a URL
  (`Handshake.EmptyRequestWaits`).
- A lookup that fails for a new request is taken for an empty bucket. Where an upload was recorded without waiting for a
  client, the next such failure forgets it and signs a URL that nobody asked for (`Handshake.FailedLookupForgets`). A build
  reconcile that has looked up a checksum records it even if the bucket has lost it since (`Handshake.MisledRecords`).
- The schema admits checksums in upper case, but the local upload server records lower case, so such an upload is never
  recognised (`Checksums.RecordedAsSpecified`).
- Namespace and name of an object are joined by a hyphen in its image repository, so two objects of one kind can share it:
  `a-b` in namespace `c`, and `b` in namespace `c-a` (`Builds.SharedRepository`).
- A finished Git build whose tag spells the checksum is taken for the upload build (`Builds.GitJobServesUpload`).
- A signed upload that nobody has put in the bucket yet, and a Notebook or Server with an unsupported GPU, are retried
  without effect until something else moves (`Stuck.StuckRetries`, `Drain.TurnForNothing`). A Model or Dataset for which
  only the GPU type is unmet is at rest whatever its condition says (`Quiescence.ModelAtRest`, `Quiescence.DatasetAtRest`).
- A due build without Git or Upload dereferences nil (`Stuck.CrashesExactly`). An old image left beside a Git build
  keeps the two controllers of its object at odds for ever exactly when the modeller or loader Job is complete and the build
  Job for the current image is not (`Drained.DrainsExactly`), and then Ready can flip for ever (`Flips.StaleImageFlips`); the
  client clears the image first (`Uploads.SpecifiedStartsBuild`).
- The local upload server writes the checksum before the body. If the disk fails in between, the checksum claims a body that
  is not there (`SignedUrlServer.TornUpload`).
- A mapping function whose List fails drops the event, and a referrer that waits for a reference is woken by nothing else
  (`Quiescence.WakeupMatters`).
- An event that combines file operations is skipped by the client (`FileSync.CombinedIsLost`), and whether the two sides
  agree in the end is decided without it (`FileSync.ConsumingExactly`).
- Re-creating an out-of-date Job creates the fetched Job again and is always rejected; the next reconcile creates the new one.
- A comment in `internal/cloud/kind.go` speaks of `tar:///bucket`; the default is printed with four slashes, and with three
  it would be read back as a relative path (`BucketUrls.KindDefault`).
- At the largest integer the next version wraps around to a negative one (`Versions.FreshName`).

## Model

| member | source | states |
|---|---|---|
| Programs.Resume | internal/controller/model_controller.go:43-218 | every answer to a call leaves strictly fewer calls to make, so no reconcile loops |
| Controllers.ScanJob | internal/controller/utils.go:37-49 | complete iff Complete=True is there before any Failed=True, failed iff the converse |
| Controllers.ScanPod | internal/controller/utils.go:51-65 | running, and among the conditions one of type Ready with status True |
| Controllers.ReconcileJob | internal/controller/utils.go:23-35 | an existing Job is reused; an error, success and failure continue as the program does |
| Controllers.ReconcileModel | internal/controller/model_controller.go:70-218 | for every fate of its calls, ends with the store, the woken keys and the outcome of the Model program |
| Controllers.ReconcileData | internal/controller/dataset_controller.go:77-147 | the same for Datasets |
| Controllers.ReconcileNotebook | internal/controller/notebook_controller.go:131-310 | the same for Notebooks, suspension and dependencies |
| Controllers.RunNotebookPod | internal/controller/notebook_controller.go:255-309 | the same for applying, evicting and reporting the Pod; what is in the Pod is in `Children.NotebookPodAtRest` |
| Controllers.ReconcileServer | internal/controller/server_controller.go:207-303 | the same for Servers |
| Controllers.Run | internal/controller/notebook_controller.go:38-64 | the same for the Reconcile entry point of all four kinds |
| Controllers.ReconcileUploadFile | internal/controller/build_reconciler.go:183-268 | goes on to the Job only with the requested checksum recorded; otherwise, also when signing fails, ends as the program does |
| Controllers.ReconcileBuildJob | internal/controller/build_reconciler.go:115-173 | create, delete and re-create, wait, or write the image, as the program does |
| Controllers.RunBuild | internal/controller/build_reconciler.go:59-174 | the build Reconcile entry point ends as the build program does, including the nil dereference |
| Controllers.FindDependents | internal/controller/model_controller.go:237-283 | enqueues exactly the keys the index lists for the changed object, and none if the List fails |
| Controllers.FacedAnswered | internal/controller/build_reconciler.go:59-174 | with every call answered, the methods' semantics is the undisturbed reconcile of the programs |
| Cluster.JobResultTells | internal/controller/utils.go:37-49 | the function behind ScanJob tells complete and failed apart by which of the two was reported first |
| Cluster.GpusOffered | internal/resources/gpu_info.go:14-48 | what can be constructed: no GPU, a local cluster, or one of three types |
| Cluster.WakesAre | internal/controller/notebook_controller.go:73-129 | exactly who an event wakes: an object's own controllers and the runners of the objects of its namespace that name it, the owner of a child, nobody for the bucket |
| Verdicts.TrainedVerdict | internal/controller/model_controller.go:174-215 | a due Model or Dataset becomes Ready iff its Job completed first, and otherwise says JobFailed or JobNotComplete; a missing Job, and nothing else, is created with the image of the spec |
| Verdicts.ModelWaits | internal/controller/model_controller.go:92-172 | a Model whose base Model or Dataset is missing or not Ready creates nothing and says the first thing it waits for |
| Verdicts.NotebookWaits | internal/controller/notebook_controller.go:171-252 | the same for a Notebook, where an empty name is no reference |
| Verdicts.ServerWaits | internal/controller/server_controller.go:207-248 | the same for a Server, which waits also when it names no Model |
| Verdicts.BuildFinishes | internal/controller/build_reconciler.go:157-171 | a succeeded Job for the current image: image written, Built=True for the new generation, nothing else moves |
| Verdicts.BuildWaits | internal/controller/build_reconciler.go:115-155 | a missing Job is created for the current image; until it has succeeded the object is not Ready and Built is False |
| Verdicts.BuildReplaces | internal/controller/build_reconciler.go:128-137 | a Job for another image is deleted, and the reconcile ends in an error |
| Verdicts.LeftAlone | internal/controller/model_controller.go:43-75 | who has nothing to do: no image or Ready for the runner, no build or the desired image for the builder |
| Verdicts.FailedCall | internal/controller/utils.go:23-35 | every failed call ends in a retry; Job calls first publish JobNotComplete, and a failed lookup for a new request counts as an empty bucket |
| Verdicts.RefusedCall | internal/controller/notebook_controller.go:261-281 | refused writes are retried, but an existing Job is used and an unchangeable Pod deleted |
| Verdicts.AbsentTarget | internal/controller/notebook_controller.go:283-310 | which missing targets are success, which an error, and that a Pod gone right after it was applied counts as it was |
| Children.NotebookPodAtRest | internal/controller/notebook_controller.go:317-455 | at rest with Ready references, the Pod has the image, command and GPU of the spec and the URLs of the named Model, of the named Dataset and of the Notebook itself, each in its place |
| Children.DeploymentAtRest | internal/controller/server_controller.go:114-205 | the same for a Deployment, which has the named Model's URL and no other |
| Children.IdleNotebookPod | internal/controller/notebook_controller.go:404-442 | after any run, the Pod of an idle Notebook has the computed artifact URLs, and none exactly without a reference |
| Children.IdleServerPods | internal/controller/server_controller.go:180-193 | the same for an idle Server |
| Wakeups.IndexAgrees | internal/controller/manager.go:23-72 | whatever a reconcile reads, an event on it enqueues that reconcile through watches and index lookups |
| Wakeups.NoLostWakeups | internal/controller/notebook_controller.go:73-129 | after any run a key is queued, in work, the key of a due upload that is owed a poke, or reconciling it would write nothing and return no error |
| Wakeups.NothingOwedUnstored | internal/client/upload.go:180-189 | after any run, whatever is owed a poke has something in the bucket |
| Safety.Reachable | internal/controller/build_reconciler.go:183-268 | all safety invariants on statuses, Jobs, local copies and clients hold after every run |
| Readiness.ReadyMeansCondition | internal/controller/build_reconciler.go:138-171 | Ready implies Complete=True or Serving=True although two controllers write the status |
| Readiness.WhoUnreadies | internal/controller/model_controller.go:73-75 | only a build step whose desired image differs from the image takes Ready from a Model or Dataset |
| Readiness.FirstReadyMoment | internal/controller/model_controller.go:206-213 | the recorded first Ready moment is the step after which the object is Ready, and is never changed |
| Readiness.DependencyOrder | internal/controller/model_controller.go:92-172 | with fixed references, base Model and Dataset are first Ready strictly before the Model |
| Readiness.ChainOrder | internal/controller/model_controller.go:92-172 | along any chain of references each link costs at least one moment |
| Readiness.NeverReadyBehindCycle | internal/controller/model_controller.go:92-128 | no Model on or behind a cycle of references ever becomes Ready |
| Builds.SameUrlSameTag | internal/cloud/common.go:18-43 | two builds of one object have the same image URL exactly when they have the same tag |
| Builds.ImageUrlIs | internal/cloud/common.go:18-43 | registry, cluster, kind, namespace and name, then the Git tag, or else the branch, or else latest; without Git the checksum |
| Builds.SharedRepository | internal/cloud/common.go:39-42 | two objects share a repository iff kinds agree and namespace and name read the same joined by a hyphen |
| Builds.GitJobServesUpload | internal/controller/build_reconciler.go:128-158 | a finished Git Job serves an upload build exactly when the Git tag spells the checksum |
| Builds.BuildProvenance | internal/controller/build_reconciler.go:138-161 | a controller changes an image only to that of a Job it saw succeed, spelled out as registry, cluster, kind, namespace, name and tag; for uploads that Job came from the bucket holding the checksum |
| Builds.ProvenanceOverRuns | internal/controller/build_reconciler.go:70-174 | the same over the states of the run: the Job was created at a moment, stood until it was seen to have succeeded, and the bucket held the checksum no later than that creation |
| Builds.UploadStatusShape | internal/controller/build_reconciler.go:189-267 | signed URL and stored checksum exclude each other, Uploaded=True iff a checksum is stored, and storage reported it |
| Builds.UploadAgreement | internal/client/upload.go:142-182 | a client about to upload holds a URL signed for its object and for the checksum of the request it saw, unless the request was reused |
| Builds.SkipMeansStored | internal/client/upload.go:157-162 | a client skips its upload only if storage was seen to hold its checksum |
| Quiescence.ServerAtRest | internal/controller/server_controller.go:207-303 | nothing to do iff Ready and reason are the verdict on Model and Deployment, and, with a Ready Model, Service and Deployment are up to date and constructible |
| Quiescence.NotebookAtRest | internal/controller/notebook_controller.go:131-310 | nothing to do iff Ready and reason are the verdict on suspension, references and Pod, and the Pod is gone while suspended and up to date once all references are Ready |
| Quiescence.ModelAtRest | internal/controller/model_controller.go:92-204 | nothing to do iff Ready, or URL and Complete reason name the first unmet stage in code order, or only the GPU type is unmet |
| Quiescence.DatasetAtRest | internal/controller/dataset_controller.go:77-147 | nothing to do iff Ready, or URL and reason are the verdict on the existing loader Job, or the GPU type is not offered |
| Quiescence.WakeupMatters | internal/controller/model_controller.go:237-283 | when a reference becomes Ready, the index lookup wakes its resting referrers of every kind; one has work exactly if this was the first unmet reference, unless its Job cannot be constructed |
| Quiescence.IdleVerdict | internal/controller/server_controller.go:280-300 | after any run, a Server or Notebook that is not queued or in work shows the verdict on the cluster as it is |
| Quiescence.AllReady | internal/controller/model_controller.go:70-218 | at rest, on an acyclic graph with all Jobs complete, every Model and Dataset is Ready |
| Quiescence.Completeness | internal/controller/dataset_controller.go:77-147 | the same after any run that ends with empty queues |
| Stages.ReconcileProgress | internal/controller/model_controller.go:70-218 | a reconcile in a calm cluster lowers its object's stages, or changes at most its status and returns no error unless its key is stuck |
| Idempotence.Idempotent | internal/controller/build_reconciler.go:183-268 | after a reconcile that moved no stage, its key has nothing left to write or is stuck |
| Drain.PeerIsQuiet | internal/controller/build_reconciler.go:70-72 | without an old image beside a build, the two controllers of one object never both have work |
| Drain.TurnLowers | internal/controller/build_reconciler.go:112-173 | every turn lowers the stages, or the number of restless keys, or only shortens the queue, or changes nothing and its key is stuck |
| Drain.BecomesConstant | internal/controller/model_controller.go:73-218 | every infinite sequence of turns from a calm cluster becomes constant, with empty queues or on stuck keys |
| Drain.TurnEffect | internal/controller/build_reconciler.go:59-174 | one undisturbed reconcile is a run of single calls of the transition system with the same effect |
| Drain.DrainsToRest | internal/controller/dataset_controller.go:80-146 | from any reachable state with nothing in flight, no clash, pending uploads in the bucket and GPU types offered, the queues empty and the cluster is at rest |
| Drain.OnlyStuckRemain | internal/controller/server_controller.go:262-272 | under fair picks the constant tail queues nothing but stuck keys |
| Drain.EndsWithStuck | internal/controller/build_reconciler.go:239-243 | from any reachable state with nothing in flight and no clash, a fair sequence of turns ends with exactly the stuck keys queued |
| Drained.DrainsExactly | internal/controller/build_reconciler.go:115-268 | among ordinary clusters with nothing in flight, the queues empty iff pending uploads are in the bucket and no old image is contested, and then the cluster is at rest |
| Drained.BlockedNeverEmpties | internal/controller/build_reconciler.go:138-155 | a missing upload, or an old image with a complete Job and an unfinished build, keeps one of the two keys of its object queued for ever |
| Stuck.StuckRetries | internal/controller/build_reconciler.go:239-243 | a reconcile writes nothing, wakes nobody and returns an error iff its upload cannot be looked up or its Pod needs an unsupported GPU |
| Drain.TurnForNothing | internal/controller/notebook_controller.go:255-262 | a turn leaves store and queue unchanged iff its key is stuck |
| Stuck.CrashesExactly | internal/controller/build_reconciler.go:85-113 | a reconcile dereferences nil iff it is a due build with neither Git nor Upload |
| Flips.FlipUp | internal/controller/model_controller.go:206-215 | an old complete Job makes the object Ready and wakes the build controller |
| Flips.FlipDown | internal/controller/build_reconciler.go:138-155 | an unfinished build takes Ready away and wakes the runner |
| Flips.StaleImageFlips | internal/controller/build_reconciler.go:138-155 | with an old image beside an unfinished build and a complete Job, Ready goes up and down for ever and the queue never empties |
| Failures.SourcelessReached | internal/controller/build_reconciler.go:85-113 | creating an object with an empty build leads to the crash |
| Failures.StuckPodReached | internal/controller/notebook_controller.go:255-262 | creating a Notebook with an unsupported GPU leads to a stuck key |
| Failures.StuckUploadReached | internal/controller/build_reconciler.go:214-243 | creating an object with an upload and signing its URL leads to a stuck key |
| Failures.FlippingReached | internal/controller/build_reconciler.go:115-155 | a legal run leads to an object that flips: its Job completes before the build controller creates the build Job |
| Frames.TurnFramed | internal/controller/notebook_controller.go:131-310 | a runner leaves other objects and their Jobs, its spec, its build Job, the bucket, upload status and the upload and build conditions alone; a build controller leaves other objects, all Jobs but its own, the bucket, and of its object all but image, Ready, upload status and the upload and build conditions |
| Handshake.BuilderRecords | internal/controller/build_reconciler.go:189-212 | when the bucket holds the checksum the next build reconcile records it, at a new request with an empty recorded one and at a known request, with Uploaded=True and UploadFound for the current generation |
| Handshake.BuilderSigns | internal/controller/build_reconciler.go:214-237 | otherwise a new request gets a URL for its checksum and Uploaded=False, and nothing else of the status moves; a known request changes nothing |
| Handshake.CallSpares | internal/controller/dataset_controller.go:77-147 | no single call of another key's reconcile changes the object's spec, stamp, upload status or Uploaded condition |
| InFlight.SincereStep | internal/controller/build_reconciler.go:183-268 | whatever the answers, a build reconcile in flight records only the upload its copy asks for, goes on to the Job only once that is recorded, and signs only for a new request |
| Handshake.HeedsStep | internal/controller/build_reconciler.go:189-243 | a build reconcile that has yet to look stays attentive while it writes nothing, whether its calls fail or not |
| Handshake.HandshakeCompletes | internal/client/upload.go:126-192 | from any reachable open handshake, with any reconciles in flight and single calls that may fail, every fair run nobody interferes with reaches Uploaded=True with the client's checksum and stays there |
| Handshake.FailedLookupForgets | internal/controller/build_reconciler.go:194-218 | a failed lookup makes a recorded upload forgotten and a URL signed exactly if the recorded request is not the one asked for |
| Handshake.MisledRecords | internal/controller/build_reconciler.go:238-264 | a reconcile about to record a checksum that the bucket has lost records it |
| Handshake.PokeCounts | internal/client/upload.go:184-189 | after upload and poke the controller will look exactly when the timestamp text changed |
| Handshake.EmptyRequestWaits | internal/controller/build_reconciler.go:189-189 | on a fresh object the build controller does nothing exactly for an empty request identifier |
| Handshake.StaleRecordSkips | internal/client/upload.go:157-162 | a client that skips is right exactly when the bucket still holds the checksum |
| Uploads.AwaitUrl | internal/client/upload.go:142-178 | the watch loop ends as the first reaction that is not to wait |
| Uploads.HoldsWhatItSaw | internal/client/upload.go:142-178 | the first event that is not ignored decides: skip for a recorded checksum, the URL and the upload of that version for a matching request, and otherwise an error |
| Uploads.Manifest.SpecifyUpload | internal/tui/common.go:108-116 | image cleared and the upload made the only source of the build |
| Uploads.Manifest.SetUploadContainerSpec | internal/client/upload.go:70-93 | whatever the build was, Git is dropped and Upload set |
| Uploads.Manifest.SetNamespace | internal/tui/common.go:43-53 | specified, own, contextual, default, in this order |
| Uploads.Manifest.Increment | internal/tui/common.go:164-189 | the incremented name is in no list entry unless the versions are used up |
| Uploads.SpecifiedStartsBuild | internal/tui/common.go:108-116 | what the client prepares is always due to be built, with its checksum as tag and no stale image |
| Artifacts.PersistedIsComputed | internal/controller/model_controller.go:77-77 | in every reachable state the persisted artifact URL is the computed one |
| Artifacts.SourceAt | internal/cloud/gcp.go:82-91 | a mount from the persisted URL and one from the computed URL use the same bucket and path |
| Artifacts.ReadersMeetWriters | internal/cloud/gcp.go:106-121 | a Pod that mounts an object reads the directory its Job wrote, whenever either was assembled |
| Artifacts.ArtifactUrlIs | internal/cloud/common.go:45-66 | the configured bucket, and below its path the digest of `clusters/../namespaces/../<kind>s/..` |
| Artifacts.PlacesApart | internal/cloud/gcp.go:106-121 | whatever is mounted of two objects with different slash-free digests is in two places |
| Artifacts.ObjectsApart | internal/cloud/kind.go:50-90 | the same in any two reachable states, from whichever URL the mounts start |
| BucketUrls.RoundTrip | internal/cloud/utils.go:31-48 | parsing undoes printing exactly for valid schemes, hosts and paths (section 3 of RFC 3986) |
| BucketUrls.KindDefault | internal/cloud/kind.go:24-41 | the default bucket, empty host and absolute path, survives; with three slashes it would not |
| BucketUrls.SpellingsParse | internal/cloud/utils.go:35-48 | a scheme in capitals, user information, a query and a fragment change nothing of what is parsed |
| BucketUrls.EscapeDecodes | internal/cloud/utils.go:35-48 | an escaped byte in a path is decoded to that byte, and unescaped text is kept (section 2.1 of RFC 3986) |
| BucketUrls.SchemelessParse | internal/cloud/utils.go:35-48 | a text that starts with no letter is all path, and an error iff its first segment has a colon |
| BucketUrls.SlashesParse | internal/cloud/utils.go:35-48 | a text that starts with one slash or with three is all path |
| BucketUrls.FragmentRefused | internal/cloud/utils.go:35-39 | an unsound escape in a fragment is an error |
| BucketUrls.NoAuthorityParse | internal/cloud/utils.go:35-48 | with a scheme but not two slashes there is no bucket: one slash starts the path, anything else is dropped |
| BucketUrls.HostCharsAre | internal/cloud/utils.go:35-39 | a host may contain everything above ASCII and everything visible but eleven characters |
| BucketUrls.UserCharsAre | internal/cloud/utils.go:35-39 | the same for user information, with fourteen characters excepted |
| BucketUrls.EscapesAre | internal/cloud/utils.go:35-39 | escapes are two hexadecimal digits, in a host only of bytes above ASCII and of the percent sign |
| BucketUrls.AuthorityIs | internal/cloud/utils.go:35-46 | behind the last at sign is the host; what is before it must be sound and is dropped |
| BucketUrls.BracketedPort | internal/cloud/utils.go:35-39 | behind a bracketed address only a port may follow |
| BucketUrls.PortIs | internal/cloud/utils.go:35-39 | a port is accepted iff it is digits only, and may be empty |
| BucketUrls.Setting.UnmarshalText | internal/cloud/utils.go:15-29 | empty or unparsable text leaves the receiver alone |
| Identity.HashInputInjective | internal/cloud/common.go:57-66 | equal hash inputs iff equal cluster, namespace, kind and name, for slash-free clusters and namespaces |
| Identity.JobNamesApart | internal/controller/build_reconciler.go:576-580 | Job names are equal iff parent, kind and role are |
| Identity.NamesFit | docs/design.md:216-231 | fifty characters is the exact limit for parents of children with at most 63 |
| Versions.NextVersion | internal/tui/common.go:227-245 | one more than the highest matched version, or an error iff one is out of range |
| Versions.VersionOfIncrement | internal/tui/common.go:229-238 | an incremented name is matched at its start and read back as its version |
| Versions.VersionIs | internal/tui/common.go:229-238 | an item that stands for a version is anything, a text that resembles the name, a hyphen and all the digits after it, which are the version |
| Versions.VersionFound | internal/tui/common.go:229-238 | conversely every such item stands for a version; a dot in the name matches any character but a newline |
| Versions.HighestIsMaximum | internal/tui/common.go:238-241 | the running maximum bounds every matched version and is attained |
| Versions.FreshBelow | internal/tui/common.go:244-244 | one more than the highest version makes a name that is in no list entry |
| Versions.FreshName | internal/tui/common.go:164-189 | the new name is in no list entry iff there is room for one more version or the wrapped name is free |
| Checksums.HexRoundTrip | internal/client/upload.go:309-312 | decoding undoes printing (section 8 of RFC 4648) |
| Checksums.Base64RoundTrip | internal/sci/kind/server.go:45-50 | decoding undoes encoding (section 4 of RFC 4648) |
| Checksums.HexDigitsOf | internal/sci/kind/server.go:51-51 | every byte is printed as two lower-case digits, the high one first |
| Checksums.HexAccepts | internal/client/upload.go:309-312 | a checksum decodes iff it is an even number of hexadecimal digits, in either case |
| Checksums.Base64Groups | internal/client/upload.go:313-313 | three bytes are one number, printed as its four digits to the base 64, with equals signs where bytes are missing |
| Checksums.Alphabet | internal/client/upload.go:313-313 | the alphabet is the standard one, in order (table 1 of RFC 4648) |
| Checksums.Base64Accepts | internal/sci/kind/server.go:45-50 | a header decodes iff its length is a multiple of four and all is in the alphabet but one or two equals signs at the very end |
| Checksums.LineBreaks | internal/sci/kind/server.go:45-50 | a line break in a header is as good as none |
| Checksums.SurvivesWire | internal/client/upload.go:308-313 | for every byte string the server prints the checksum the client started from |
| Checksums.RecordedAsSpecified | internal/sci/kind/server.go:39-51 | the recorded checksum is the specified one iff that is in lower case |
| SignedUrlServer.PathsAgree | internal/sci/kind/server.go:83-105 | client and controller mean the same checksum file iff the object name is absolute |
| SignedUrlServer.CleanAppend | internal/sci/kind/server.go:64-68 | what the last segment of a path does to its clean form, for every segment |
| SignedUrlServer.BesideObject | internal/sci/kind/server.go:94-94 | the checksum file of an object is md5.txt in its directory |
| SignedUrlServer.TwoDirectories | internal/sci/kind/server.go:94-94 | two objects share a checksum file iff their directories are the same once cleaned |
| SignedUrlServer.OthersUndisturbed | internal/sci/kind/server.go:62-81 | an upload, however it goes, leaves the checksum of an object in another directory alone, unless it is an upload of that file |
| SignedUrlServer.TrimmedText | internal/sci/kind/server.go:100-100 | trimming takes away all surrounding white space and nothing else |
| SignedUrlServer.SpacesAre | internal/sci/kind/server.go:100-100 | white space is blank, tab, the two feeds, the vertical tab and the return |
| SignedUrlServer.Server.ServeHTTP | internal/sci/kind/server.go:27-81 | 400 and no trace for a refused request, 500 and a partial trace for each kind of disk error, otherwise 200 with checksum and body stored |
| SignedUrlServer.TornUpload | internal/sci/kind/server.go:62-81 | a checksum is left behind without its body iff the disk fails between the end of the checksum and the end of the body |
| SignedUrlServer.Server.GetObjectMd5 | internal/sci/kind/server.go:91-106 | the trimmed content of the checksum file, or an error iff there is none |
| SignedUrlServer.UploadTarball | internal/client/upload.go:308-350 | succeeds iff the checksum is non-empty hexadecimal, the file opens, the answer arrives and the disk is fine; a request that arrives is stored even if the client sees an error |
| SignedUrlServer.Exchange | internal/sci/kind/server.go:62-106 | sign, upload and look up give back the checksum in lower case and the body |
| FileSync.Mirror.WatchOne | containertools/cmd/nbwatch/main.go:80-94 | counts every event, drops it iff the last name of its path starts with a dot, and otherwise passes it on with its number; keeps the convergence invariant |
| FileSync.Mirror.WatchLoop | containertools/cmd/nbwatch/main.go:68-97 | consumes the channel and keeps the invariant |
| FileSync.Mirror.SyncOne | internal/client/sync.go:83-112 | one event has its effect on the local files and keeps the invariant |
| FileSync.Mirror.SyncLoop | internal/client/sync.go:80-117 | consumes the stream, keeps the invariant and touches no hidden local file |
| FileSync.Mirror.RenameFile | containertools/cmd/nbwatch/main.go:82-94 | a rename, also from a hidden name, keeps the invariant |
| FileSync.Mirror.Settle | internal/client/sync.go:80-117 | once the stream is consumed, a path whose last name starts with no dot agrees iff the pending events said so, and always unless its last change was told only by a combined event; other local files are untouched |
| FileSync.Mirror.ChangeFile | containertools/cmd/nbwatch/main.go:80-94 | a change told by one combined event keeps the invariant of every other path |
| FileSync.ConsumingExactly | internal/client/sync.go:96-111 | whatever is pending, consuming it makes a path agree iff its last telling event, or in its absence the contents, say so |
| FileSync.CombinedIsLost | internal/client/sync.go:96-111 | a combined event makes no difference to whether the sides will agree |
| FileSync.HiddenNames | containertools/cmd/nbwatch/main.go:84-91 | a path is hidden iff its last name starts with a dot, in whatever directory |
| FileSync.NoNames | containertools/cmd/nbwatch/main.go:84-91 | the root is not hidden, an empty path is |
| FileSync.TrailingSlash | containertools/cmd/nbwatch/main.go:84-91 | slashes at the end do not count |
| PodAssembly.PodSpec.MountParams | internal/controller/params_reconciler.go:78-104 | the volume is always added; only the first container of that name gets the mount |
| PodAssembly.PodSpec.MountBucket | internal/cloud/gcp.go:73-124 | annotations, volume and mounts on both clouds: the bucket and the URL path with the subdirectory below it on GCP, the host directory with the subdirectory on a local cluster; a bad persisted URL changes no volume or container |
| PodAssembly.PodSpec.SetContainerResources | internal/resources/resources.go:93-110 | init containers first, then containers, one container only |
| PodAssembly.PodSpec.ApplyResources | internal/resources/resources.go:13-72 | defaults, GPU selector and toleration; an unsupported GPU changes nothing |
| PodAssembly.ByIndex | internal/resources/resources.go:112-125 | both lists are right-biased merges |
| PodAssembly.ExactSize | internal/resources/resources.go:36-37 | a size in gigabytes is exact iff it is below 2^33 in magnitude |
| PodAssembly.NotebookPod | internal/controller/notebook_controller.go:317-455 | a well-formed Pod for every combination of Model and Dataset, with annotations, node selector and toleration, and exactly when assembly fails |
| PodAssembly.ModellerPod | internal/controller/model_controller.go:286-395 | the same for modeller Jobs |
| PodAssembly.LoaderPod | internal/controller/dataset_controller.go:149-217 | the same for loader Jobs |
| PodAssembly.ServerPod | internal/controller/server_controller.go:114-205 | the same for Deployments |
| PodAssembly.MountKeeps | internal/cloud/kind.go:66-86 | mounting a new volume at an unused path keeps a Pod well formed |
| PodAssembly.NotebookIsWellFormed | internal/controller/notebook_controller.go:404-442 | standard mountings, each at most once, for every combination |
| PodAssembly.ModellerIsWellFormed | internal/controller/model_controller.go:344-381 | the same for modeller Jobs |
| PodAssembly.OthersAreWellFormed | internal/controller/server_controller.go:180-193 | the same for loader Jobs and Deployments |
| PodAssembly.ApartIsWellFormed | internal/controller/notebook_controller.go:404-442 | then volume names and mount paths are distinct, mounts name volumes, and only artifacts is writable among buckets |
| PodAssembly.ReaderSeesWriter | internal/cloud/kind.go:50-90 | a reader's mount leads to the same place as the producer's artifacts mount |
| PodAssembly.PlaceIs | internal/cloud/gcp.go:82-121 | where a mounted bucket is, with name, mount path and readOnly flag of volume and mount |
| PodAssembly.NotebookMounts | internal/controller/notebook_controller.go:404-442 | own artifacts for writing, the given Dataset as data, the given Model as model, and nothing else but params |
| PodAssembly.ModellerMounts | internal/controller/model_controller.go:344-381 | the same for modeller Jobs with a base Model |
| PodAssembly.OthersMount | internal/controller/dataset_controller.go:149-217 | a loader Job writes its own artifacts, a Server's Pods read the Model |
| PodAssembly.AnnotationsAre | internal/cloud/gcp.go:73-81 | the annotations of every kind of Pod, by name and value |
| PodAssembly.RequestsAre | internal/resources/resources.go:31-47 | exactly processors, memory and disk in bytes and the GPU count are asked for, and only the GPU is limited |
| PodAssembly.DefaultsAre | internal/resources/resources.go:15-29 | the resources without any in the spec, per cloud |
| PodAssembly.SelectorsAre | internal/resources/gpu_info.go:14-48 | each GPU type goes to nodes with its own accelerator |

## Left out

- Drained.DrainsExactly: turns are whole reconciles; interleaved calls are covered by the safety results. It leaves aside
  builds without a source (which crash), old images beside a build on other objects than those named in main result 3, and
  Notebooks and Servers with an unsupported GPU, for which `Drain.EndsWithStuck` says how every fair sequence ends.
- Handshake.HandshakeCompletes: URL expiry is the premise that a held URL is used in time, and the watch delivers no version
  older than the start of the run. An open handshake excludes a build reconcile that is about to record a checksum the bucket
  has lost; `Handshake.MisledRecords` says why.
- Wakeups.NoLostWakeups: every List of a mapping function is answered; `Quiescence.WakeupMatters` says what a failing one
  loses.
- Builds.UploadAgreement: the client does not compare its own request identifier, so agreement is with the snapshot it saw.
- Flips.StaleImageFlips: stated for Models and Datasets without references and with a Git build.
- Artifacts.SourceAt: requires a digest without URL special characters; MD5 itself is an opaque function.
- PodAssembly.PodSpec.ApplyResources: quantities are integers, not Kubernetes quantities with units.
- Condition messages and transition times, and the expiration text of a signed URL; a write that changes only these is a
  silent write in the model.
- Service accounts, identity bindings and the params ConfigMap: assumed to succeed, nothing depends on them.
- Environment variables of containers: `resolveEnv` returns no error on any input, because a match of a pattern with two
  groups always has three parts. Ports, probes, labels, owner references and security contexts of Pods.
- Graceful deletion: a deleted Pod or Job is gone at once; finalizers and garbage collection are steps of the environment.
- In the transition system an upload is one atomic change of the bucket, addressed by object; the window in which the
  checksum exists before the body is in `SignedUrlServer.dfy` only. What a build Job reads if the bucket changes after the
  check that preceded it is not modelled.
- The order and batching of queue items, back-off times and leader election.
- Signed URLs are structured values (target, checksum, version at signing), not strings.
- `filepath.Join` of the bucket path is modelled for clean bucket paths; IPv6 zone identifiers and user information of URLs
  are only rejected or dropped as the parser does, never interpreted.
- Non-JSON lines on the event stream, and directories.
- AWS and GCP storage back ends, generated code, the terminal interface and the command line.
