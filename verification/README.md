# Hybrid CSI provisioner: a verified model

The hybrid provisioner serves a claim of one storage class from several real ones. For the node a pod was
scheduled to it picks the first listed class that fits (`pkg/provisioner/provisioner.go:170-229`, with the
topology engine of `pkg/provisioner/topology.go`), lets the real backend bind a volume to a temporary claim,
and hands that volume over to the user's claim (`pkg/provisioner/provisioner.go:231-544`). A small helper
cordons and uncordons nodes (`pkg/tools/nodes.go:50-86`).

`dafny verify dfyconfig.toml` checks everything.

## How it is modelled

**Topology.** `Ordering`, `Topology`, `Expansion`, `Canonical` and `Decision` define and prove what the engine
computes; `TopologyTerms` is the engine as it runs. A term there is a slice: a backing array and a length.
`Clone` allocates with arbitrary spare capacity and `Append` writes in place while there is room, so the fact
that no two terms returned by `Flatten` share an array is proved, not assumed. The in-place sort is an insertion
sort with the source's comparator; `SortedUnique` says that any sorting algorithm gives the same result.
Strings are compared character by character, which for UTF-8 text is the order of its bytes.

**Selection.** Listers are functions that may answer with an error, with nil or with an object.

**Handover.** `Cluster` holds claims, volumes and pods and says what each API call does to them. `Handover` is a
state machine: one program counter per user claim (`NextRequest`, `Advance`) over one server, and moves for
everyone else:

- users create and delete claims, and a claim's name may be reused under a new uid (a user's claim is gone at
  once when it is deleted);
- the backend provisions a fresh volume, with any reclaim policy, for a temporary claim that names none;
- the volume controller attaches an available volume to a claim that names it, and reclaims a volume on
  `Delete` whose claim reference names no existing claim;
- other controllers change finalizers at will;
- a run starts or is retried (at most one in flight per user claim), and the provisioner may crash between two
  of its calls (no call outlives the crash to land later);
- every call may be dropped, or carried out with its answer lost, and the claim cache may answer anything.

The environment does not delete temporary claims or volumes otherwise, does not change reclaim policies, and
writes a claim reference only where there is none. Names are assumed not to clash (`DistinctNames`): every user
claim has a temporary claim of its own, and no user claim bears the name of a temporary one.

`HandoverSafety` proves an invariant of every reachable state, `HandoverDetached` what holds of a volume from
its detachment to the end of the run, and `HandoverTraces` shows runs that exist.
`ApiServers.ApiServer` is the server as code meets it: before every call any moves of the others may happen.
It accepts a call only if it is the one the state machine prescribes next. The methods of
`Provisioner.HybridProvisioner` follow the source call by call; verifying them proves that these methods, under
every interleaving, behave as the state machine does, so that its theorems are theorems about them.
What the code sends is recorded too: `Calls` says which sequences of calls and answers carry out a script, retries
included, and the contracts of the methods give the script in plain terms, literal keys and values and all, for
success and for every way of being broken off. `HandoverCalls` says what each of these calls leaves on the server.
`EnsureTemp`, `StartPod`, `StopPod`, `Bind...`, `StartByPod`, `WaitByPod`, `HandOver`, `Loosen`, `Detach`,
`DeleteTemp` and, in `Selection`, `TopologyAdmits` and `SomeIsSubset` are stretches of the source's longer methods
given names.

**Patches.** `Json` is the merge patch algorithm of section 2 of RFC 7396 on JSON trees, `JsonText` a parser for
the grammar of RFC 8259, and `Patches` proves that the text of each hand-written patch, parsed and merged into
any stored object, does to it what `Cluster` says the patch does, and nothing else. `FinalizerNames` settles which
names the unescaped printing of the finalizers is right for.

## What the proofs found

- An expression without values erases the constraints before it (`pkg/provisioner/topology.go:52`, `:65`): the
  comments call the loops a distribution of OR over AND, which they are only when every expression has a value.
  `Expansion.MeaningKeptIff` gives the exact condition, `Expansion.EmptyValuesDropConstraints` an input.
- A key repeated inside a selector term refuses nodes that meet it, unless the driver lists the key as often
  (`pkg/provisioner/topology.go:150-170`): `Decision.RepeatedKeysIff`, `Decision.RepeatedKeyRefused`.
- The claim patch of `bondPVC` goes by name (`pkg/provisioner/provisioner.go:422`). If the user's claim is deleted
  and recreated before it, the new claim comes to name the old claim's volume, which then may be reclaimed under
  it: `HandoverTraces.RecreatedClaimLosesVolume`. `HandoverTraces.SafeIffSole` gives the exact condition: in every
  run a living claim's volume is there and cannot be reclaimed if and only if no other claim ever bears its name.
  Reclaiming is safe by uid in every case (`HandoverSafety.NeverReclaimedWhileOwned`).
- `releasePV` prints finalizers without escaping them (`pkg/provisioner/provisioner.go:509`), which is right exactly
  for names free of quotation marks, backslashes and control characters: `FinalizerNames.FinalizersRoundTripIff`.
  Kubernetes admits only qualified names as finalizers, and those always meet the condition.

## Model

| member | source | states |
|---|---|---|
| Ordering.CompareStringsTransitive | pkg/provisioner/topology.go:123-128 | the string order the comparator uses is transitive |
| Ordering.CompareStringsNegative | pkg/provisioner/topology.go:123-128 | negative exactly for a proper prefix or a smaller character at the first difference; the answer is -1, 0 or 1 |
| Ordering.SegmentsNegative | pkg/provisioner/topology.go:122-129 | the key decides, and between equal keys the value, in that string order |
| Ordering.SegmentsZero | pkg/provisioner/topology.go:122-129 | the comparator is zero exactly on equal segments |
| Ordering.SegmentsTransitive | pkg/provisioner/topology.go:122-129 | the comparator is transitive, key before value |
| Topology.SortTerm | pkg/provisioner/topology.go:121-130 | sorting gives an ordered permutation of the segments |
| Topology.SortedUnique | pkg/provisioner/topology.go:121-130 | there is only one ordered permutation, so the result does not depend on the sorting algorithm |
| Expansion.LiveIsSuffix | pkg/provisioner/topology.go:46-66 | which expressions survive compilation: those after the last one without values |
| Expansion.MixedRadix | pkg/provisioner/topology.go:44-69 | the block of a selector term has one entry per combination of values, and entry k picks the mixed-radix digits of k; for every selector term |
| Expansion.EveryChoiceOnce | pkg/provisioner/topology.go:44-69 | every combination of values sits at exactly one position of the block |
| Expansion.ExpandedTerms | pkg/provisioner/topology.go:44-69 | a term is compiled exactly when it picks one value of each live expression, in order |
| Expansion.FlattenedMeaning | pkg/provisioner/topology.go:41-76 | on every label map the compiled disjunction holds exactly when the live expressions of some selector term do |
| Expansion.WellFormedMeaning | pkg/provisioner/topology.go:41-76 | with values everywhere the conversion preserves the meaning of the selector, repeated keys included |
| Expansion.FlattenedInOrder | pkg/provisioner/topology.go:41-76 | the compiled terms come in the order of the selector terms |
| Expansion.FlattenedBlock | pkg/provisioner/topology.go:44-74 | one selector term compiles to its block, each term sorted |
| Expansion.MeaningKeptIff | pkg/provisioner/topology.go:46-66 | exactly when one selector term keeps its meaning on every node |
| Expansion.EmptyValuesDropConstraints | pkg/provisioner/topology.go:52-65 | an input on which an earlier constraint is lost |
| Canonical.CompareZero | pkg/provisioner/topology.go:132-148 | compare is zero exactly on equal terms |
| Canonical.CompareNegative | pkg/provisioner/topology.go:132-148 | unequal lengths compare by their difference, equal lengths by the first segment that differs |
| Canonical.CompareAntisymmetric | pkg/provisioner/topology.go:132-148 | swapping the arguments of compare negates it |
| Canonical.CompareTransitive | pkg/provisioner/topology.go:132-148 | compare is transitive |
| Canonical.CanonicalForm | pkg/provisioner/topology.go:121-148 | sorted terms compare as zero exactly when they hold the same segments as often |
| Canonical.ScanSound | pkg/provisioner/topology.go:150-170 | whatever the arguments, a positive answer of subset means a subsequence |
| Canonical.ScanExact | pkg/provisioner/topology.go:150-170 | on sorted terms, the right one with one value per key, subset is inclusion as multisets |
| Canonical.ScanFindsEverySegment | pkg/provisioner/topology.go:150-170 | with strictly sorted keys, subset holds exactly when every segment occurs in the other term |
| Canonical.SubsetIsPartialOrder | pkg/provisioner/topology.go:132-170 | reflexive, transitive, and mutual exactly when compare is zero |
| Canonical.ScanIsMapInclusion | pkg/provisioner/topology.go:150-183 | subset agrees with inclusion of the maps built by toCSITopology |
| Canonical.LastSegmentWins | pkg/provisioner/topology.go:172-183 | of several segments with one key the last is in the map, and no key that does not occur |
| Canonical.NodeTopologyIsRestriction | pkg/provisioner/topology.go:87-98 | a node's topology is its labels restricted to the driver's keys, repeated keys or not |
| Decision.DecisionExact | pkg/provisioner/provisioner.go:188-214 | compile-then-scan, exactly, for every selector, label map and key list |
| Decision.DecisionIsDirectEvaluation | pkg/provisioner/provisioner.go:188-214 | with values everywhere and no repeated key, it is direct evaluation of the selector on the node |
| Decision.RepeatedKeysIff | pkg/provisioner/topology.go:150-170 | exactly when repeated keys in a term do no harm to the decision, on every node that has the driver's keys |
| Decision.RepeatedKeyRefused | pkg/provisioner/topology.go:150-170 | a family of inputs refused because a key is repeated |
| Decision.NoKeysNoPass | pkg/provisioner/topology.go:41-98 | without topology keys no restricted class passes, however its selector is written |
| Decision.DecisionOrderInsensitive | pkg/provisioner/provisioner.go:188-213 | the order of terms, expressions, values and keys does not matter when every expression has a value |
| TopologyTerms.Append | pkg/provisioner/topology.go:59 | append writes in place while there is capacity and moves otherwise; the old slice shows what it did |
| TopologyTerms.Sort | pkg/provisioner/topology.go:121-130 | the visible segments end in canonical order in the same array, its spare part untouched |
| TopologyTerms.Distribute | pkg/provisioner/topology.go:52-62 | one value distributed over the terms so far, every result in a fresh array of its own |
| TopologyTerms.Flatten | pkg/provisioner/topology.go:41-76 | returns the sorted compiled terms, in pairwise distinct fresh arrays |
| TopologyTerms.Subset | pkg/provisioner/topology.go:150-170 | the indexed loop computes the scan |
| TopologyTerms.Compare | pkg/provisioner/topology.go:132-148 | the loop computes the term order |
| TopologyTerms.GetTopologyFromNode | pkg/provisioner/topology.go:87-98 | reports a missing key exactly when there is one, and otherwise the node's sorted term |
| TopologyTerms.ToCSITopology | pkg/provisioner/topology.go:172-183 | one segment map per term, in order |
| Selection.GetTopologyKeys | pkg/provisioner/topology.go:78-85 | the keys of the first entry of that name, none when there is no entry |
| Selection.TopologyAdmits | pkg/provisioner/provisioner.go:188-214 | a restricted class passes exactly when its driver's first entry lists only keys the node has and some selector term is admitted on them |
| Selection.GetStorageClassFromNode | pkg/provisioner/provisioner.go:170-229 | the first class of the list that qualifies; an error exactly when the CSINode cannot be had or none does |
| Selection.SelectionEvaluatesDirectly | pkg/provisioner/provisioner.go:180-226 | qualifying is, for selectors as the API documents them, direct evaluation on the keys of the driver's first entry plus the driver check |
| Selection.RestrictedNeedsKeys | pkg/provisioner/provisioner.go:188-214 | a restricted class whose driver's first entry lists no keys, or which has no entry, never qualifies |
| Selection.SplitIsInverse | pkg/provisioner/provisioner.go:136 | the parts hold no comma and joined give the parameter |
| Selection.SplitOfJoin | pkg/provisioner/provisioner.go:136 | splitting recovers any list of comma-free names |
| Cluster.WithoutProtectionCounts | pkg/provisioner/provisioner.go:501-506 | only the protection finalizer is dropped, every other name is kept as often |
| Cluster.WithoutProtectionConcat | pkg/provisioner/provisioner.go:501-506 | the order of the remaining finalizers is kept |
| Json.MergePatchIdempotent | pkg/provisioner/provisioner.go:496-497 | a patch whose answer was lost can be sent again |
| Json.MergePatchFrame | pkg/provisioner/provisioner.go:497 | a merge patch leaves every member it does not mention alone, at any depth |
| JsonText.LayoutRoundTrip | pkg/provisioner/provisioner.go:427-448 | every printed layout of plain strings, white space included, reads back as the document it stands for |
| Patches.VolumePatchRefines | pkg/provisioner/provisioner.go:426-452 | the three volume patches, parsed and merged into any stored object, act as in the cluster model |
| Patches.VolumeTextMeans | pkg/provisioner/provisioner.go:426-541 | the documents the three volume texts stand for, member by member |
| Patches.VolumePatchFrame | pkg/provisioner/provisioner.go:496-541 | they touch nothing but the reclaim policy and the claim reference |
| Patches.RestoreKeepsRest | pkg/provisioner/provisioner.go:427-452 | restoring merges into whatever claim reference is there: its other members survive |
| Patches.FinalizersPatchRefines | pkg/provisioner/provisioner.go:508-516 | the finalizer patch parses to exactly the given names in order, or removes the member |
| Patches.FinalizersTextMeans | pkg/provisioner/provisioner.go:508-516 | the document the finalizer text stands for |
| Patches.UnprotectPatchRefines | pkg/provisioner/provisioner.go:501-516 | the finalizer patch for any seen finalizers, merged, stores them minus the protection |
| Patches.QuotedNameSplits | pkg/provisioner/provisioner.go:509 | plainness is needed: a name with quotation marks would read back as two |
| FinalizerNames.FinalizersRoundTripIff | pkg/provisioner/provisioner.go:508-516 | for every list of names, the printed patch reads back as the patch meant exactly when all names are plain, whatever else a name might smuggle into the text |
| Patches.BondPatchRefines | pkg/provisioner/provisioner.go:408-422 | merging the bond patch puts each annotation and the volume name at its path and changes nothing else the model sees |
| HandoverSafety.MoveKeeps | pkg/provisioner/provisioner.go:231-544 | every move of every participant, with every fate of a call, keeps the invariant |
| HandoverSafety.ReachableInv | pkg/provisioner/provisioner.go:231-544 | the invariant holds in every reachable state of any number of runs |
| HandoverSafety.VolumeSafety | pkg/provisioner/provisioner.go:489-544 | a volume on Delete always refers to a claim not yet deleted, or to its own user's claim after the user deleted it; volumes vanish only then |
| HandoverSafety.NeverReclaimedWhileOwned | pkg/provisioner/provisioner.go:407-455 | the volume controller never may reclaim a volume whose user's claim lives |
| HandoverSafety.NoDoubleBinding | pkg/provisioner/provisioner.go:407-424 | no volume is named by user claims of two different names |
| HandoverSafety.SoleIsSafe | pkg/provisioner/provisioner.go:407-455 | in every run, the volume named by a living claim of unshared name is there and cannot be reclaimed |
| HandoverSafety.HandedOver | pkg/provisioner/provisioner.go:231-287 | the state after success under any interference: temporary claim deleted; for a class with reclaim policy Delete the volume on Delete with the full reference to the user's claim, for any other on Retain; user claim bonded |
| HandoverDetached.UnclaimedUnlessAttached | pkg/provisioner/provisioner.go:536-541 | in every run, from the detachment on, the volume is on Retain and refers to no claim until it is restored, unless the volume controller attached it |
| HandoverDetached.HandedOverUnattached | pkg/provisioner/provisioner.go:407-455 | the full state after success of every run in which nothing attached the volume: what HandedOver says, and for a class without Delete the volume on Retain with its claim reference cleared |
| HandoverCalls.CreatingStores | pkg/provisioner/provisioner.go:234-260 | the temporary claim stored: the class's name, and by annotation exactly the two provisioner annotations and the selected node, by pod none |
| HandoverCalls.StartingPodStores | pkg/provisioner/provisioner.go:312-355 | the pod stored: named after the temporary claim, on the chosen node, mounting that claim |
| HandoverCalls.StoppingPodStores | pkg/provisioner/provisioner.go:373-388 | the pod of the handle is gone, nothing else |
| HandoverCalls.RetainingStores | pkg/provisioner/provisioner.go:496-499 | the volume is on Retain, its claim reference as it was |
| HandoverCalls.UnprotectingStores | pkg/provisioner/provisioner.go:501-516 | the finalizers stored are those seen except the protection, in order and as often; a claim being deleted goes exactly when none was left |
| HandoverCalls.UnprotectingText | pkg/provisioner/provisioner.go:501-516 | the call a run makes there, as text, parsed and merged into any stored claim, does that |
| HandoverCalls.DeletingStores | pkg/provisioner/provisioner.go:518-534 | the temporary claim is marked or gone, only one without finalizers going at once |
| HandoverCalls.DetachingStores | pkg/provisioner/provisioner.go:536-541 | the claim reference is cleared, the policy as it was |
| HandoverCalls.BondingStores | pkg/provisioner/provisioner.go:408-424 | the user's claim names the volume and gets the four annotations, its others stay |
| HandoverCalls.RestoringStores | pkg/provisioner/provisioner.go:426-452 | policy Delete and the full reference to the user's claim, in one call |
| HandoverTraces.UndisturbedCompletes | pkg/provisioner/provisioner.go:231-405 | success is possible: from any reachable state in which an order can begin afresh there is a run, by either method, that completes, leaves no pod, bonds the claim and settles the volume |
| HandoverTraces.SafeIffSole | pkg/provisioner/provisioner.go:407-455 | a claim can rely in every run on the volume it names exactly when no other claim ever bears its name |
| HandoverTraces.RecreatedClaimLosesVolume | pkg/provisioner/provisioner.go:408-452 | a reachable state in which a recreated claim names a volume that may be reclaimed |
| ApiServers.ApiServer.Call | pkg/provisioner/provisioner.go:497 | a call of a run amid any moves of the others: the run advances as the machine says, the history stays a behaviour, the call and its answer are recorded |
| ApiServers.ApiServer.NextEvent | pkg/provisioner/provisioner.go:469-486 | what a watch event shows, and when the waiting run moves on |
| Provisioner.HybridProvisioner.constructor | pkg/provisioner/provisioner.go:78-114 | an unknown method becomes the default |
| Provisioner.HybridProvisioner.WaitBindPVC | pkg/provisioner/provisioner.go:457-487 | returns a claim shown bound by a modification, or fails when the watch ends |
| Provisioner.HybridProvisioner.EnsureTemp | pkg/provisioner/provisioner.go:256-266 | looks the temporary claim up and creates it exactly when it is not found |
| Provisioner.HybridProvisioner.StartPod | pkg/provisioner/provisioner.go:312-357 | creates the pod, and goes on with the handle of one already there |
| Provisioner.HybridProvisioner.StopPod | pkg/provisioner/provisioner.go:373-388 | up to five deletions, a missing pod counting as success; on success no such pod is left |
| Provisioner.HybridProvisioner.DeleteTemp | pkg/provisioner/provisioner.go:518-534 | up to five deletions, every error counting as failure; on success the deletion of the temporary claim was accepted |
| Provisioner.HybridProvisioner.ReleasePV | pkg/provisioner/provisioner.go:489-544 | sends Retain, the seen finalizers without the protection, up to five deletions and the cleared claim reference, in order, and succeeds exactly when all are answered well |
| Provisioner.HybridProvisioner.BondPVC | pkg/provisioner/provisioner.go:407-455 | sends the bond patch and, exactly for a class with reclaim policy Delete, the restoring patch |
| Provisioner.HybridProvisioner.CreatePVbyAnnotation | pkg/provisioner/provisioner.go:231-287 | carries out the script of a handover by annotation, or is broken off in it, under any interference |
| Provisioner.HybridProvisioner.CreatePVbyPOD | pkg/provisioner/provisioner.go:289-405 | the same by pod, started before the wait and deleted after it |
| Provisioner.HybridProvisioner.Provision | pkg/provisioner/provisioner.go:124-159 | each error with its state and no effect; otherwise the first class that qualifies is provisioned for by the configured method, to the end or broken off; on success the handover is complete as the class's reclaim policy wants it |
| Cordon.PatchSetsFlag | pkg/tools/nodes.go:53-76 | the two literal texts parse to patches that set the flag of any stored node and touch nothing else |
| Cordon.ChangedIs | pkg/tools/nodes.go:55-69 | the returned list is duplicate-free and holds exactly the listed nodes that were schedulable |
| Cordon.ChangedGrows | pkg/tools/nodes.go:55-69 | they are in the order of first mention |
| Cordon.RoundTrip | pkg/tools/nodes.go:51-86 | uncordoning the returned list restores every node's flag |
| Cordon.CondonNodes | pkg/tools/nodes.go:51-72 | on success all listed nodes are cordoned, no others touched, and the changed ones returned; on failure a first part of the list is; it fails exactly when a call does |
| Cordon.UncondonNodes | pkg/tools/nodes.go:75-86 | on success all listed nodes are schedulable, no others touched; on failure a first part of the list is; it fails exactly when a call does |
| Cordon.CordonAndUncordon | pkg/tools/nodes.go:51-86 | unless a call fails, the two calls in sequence leave the cluster's flags as they were |

## Left out

- ApiServers.ApiServer.NextEvent: time is not modelled; the watch may end at any moment, so nothing is said about when or whether a wait succeeds.
- Provisioner.HybridProvisioner.StopPod: after AlreadyExists the pod deleted is whatever handle the client library left in the variable, an arbitrary one here.
- Provisioner.HybridProvisioner.Provision: a nil selected node, on which `pkg/provisioner/provisioner.go:171` fails, is excluded by the type of the options; clearing the resource version of the returned volume is not modelled, nor is what the controller library does with the result.
- JsonText.LayoutRoundTrip: numbers and \u escapes are not part of the parser, because no patch contains them.
- Patches.BondPatchRefines: the bytes json.Marshal prints for a claim are reduced to the annotations and the volume name; empty members it also prints are not modelled.
- Cordon.CondonNodes: other writers of the flag between reading and patching a node are not modelled.
- Retries are not claimed to converge: a run may fail for good after its temporary claim is gone.
- Backoff delays, logging, resource requests, access modes, tolerations and the pod image.
- buildTopologyKeySelector, which wraps a library that is not part of this model.
- The CSI endpoints, the command-line programs, metrics, leader election and `pkg/tools/pv.go`, which would add only simple members.
