# Readproof: a verified model

Readproof records what an agent read. A client *resolves* a uri into an immutable
snapshot, *mounts* it into a run, and *commits* the run into a manifest; a manifest
*replays* to the same bytes, and one Merkle root commits to it. This project models
the code that carries that claim and proves it: the Merkle commitment, the stores
with the resolver and the run builder on top of them, evidence bundles, the two
UTF-8 truncators, the harness plugin that spreads a session over runs, the manifest
diff, and the reference syntax.

## How it is laid out

SHA-256 (section 6.2 of FIPS 180-4) is any function from byte strings to 32 bytes.
No theorem assumes it has no collisions: a binding theorem says "equal, or these
collide", and the collision is always between the two named strings or among the
strings hashed for the roots in question (`HashInputs`), never merely somewhere.

The stores are modelled twice. `Database` gives every store call as a function on a
record of tables; primary keys and unique indexes are those of
internal/storage/sqlite/migrations/0001_init.sql and 0002_tags.sql. `Clients` gives
a resolve, mount, commit, tag or registration as a sequence of single store calls
(`Step`), interleaves any number of them in any order (`Exec`), each free to fail or
stop anywhere, and also defines whole calls (`Call`, `CallAll`). `Stores` and
`Pipelines` give the same operations as the program has them, objects whose methods
overwrite tables, and tie each method to the step-by-step call, so what is proved of
the calls holds of the methods.

`Sessions` is the plugin's SessionRuns as a machine: promise chains, one step from
one await to the next, the server handling requests in between, replies that can be
lost, other writers on the same server. `SequentialRuns` is the object itself, for
calls answered with nothing in between, and shows that those are runs of the machine.

| file | content |
|---|---|
| ByteStrings, References | strings as bytes, hex, content hashes; uris, references, tag names |
| Merkle, MerkleProofs | leaf and root in Go and TypeScript; binding, perfect-tree refinement |
| Database, Clients | tables; operations as interleaved store calls |
| Invariants, Interleaving | what every store call keeps; replay safety over every run |
| Lifecycle, PartialCommit, WholeRun | runs under whole calls; commits cut in half; Builder.Run |
| LateMounts | when a mount is accepted, and whether a manifest lists it |
| Stores, Pipelines, Replay | the stores, the resolver, the builder and the replayer as methods |
| StoredReads, Fetches, Freshness | tags and pins; when the source is asked; allow_stale |
| Bundles, Verification, EvidenceProofs, OfflineDigests | evidence bundles: build, verify, what they prove |
| Utf8, Truncation | valid UTF-8; the two truncators and the payloads built on them |
| Diff | manifest comparison |
| Sessions, SessionOwnership, SessionFrames, SessionHistory, SessionCounts, SessionTargets, SessionCommit, SequentialRuns, SessionOutcomes | the harness plugin |

## What the proofs found

These are places where the code, or what its comments say of it, does not hold in
general. Each has a concrete witness and the condition under which it does hold.

- The leaf encoding is not injective as internal/merkle/merkle.go:25-28 says: it
  forgets the position modulo 2^32 and where a uri ends if the hash may contain
  zeros (`LeafPreimageNotInjective`; exactly when: `LeafPreimageEqual`). Verify never
  parses the hashes of a bundle, so two bundles with different entries can pass
  offline under one digest (`OfflineDigestNeedsValidHashes`). With valid hashes they
  cannot (`OfflineDigestBinds`); and with any hashes the digest of a passing bundle
  stands for its entries, among bundles of its length, exactly if no uri and no hash in
  it contains a zero byte (`StandsIffNoZeros`, `SameLengthRootsIff`).
- `Root` alone gives lists of different lengths one root (`DuplicateLastAmbiguity`):
  among lists of equal depth, exactly those that repeating last nodes makes equal
  (`EqualRootsIffPadded`).
- A commit whose last store call fails, after the manifest is written, leaves the run
  open for good (`StrandedReachable`, `StrandedForever`), and nothing else does: a run is
  stranded exactly if the call that was to mark it failed (`StrandedIff`); a commit that
  merely stops before that call leaves the run open as long as it stops
  (`OpenWithManifestIff`). A stranded run still accepts every mount that resolves, its
  manifest never lists them (`StrandedMountsAreLost`), and every later commit is refused
  (`CommitSucceedsIff`).
- A mount looks at the run once, before it resolves. One that a commit overtakes is
  acknowledged although the run is committed and no manifest lists it
  (`OvertakenMountIsLost`, `LostMountReachable`); an acknowledged mount is in the
  manifest exactly if it was acknowledged before the commit listed the mounts
  (`ListedIff`).
- Nothing checks that a pin belongs to its resource, so resolving one uri can deliver
  a snapshot of another (`OtherSnapshotDelivered`): exactly when an untagged reference
  names a resource pinned to a snapshot that is not its own (`DeliversItsResourceIff`).
- A maximum age between 0 and 1 second is stored as 0, which means no limit, so such a
  resource, once fetched, is never fetched again; and an age of 2^24 seconds or more can
  be stored a second laxer than asked, because seconds are taken as a float64
  (`LongAgesCanRoundUp`). The age asked for bounds what is reused exactly if it is at
  least a second and does not round up (`StoredLimit`, `RegisteredAgeHolds`).
- Go's trimming can drop more than 3 bytes, even all of them, when content declared as
  text is not valid UTF-8 (`GoDropsAtMostThree`, `GoDropsAllTails`), and what is handed
  out can then be invalid UTF-8 (`InvalidTextIsShown`): exactly when content that fits is
  invalid, or the bytes under the cap hold a sequence that ends past their longest valid
  prefix (`EncodedTextValidIff`, `GoTrimValidIff`). On valid content both truncators
  compute the longest valid prefix.
- Run ids of different sessions can coincide (`SessionsCollide`): exactly when the bases
  and epochs agree or one base reads like a later epoch of the other
  (`RunIdsEqualIff`). Ownership holds all the same, because the server starts an id once
  (`RunOwnership`).
- commitIfOwned can commit a different run than the one it was asked for
  (`CommitIfOwnedCommitsAnother`): it finds its target still open exactly if only mounts
  wait in the session's queue at the call and the session is not forgotten before its
  turn (`CommitsTargetIff`).

## Model

| member | source | states |
|---|---|---|
| ByteStrings.HexRoundTrip | internal/merkle/merkle.go:71-78 | Decoding the hex of any bytes gives those bytes back, so the digests `Root` decodes are the ones `Leaf` encoded. |
| ByteStrings.HexSpelling | internal/ids/ids.go:26-30 | Encoding spells every byte as two lower-case digits, the high half first. |
| ByteStrings.HexDecodeIff | internal/merkle/merkle.go:71-78 | Decoding gives exactly the bytes a string spells, in either case, and nothing for any other string. |
| ByteStrings.ParseContentHash | internal/ids/ids.go:49-64 | The loop accepts exactly the strings `sha256:` followed by 64 lower-case hex digits, and returns the digits. |
| ByteStrings.ContentHashSpelled | internal/ids/ids.go:13-18 | The hashes accepted, written out: `sha256:` and 64 of the digits 0 to 9 and a to f. |
| ByteStrings.ContentHashIsValid | internal/ids/ids.go:32-36 | Every hash `ContentHash` makes is one `ParseContentHash` accepts, and contains no zero byte. |
| ByteStrings.SameContentHash | internal/ids/ids.go:32-36 | Equal content hashes mean equal contents, or the two contents themselves collide. |
| Merkle.Leaf | internal/merkle/merkle.go:35-45 | Writing the fields one by one gives the hex of the hash of a string of 6 bytes more than uri and hash: the position modulo 2^32 with its high byte first, a zero, the uri, a zero, the hash. |
| Merkle.LeavesHashLayouts | internal/merkle/merkle.go:35-45 | Every leaf digest, in Go and in TypeScript, is the hash of the string laid out like that for its entry. |
| Merkle.ReduceLevels | internal/merkle/merkle.go:81-95 | The nested loops terminate and leave the one node the level-by-level definition of the root names. |
| Merkle.Root | internal/merkle/merkle.go:63-97 | Hash of nothing for no leaves; otherwise the tree root over the decoded leaves, a leaf that is not hex standing for itself. |
| Merkle.MerkleRootGo | internal/evidence/merkle.go:22-28 | Hex leaves put through `Root` give the root over the raw leaf digests. |
| Merkle.MerkleRootTs | sdk/typescript/src/evidence.ts:171-189 | The TypeScript loop over raw digests gives that same root. |
| Merkle.TwoExportersOneRoot | internal/merkle/merkle.go:70-79 | For every entry list the Go path and the TypeScript path agree, and the non-hex fallback is never taken on what `Leaf` produced. |
| MerkleProofs.LeafPreimageEqual | internal/merkle/merkle.go:35-45 | Two entries have the same leaf bytes if and only if their positions agree modulo 2^32 and uri, zero, hash concatenate to the same string. |
| MerkleProofs.LeafPreimageInjective | internal/merkle/merkle.go:25-28 | With positions below 2^32 and hashes free of zero bytes the leaf bytes determine the entry, even when the uri contains zeros. |
| MerkleProofs.LeafPreimageNotInjective | internal/merkle/merkle.go:25-28 | Witnesses that each of those two conditions is needed: distinct entries with equal leaf bytes. The comment in the source claims there are none. |
| MerkleProofs.SameLengthBinding | internal/merkle/merkle.go:81-95 | Levels of equal length and equal root are equal, or strings hashed on the way collide. |
| MerkleProofs.LeafIsNotNode | internal/merkle/merkle.go:35-95 | A leaf digest is never an inner node of another tree, because a leaf is hashed from at least 77 bytes and a node from 64. |
| MerkleProofs.RootBinding | internal/merkle/merkle.go:63-97 | Entry lists of any two lengths up to 2^32, with positions equal to indices and valid content hashes: equal roots mean equal lists, or two of the strings hashed for the two roots collide. |
| MerkleProofs.SameLengthRootsIff | internal/merkle/merkle.go:35-97 | With any hashes, valid or not: two lists of one length, positions equal to indices, have one root if and only if uri, zero, hash concatenate alike entry by entry, unless strings hashed for the two roots collide. |
| MerkleProofs.AnyChangeShows | internal/merkle/merkle.go:35-97 | Changing the uri or the hash of any one entry changes the root, or exhibits such a collision. |
| MerkleProofs.DuplicateLastAmbiguity | internal/merkle/merkle.go:58-61 | `Root` alone does confuse a list with the one that repeats its last leaf, whatever the hash; it is the position in the leaf that rules this out. |
| MerkleProofs.LoopIsPerfectTree | internal/merkle/merkle.go:81-96 | The loop computes the root of the perfect binary tree over the leaves extended, by repeating last nodes, to a power of two. |
| MerkleProofs.RootInFull | internal/merkle/merkle.go:35-97 | The root in full: the hash of nothing for no entries, otherwise the perfect tree over the padded hashes of the strings laid out for the entries, in hex. |
| MerkleProofs.EqualRootsIffPadded | internal/merkle/merkle.go:58-96 | What `Root` alone confuses: lists of arbitrary 32-byte leaves and equal depth have one root if and only if repeating last nodes makes them the same padded list, unless node inputs collide. |
| MerkleProofs.DepthBounds | internal/merkle/merkle.go:81-96 | The number of rounds is the least k with 2^k leaves or more. |
| References.ParsedString | internal/resource/resource.go:31-45 | `ParseURI` inverts `String` exactly for a non-empty namespace and path with no slash in the namespace and no `@` anywhere. |
| References.ParseURIIff | internal/resource/resource.go:31-45 | Accepted exactly: `readproof://`, a namespace, a slash and a path, neither empty, no `@`, the first slash being that one; and it is taken apart there. |
| References.StringOfParsed | internal/resource/resource.go:75-77 | `String` gives back the very text `ParseURI` accepted. |
| References.ReferenceRoundTrip | internal/mcp/types.go:319-327 | Splitting `uri@name` gives back uri and name, for every accepted uri and valid tag name. |
| References.ReferenceRebuilt | internal/resource/resource.go:55-73 | Every accepted reference has an accepted uri and is rebuilt by joining its parts. |
| References.SplitRefIff | internal/resource/resource.go:55-73 | Accepted exactly: an accepted uri, or one followed by `@` and a non-empty name without `@`; and the parts are those. |
| References.ValidNameIff | internal/tag/tag.go:38-53 | A tag name is 1 to 64 letters, digits, dots, underscores and dashes and begins with a letter or digit. |
| Database.IdsSpelled | internal/ids/ids.go:20-24 | Ids are the prefix of their kind, an underscore and the ULID. |
| References.SplitRefInjective | internal/resource/resource.go:55-73 | Two references that split alike are the same string. |
| Stores.Store.PutBlob | internal/storage/blob/blob.go:46-68 | Bytes go in under their digest unless something is there already; the hash is returned; everything stored stays, and a consistent store stays consistent. |
| Stores.Store.CreateResource | internal/storage/sqlite/resources.go:26-78 | A new resource with no current snapshot and its maximum age kept in whole seconds, or a refusal; nothing stored before changes either way. |
| Stores.Store.UpdateCurrentSnapshot | internal/storage/sqlite/resources.go:159-176 | Moves one resource's pointer, or refuses an unknown uri; no policy and nothing stored changes. |
| Stores.Store.CreateSnapshot | internal/storage/sqlite/snapshots.go:26-42 | Adds one row, refused if the id exists; every row there before stays as it was. |
| Stores.Store.CreateMaterialization | internal/storage/sqlite/materializations.go:21-32 | Adds one row and its index entry, refused if the id or the snapshot has one already; every row there before stays as it was. |
| Stores.Store.StartRun | internal/storage/sqlite/runs.go:25-35 | Adds an open run without mounts, or refuses an existing id; if runs and mount lists go together they still do, and every run, mount and manifest stays as it was. |
| Stores.Store.AppendMount | internal/storage/sqlite/runs.go:64-74 | Adds one row at its place by position, refused if the position is taken; a list that is dense stays so, and is only appended to, when the position is at most its length. |
| Stores.Store.MarkCommitted | internal/storage/sqlite/runs.go:96-106 | Closes the run with its manifest id and changes no other row; only marking a committed run with a different manifest would overwrite anything. |
| Stores.Store.CreateManifest | internal/storage/sqlite/manifests.go:25-49 | The loop over entry rows stores the manifest whole or, if any row is refused, nothing at all; no manifest there before changes. |
| Stores.Store.SetTag | internal/storage/sqlite/tags.go:29-59 | Refusals in the order of the source, then one tag set: the outcome of the step-by-step call. |
| Stores.Store.DeleteTag | internal/storage/sqlite/tags.go:93-106 | Removes exactly that tag, or reports it missing. |
| Pipelines.Resolver.ResolveRef | internal/resolver/resolver.go:80-332 | A uri that does not parse is refused first; otherwise the method leaves the tables and the result that the step-by-step resolve reaches when nothing comes in between, whatever the resolve is for. |
| Pipelines.Resolver.ByPolicy | internal/resolver/resolver.go:137-269 | The switch on the decision does what the steps after policy evaluation do. |
| Pipelines.Resolver.ResolveTagged | internal/resolver/resolver.go:373-426 | Name check, tag, snapshot and bytes, in that order and with those errors. |
| Pipelines.Resolver.Record | internal/resolver/resolver.go:229-261 | Snapshot row, then current pointer, with either refusal ending the call. |
| Pipelines.Resolver.Materialize | internal/resolver/resolver.go:271-317 | Get or create: one materialization a snapshot. |
| Pipelines.Builder.Start | internal/run/run.go:90-101 | Start as a method on the store is the step-by-step start. |
| Pipelines.Builder.Mount | internal/run/run.go:112-190 | Mount as a method is the step-by-step mount: run check first, resolve, next position, row. |
| Pipelines.Builder.Commit | internal/run/run.go:205-269 | Commit as a method, with its loop over mounts, is the step-by-step commit. |
| Pipelines.Builder.Run | internal/run/run.go:282-292 | The loop is start, the mounts in order and commit, stopping at the first error. |
| Invariants.StepKeeps | internal/resolver/resolver.go:205-317 | Every single store call of every operation keeps the tables referentially closed, only extends them, and leaves its caller knowing what it may rely on. |
| Invariants.ClientOkStable | internal/run/run.go:134-181 | Nothing another call writes can invalidate what a call in progress relies on. |
| Invariants.AppendMountOk | internal/run/run.go:156-178 | A mount row at the position counted earlier either lands at the end of the list or is refused; positions stay 0, 1, 2, ... |
| Invariants.CreateManifestOk | internal/storage/sqlite/manifests.go:25-49 | Writing a manifest keeps one manifest a run and every manifest a prefix of its run's mounts. |
| Interleaving.ExecKeeps | internal/run/run.go:112-269 | Over every run of any number of interleaved calls, each free to fail or stop anywhere, the tables stay closed and only grow. |
| Interleaving.ReplaySafety | internal/replay/replay.go:51-79 | However calls interleave, every manifest present in a reachable state replays without error and every entry matches. |
| Interleaving.ReplayStable | internal/replay/replay.go:41-44 | A manifest replays to the same result in every later state, whatever happens to sources and tags. |
| Interleaving.DeliveredIsReplayed | internal/replay/replay.go:63-76 | The bytes a mount handed out are the bytes its manifest entry replays in every later state, or the two are a collision that deduplication merged. |
| Interleaving.ManifestIsPrefixOfMounts | internal/storage/sqlite/runs.go:64-94 | Even with racing mounts and commits: dense positions, manifest a prefix of the mounts, one manifest a run. |
| Interleaving.PointersNameOwnSnapshots | internal/storage/sqlite/tags.go:26-59 | Every tag and every current pointer names a stored snapshot of its own resource whose bytes are there. |
| Replay.ReplayManifest | internal/replay/replay.go:51-79 | The loop replays entry by entry and fails with the error of the first entry that cannot be read. |
| Replay.ReplayMeans | internal/replay/replay.go:51-79 | Whatever the tables hold: the manifest named by its id or else by its run, each entry with the bytes of its materialization, their hash and whether it is the recorded one; or the error of the first entry that cannot be read. |
| Replay.AllMatchLoop | internal/replay/replay.go:32-39 | True exactly when every entry matches. |
| Lifecycle.RunLifecycle | internal/run/run.go:192-269 | After any whole calls a run is committed if and only if a manifest carries its id; that manifest is unique, recorded on the run, lists all its mounts at 0, 1, 2, ..., and is what the run id looks up unless the run id is some manifest's id. |
| Lifecycle.CommittedRunFrozen | internal/run/run.go:147-150 | Once committed, the run, its mounts and its manifest never change. |
| Lifecycle.CallAllIsExec | internal/run/run.go:112-269 | Whole calls in sequence are one of the interleaved runs, so every safety result holds of them too. |
| PartialCommit.CommitSucceedsIff | internal/run/run.go:205-269 | An uninterrupted commit succeeds if and only if the run is open and no manifest carries its id, and then records all its mounts under a new id at this time; otherwise it changes nothing and says why. |
| PartialCommit.StrandedIff | internal/run/run.go:253-261 | In every history of interleaved, failing and stopping calls a run is stranded if and only if some commit's last store call, the one that marks this very run, was made and failed. |
| PartialCommit.OpenWithManifestIff | internal/run/run.go:253-261 | So a run with a manifest is open if and only if a commit is still about to mark it or its mark failed, and never both; what fails elsewhere does not matter. |
| PartialCommit.StrandedForever | internal/run/run.go:253-261 | A run that has its manifest, is open and has no commit about to mark it stays so, and no later call can close it. |
| PartialCommit.StrandedReachable | internal/run/run.go:253-261 | A concrete run of calls that reaches that state. |
| WholeRun.MountEffect | internal/run/run.go:152-189 | A mount into an open run adds one row, for the reference it was given, or none. |
| WholeRun.StartEffect | internal/run/run.go:90-101 | A start is refused exactly if the id is taken, and otherwise adds an open run without mounts and nothing else. |
| WholeRun.RunRecordsWhatItRead | internal/run/run.go:282-292 | A run that succeeds has a manifest listing every uri it was given, in order, that replays; one that fails changed nothing or is left open without a manifest. |
| WholeRun.RunStopsAtFirst | internal/run/run.go:282-292 | A run makes its calls in order, start, mounts, commit, up to the first that fails and no further, and returns what the last one made returned. |
| LateMounts.MountAcceptedIff | internal/run/run.go:134-189 | A malformed reference, an unknown run and a committed run are refused in that order and change nothing; otherwise a mount is accepted if and only if its resolve succeeds, delivers what that delivers, and adds the row with its uri, tag, snapshot, materialization and hash at the next position. |
| LateMounts.StrandedMountsAreLost | internal/run/run.go:253-261 | After anything that follows, a stranded run still accepts exactly the mounts that resolve, and every manifest of it is one it has now, with the entries it has now. |
| LateMounts.ListedIff | internal/run/run.go:231-246 | Under every interleaving, a mount that was acknowledged is in the manifest a commit returns if and only if it had been acknowledged when that commit listed the mounts. |
| LateMounts.OvertakenMountIsLost | internal/run/run.go:134-181 | From every state with an open run without a manifest: a commit between the mount's look at the run and its resolve leaves the mount acknowledged, the run committed and no manifest listing the mount. |
| LateMounts.LostMountReachable | internal/run/run.go:134-181 | So it happens from the empty store: a concrete run of four calls. |
| StoredReads.TaggedResolve | internal/resolver/resolver.go:127-135 | A tagged resolve fails exactly when resource, name or tag is missing or malformed; otherwise it delivers the tagged snapshot of that resource, its stored bytes and its one materialization, which is created if there is none; nothing else changes. |
| StoredReads.PinnedResolve | internal/resolver/resolver.go:163-185 | A pinned resource delivers its pin whatever the source holds, or fails because there is no such snapshot. |
| StoredReads.TagIsStable | internal/resolver/resolver.go:370-378 | Two resolves of a tag that was not moved deliver the same snapshot and bytes, whatever ran in between. |
| StoredReads.SetTagEffect | internal/storage/sqlite/tags.go:29-59 | Setting succeeds exactly for a valid name and a snapshot of that very resource, and changes that tag alone. |
| StoredReads.RemoveTagEffect | internal/storage/sqlite/tags.go:93-106 | Removing deletes exactly that tag, or reports that there is none. |
| StoredReads.TagRoundTrip | internal/storage/sqlite/tags.go:29-106 | What was tagged is what `uri@name` delivers; after removal `uri@name` is refused. |
| Freshness.AgeIsBounded | internal/policy/policy.go:60-67 | An untagged resolve or mount under allow_stale with maximum age M delivers a snapshot at most M old, whatever the tables hold. |
| Freshness.CallObserves | internal/resolver/resolver.go:205-267 | A whole call records at most one observation, only when the policy asked for a fetch, at the call's own time, and makes it current. |
| Freshness.ObservationsAreApart | internal/resolver/resolver.go:120-151 | At nondecreasing times any two observations of such a resource are more than M apart. |
| Fetches.OverlappingFetches | internal/resolver/resolver.go:120-267 | Calls that overlap are not spaced: two resolves that both find the resource due observe it at whatever two times they are given. |
| Freshness.WindowBound | internal/resolver/resolver.go:238-255 | A window of width W holds at most W / (M + 1) + 1 observations. |
| Freshness.StoredLimit | internal/storage/sqlite/resources.go:54-57 | A positive maximum age is stored in whole seconds: as no limit if and only if it is below one second, and as the next second if and only if its seconds, taken in float64, round up; the rest of the policy is kept. |
| Freshness.ShortAgesAreCut | internal/storage/sqlite/resources.go:54-57 | Below 2^24 seconds the fraction is always cut off. |
| Freshness.LongAgesCanRoundUp | internal/storage/sqlite/resources.go:54-57 | Above, it is not: 16777216999999999 ns is stored as 16777217 s. |
| Freshness.RegisteredAgeHolds | internal/storage/sqlite/resources.go:54-57 | So the age asked for at registration bounds what is reused if and only if it is a second or more and does not round up. |
| Fetches.DueIff | internal/policy/policy.go:54-71 | The source is asked exactly unless the resource is pinned or allows a stale read of a current snapshot that has no age limit or is within it. |
| Fetches.RegisterEffect | internal/storage/sqlite/resources.go:26-78 | A registration is refused exactly for an unknown strategy or a uri that is taken, and otherwise adds a resource never observed, with the stored policy. |
| Fetches.DueResolveFetches | internal/resolver/resolver.go:205-267 | Then the bytes fetched are delivered, stored, recorded as an observation at this time and made current, and nothing else changes; if the source fails nothing does. |
| Fetches.ReuseResolve | internal/resolver/resolver.go:187-203 | Otherwise the current snapshot of the resource and its stored bytes are delivered, whatever the source holds by now. |
| Fetches.DeliversItsResourceIff | internal/resolver/resolver.go:163-185 | A resolve that succeeds delivers a snapshot of the resource asked for if and only if the reference carries a tag or the resource is not pinned to a snapshot of another one: nothing checks whose snapshot a pin is. |
| Fetches.OtherSnapshotDelivered | internal/resolver/resolver.go:163-185 | Concrete calls after which resolving one resource delivers the bytes of another. |
| Bundles.ComputeRoot | internal/evidence/merkle.go:22-28 | The loop over bundle entries gives the Merkle root of their leaves. |
| Bundles.BuildEntries | internal/evidence/build.go:89-128 | One bundle entry per manifest entry, field by field: its own fields, what its snapshot says of its source and, if asked, the encoding of its replayed bytes; refused exactly if a snapshot is missing. |
| Bundles.BuildResources | internal/evidence/build.go:140-170 | The uris in the order of their first entries, each once, with the policy registered for it or none. |
| Bundles.ResourcesAreOnceEach | internal/evidence/build.go:140-170 | Every uri of the manifest is listed exactly once, and no other. |
| Bundles.BuildReplay | internal/evidence/build.go:219-242 | A row for every result with its position, verdict, recorded and replayed hash; all_match only if every row matches and none is missing. |
| Bundles.Build | internal/evidence/build.go:40-87 | The method is its specification: lookup, replay, entries, resources, root. |
| Bundles.BuildMeans | internal/evidence/build.go:40-87 | Whatever the tables hold: the bundle of the manifest named, every field of every entry from the manifest, its snapshot and its replay, the definitions of its uris where they come first, a row for every replayed entry, and the root over the entries; or the reason there is none. |
| Bundles.ByPositionIff | internal/evidence/build.go:55-58 | The index of a replay holds the last result for each position. |
| Verification.Report.Add | internal/evidence/verify.go:45-50 | A check is appended and the verdict is the conjunction of all checks so far. |
| Verification.VerifyMerkle | internal/evidence/verify.go:94-121 | The checks appended, including that no digest is compared unless there is exactly one subject. |
| Verification.VerifyEntryOrder | internal/evidence/verify.go:126-134 | One check, passed exactly when positions are 0 .. n-1. |
| Verification.VerifyEmbeddedContent | internal/evidence/verify.go:136-154 | A check for every entry with content, passed when it decodes and hashes to the recorded hash; entries without content are skipped. |
| Verification.VerifyAgainstStore | internal/evidence/verify.go:160-206 | The checks appended from a replay of the manifest id, or of the run id when the manifest id is empty, and the number matched. |
| Verification.Verify | internal/evidence/verify.go:58-73 | The report holds exactly those checks, counts and root, and its verdict agrees with them. |
| Verification.VerifyMeaning | internal/evidence/verify.go:58-206 | The report is OK if and only if the bundle is consistent with itself and, given a client, the store replays the manifest it names to the same hashes. |
| Verification.ChecksMean | internal/evidence/verify.go:58-206 | Check by check: a report holds exactly the checks that belong in it, each under its name and with the verdict of its own fact: type, subject, the two roots, order, each embedded content, each entry against the last result at its position, the count. |
| Verification.ReportCounts | internal/evidence/verify.go:34-43 | How many checks there are and how they begin; content_checked counts the entries whose content decodes, replay_matched those the store confirms. |
| EvidenceProofs.BuildExports | internal/evidence/build.go:40-87 | Build succeeds for every manifest of a consistent store, by manifest id or run id; every entry carries the manifest's and the snapshot's fields and, if asked, the bytes stored under its hash; every replay row matches; and the root is the one computed at commit. |
| EvidenceProofs.BuiltBundleVerifies | internal/evidence/verify.go:58-206 | What Build exports passes Verify offline and against every later store. |
| EvidenceProofs.RebuildIsTheSame | internal/evidence/build.go:40-87 | Building again later always succeeds. It exports the same manifest if and only if the target was a manifest's id already or has not become one; then entries, root, subject and replay record are the same, and the resource definitions if and only if no resource of the manifest was registered in between. |
| EvidenceProofs.EvidenceOfEveryRun | internal/evidence/build.go:40-87 | In every interleaved run every manifest present exports with its commit root, and the export keeps passing whatever follows. |
| EvidenceProofs.VerifyAgainstStoreMeaning | internal/evidence/verify.go:160-206 | With a client, OK if and only if the bundle is consistent and has, at positions 0 .. n-1, exactly the hashes of the manifest the store has under its id. |
| EvidenceProofs.VerifiedDigestBinds | internal/evidence/verify.go:94-134 | If its digest is also the commit root, the whole (position, uri, hash) list is the committed one, or strings hashed for the two roots collide. |
| EvidenceProofs.UrisAreNotCompared | internal/evidence/verify.go:186-199 | Consistent bundles that differ only in uris pass or fail the store check alike. |
| OfflineDigests.OfflineDigestBinds | internal/evidence/verify.go:94-134 | Offline, one digest stands for one entry list, of whatever length, among bundles whose hashes are valid content hashes. |
| OfflineDigests.OfflineDigestNeedsValidHashes | internal/evidence/verify.go:126-154 | Without that condition it does not: two bundles with different entries that pass offline under one digest, for every hash function. |
| OfflineDigests.StandsIffNoZeros | internal/evidence/verify.go:94-154 | A bundle that passes offline, with strings that do not collide, is the only one of its length to pass under its subject, but for collisions, if and only if no uri and no hash in it contains a zero byte. |
| Utf8.PrefixIsValid | internal/mcp/content.go:151-161 | A prefix of valid UTF-8 is valid if and only if it is empty or ends in a whole sequence. |
| Utf8.RuneLengthIff | internal/mcp/content.go:151-161 | What counts as a sequence is exactly the shortest encoding of a code point that is no surrogate (section 3 of RFC 3629). |
| Utf8.ValidIff | internal/mcp/content.go:111-113 | Valid strings are exactly the encodings of lists of code points. |
| Utf8.FloorIsLongest | internal/mcp/content.go:111-113 | The reference cut is the longest valid prefix within the cap. |
| Utf8.FloorIsClose | internal/mcp/content.go:151-152 | It falls at most 3 bytes below the cap when the content is valid. |
| Truncation.DecodeLastRune | internal/mcp/content.go:155 | Scanning back for a lead byte and decoding forward succeeds exactly when the bytes end in a whole sequence. |
| Truncation.TrimToRuneBoundaryGo | internal/mcp/content.go:153-161 | The loop drops last bytes until the rest is empty or ends in a whole sequence. |
| Truncation.TrimToRuneBoundaryTs | integrations/deepseek-harness/dsh-plugin-readproof/src/content.ts:78-92 | The walk stops at most four bytes back and never drops more than 3 bytes, valid content or not. |
| Truncation.GoTrimIsFloor | internal/mcp/content.go:153-161 | On valid content the Go cut is the longest valid prefix. |
| Truncation.TsCutIsFloor | integrations/deepseek-harness/dsh-plugin-readproof/src/content.ts:78-101 | On valid content the TypeScript cut is the longest valid prefix. |
| Truncation.Encode | internal/mcp/content.go:114-140 | Text if and only if the type says text, or says nothing and the content is valid UTF-8 without a zero byte; whole when it fits, otherwise cut, text after the last whole sequence and with the marker, blobs at the cap; truncated and total say so. |
| Truncation.EncodeContent | integrations/deepseek-harness/dsh-plugin-readproof/src/content.ts:40-57 | The same payload as Go for the same valid text and every cap, including caps of zero and below. |
| Truncation.ShownText | internal/mcp/content.go:111-113 | What is shown of valid text is valid, a prefix, within the cap, at most 3 bytes short of it, and the longest such. |
| Truncation.GoDropsAtMostThree | internal/mcp/content.go:151-152 | Go drops at most 3 bytes if and only if there are no more than 3 or a whole sequence ends within 3 bytes of the cut. The comment claims it always. |
| Truncation.GoDropsAllTails | internal/mcp/content.go:151-161 | Otherwise the loss is unbounded: a string of continuation bytes is dropped entirely. |
| Truncation.GoTrimValidIff | internal/mcp/content.go:111-113 | What Go keeps of any bytes is valid UTF-8 if and only if, beyond their longest valid prefix, no prefix of them ends in a whole sequence; and then it is that prefix. |
| Truncation.EncodedTextValidIff | internal/mcp/content.go:111-140 | For any content declared as text, under every cap: the text handed out is valid UTF-8 if and only if the content is valid, when it fits, or its first bytes meet that condition, when it is cut. |
| Truncation.ValidContentShowsValid | internal/mcp/content.go:111-113 | Valid content meets the condition under every cap. |
| Truncation.InvalidTextIsShown | internal/mcp/content.go:111-113 | Three bytes declared as text and capped at two are handed out as invalid UTF-8. The comment claims that never happens. |
| Diff.UnionUris | internal/diff/diff.go:171-185 | The uris of either side, each once, in increasing byte order. |
| Diff.IncreasingUnique | internal/diff/diff.go:183 | There is only one such list. |
| Diff.LessIff | internal/diff/diff.go:183 | The order is byte-wise: a proper beginning first, otherwise the first difference decides. |
| Diff.LastEntry | internal/diff/diff.go:163-169 | The index holds the last entry for each uri. |
| Diff.Compute | internal/diff/diff.go:81-139 | The loops compare exactly that list, uri by uri, stopping at the first error. |
| Diff.DiffIsPartition | internal/diff/diff.go:81-139 | Each uri of either manifest exactly once, in order; status, provenance and text of every row agree with the last entry for its uri on each side. |
| Diff.DiffFails | internal/diff/diff.go:87-123 | A diff that fails reports the first uri, in order, for which a snapshot or a content cannot be read, and which of them. |
| Diff.DiffSwaps | internal/diff/diff.go:107-137 | Swapping the manifests succeeds or fails alike, swaps added with removed and keeps the rest, row by row and in the counts. |
| Diff.Counts | internal/diff/diff.go:60-74 | The four counters are the numbers of rows of each status and add up to all rows. |
| Diff.CountIs | internal/diff/diff.go:60-74 | Each counter is the number of rows of its status. |
| Diff.CommittedManifestsDiff | internal/diff/diff.go:81-139 | A diff of two manifests of a consistent store never fails. |
| SessionOwnership.EpochsDiffer | integrations/deepseek-harness/dsh-plugin-readproof/src/session-runs.ts:122 | One session never uses one run id for two epochs. |
| SessionOwnership.SessionsCollide | integrations/deepseek-harness/dsh-plugin-readproof/src/session-runs.ts:160-163 | Different sessions can share run ids: by sanitizing, by cutting at 96 units, by the empty name, or because one session's id reads like another's epoch. |
| SessionOwnership.RunIdsEqualIff | integrations/deepseek-harness/dsh-plugin-readproof/src/session-runs.ts:119-163 | Two run ids are equal if and only if the epochs and the bases are, or one is a first epoch whose base is the other's base, a dash and its later epoch in decimal: two later epochs never mix. |
| SessionOutcomes.RunIdBaseSpelled | integrations/deepseek-harness/dsh-plugin-readproof/src/session-runs.ts:160-163 | `dsh-` and the first 96 units of the session id, letters, digits, dots, underscores and dashes kept and all others a dash; `dsh-session` for the empty id. |
| SessionOutcomes.RunIdSpelled | integrations/deepseek-harness/dsh-plugin-readproof/src/session-runs.ts:122 | The first epoch is the base, a later one the base, a dash and the epoch. |
| SessionOutcomes.DecimalSpelled | integrations/deepseek-harness/dsh-plugin-readproof/src/session-runs.ts:122 | Epochs are written in decimal without leading zeros. |
| SessionFrames.NextUntouched | integrations/deepseek-harness/dsh-plugin-readproof/src/session-runs.ts:138-153 | An action that is not the session's own leaves its runs, its queue and its results alone. |
| SessionFrames.NextSameMounts | integrations/deepseek-harness/dsh-plugin-readproof/src/session-runs.ts:52-59 | And, unless another writer mounts into them, the mounts of its runs on the server: other sessions only ever write to their own. |
| SessionOwnership.NextKeeps | integrations/deepseek-harness/dsh-plugin-readproof/src/session-runs.ts:48-137 | Every step, of any session, of the server, of other writers or a forget, keeps held ids distinct and pending starts unclaimed. |
| SessionOwnership.RunOwnership | integrations/deepseek-harness/dsh-plugin-readproof/src/session-runs.ts:115-137 | In every reachable state each run id ever obtained is held by one session in one epoch, is that session's id for that epoch, and exists. |
| SessionOwnership.OneOwner | integrations/deepseek-harness/dsh-plugin-readproof/src/session-runs.ts:91-96 | So the loop in commitIfOwned finds at most one session. |
| SessionOwnership.OpenOutcome | integrations/deepseek-harness/dsh-plugin-readproof/src/session-runs.ts:115-137 | An open ends holding an id of its 16-epoch window that nobody held, tries the next, or fails; with honest refusals it fails only on an error or when all 16 ids exist. |
| SessionHistory.SessionRunsAreItsMounts | integrations/deepseek-harness/dsh-plugin-readproof/src/session-runs.ts:52-83 | A session's runs laid end to end, numbered from 0 in each, are its mounts that returned, in the order they were asked for, then at most one whose reply is on its way; epochs increase. Whatever becomes of other sessions: forgets, lost replies, outside mounts. |
| SessionHistory.ResultsAreInOrder | integrations/deepseek-harness/dsh-plugin-readproof/src/session-runs.ts:143-153 | Results come back in the order of the requests and epochs increase as long as the session itself is not forgotten, replies lost and outside mounts included. |
| SessionHistory.NextBalanced | integrations/deepseek-harness/dsh-plugin-readproof/src/session-runs.ts:143-153 | Every step but a forget of the session, a lost mount reply of its own or an outside mount into its runs keeps that balance. |
| SessionHistory.NextOrderly | integrations/deepseek-harness/dsh-plugin-readproof/src/session-runs.ts:143-153 | Every step but a forget of the session itself keeps one chain to the session, its current run the last, and results and queue in the order of the requests. |
| SessionHistory.HistoryMount | integrations/deepseek-harness/dsh-plugin-readproof/src/session-runs.ts:52-59 | A mount into a session's latest run extends that session's history by its row, because no other session holds that run. |
| SessionCommit.LostReplyBreaks | integrations/deepseek-harness/dsh-plugin-readproof/src/session-runs.ts:55-57 | A concrete run in which a lost reply leaves a mount on the server that the session does not know of. |
| SessionCommit.OutsideMountBreaks | integrations/deepseek-harness/dsh-plugin-readproof/src/session-runs.ts:52-59 | A concrete run in which another writer's mount ends up in the session's run. |
| SessionCommit.ForgetBreaks | integrations/deepseek-harness/dsh-plugin-readproof/src/session-runs.ts:109-113 | A concrete run in which forgetting the session while a mount is under way lets its next mount overtake, so that results and runs disagree. |
| SessionCounts.CommitsWhatWasRead | integrations/deepseek-harness/dsh-plugin-readproof/src/session-runs.ts:75-83 | When a commit's turn comes the open run is closed, and a commit is requested exactly when the server has recorded mounts in it, whatever becomes of other sessions. |
| SessionTargets.CommitsTargetIff | integrations/deepseek-harness/dsh-plugin-readproof/src/session-runs.ts:75-96 | For a session not forgotten before the call: a commitIfOwned of its open run, when its turn comes however much later, finds that run open if and only if no commit was queued before it and the session was not forgotten since; it then commits it unless it has no entries. |
| SessionCommit.CommitIfOwnedCommitsAnother | integrations/deepseek-harness/dsh-plugin-readproof/src/session-runs.ts:91-96 | Behind a queued commit and mount it commits the next epoch's run instead: a concrete run. |
| SequentialRuns.SessionRuns.FindUnused | integrations/deepseek-harness/dsh-plugin-readproof/src/session-runs.ts:119-137 | The probing loop returns the first epoch of the window the server would start. |
| SequentialRuns.SessionRuns.Open | integrations/deepseek-harness/dsh-plugin-readproof/src/session-runs.ts:115-137 | Reuses an open run, otherwise probes and installs a new state. |
| SequentialRuns.SessionRuns.Mount | integrations/deepseek-harness/dsh-plugin-readproof/src/session-runs.ts:52-59 | Open, mount, remember the number of entries: new server, new states, result. |
| SequentialRuns.SessionRuns.Commit | integrations/deepseek-harness/dsh-plugin-readproof/src/session-runs.ts:75-83 | Closes the state first, then requests a commit unless the run is empty. |
| SessionOutcomes.ProbeMeans | integrations/deepseek-harness/dsh-plugin-readproof/src/session-runs.ts:119-137 | Probing starts the first id of its 16 epochs that is not turned down, and finds none exactly if all are or a request fails first. |
| SessionOutcomes.MountOutcome | integrations/deepseek-harness/dsh-plugin-readproof/src/session-runs.ts:52-59 | A mount goes into the open run, or the one that probing from the next epoch starts; it returns that run and the position recorded, remembers one entry more, and nothing if the request or its reply is lost. |
| SessionOutcomes.CommitOutcome | integrations/deepseek-harness/dsh-plugin-readproof/src/session-runs.ts:75-83 | A commit closes the open run, asks the server for it exactly if entries were recorded, and it is committed exactly if the request arrives. |
| SessionOutcomes.CommittedIsFrozen | integrations/deepseek-harness/dsh-plugin-readproof/src/session-runs.ts:52-83 | A run committed on the server keeps its mounts whatever sessions and other writers do. |
| SequentialRuns.MountIsRun | integrations/deepseek-harness/dsh-plugin-readproof/src/session-runs.ts:52-59 | A mount answered with nothing in between is a run of the concurrent machine with the same server, states and result. |
| SequentialRuns.CommitIsRun | integrations/deepseek-harness/dsh-plugin-readproof/src/session-runs.ts:75-83 | So is a commit. |

## Left out

- Freshness.ObservationsAreApart: for whole calls, because overlapping fetches can observe as close together as one likes (Fetches.OverlappingFetches). The bound on age does not need this.
- Lifecycle.RunLifecycle: for whole calls that are not cut off inside; what a cut-off commit leaves is in PartialCommit.
- EvidenceProofs.BuildExports: Build's reads see one state of the store. Each of them answers the same in every later state, so reads at different moments give the same entries.
- SessionHistory.SessionRunsAreItsMounts: assumes that the session itself is not forgotten, that no reply to one of its mounts is lost, and that nobody else mounts into its runs; SessionCommit has a run for each of the three that breaks the equality without it. Other sessions are free.
- SessionTargets.CommitsTargetIff: assumes that the session was not forgotten before the call. Operations left over from before a forget run beside the new queue (SessionCommit.ForgetBreaks), so the queue at the call would not tell what is ahead.
- SequentialRuns.SessionRuns.Mount: each await is answered before anything else happens; overlapping operations are in Sessions.
- Stores.Store.SetTag: no outage happens inside; a failing store call is a failing step in Clients.
- Stores.Store.CreateResource: one row stands for the source, policy and resource rows of one transaction; refusals by the keys of the first two tables and by an unknown kind of source are not modelled, nor is what the source row holds.
- Bundles.BuildResources: the namespace and path, which are parts of the uri, and the redacted source configuration are not in the model's rows; an error other than a missing resource, which only an outage can cause, is left out.
- Bundles.Build: without the source definitions and the constant exporter and formula fields.
- Verification.VerifyEmbeddedContent: base64 is any encoding with a decoder that inverts it and encodes only the empty string as empty (section 4 of RFC 4648).
- Truncation.Encode: the content type is reduced to text, unknown or other; the tables of media types and the wording of the truncation marker are parameters.
- Foreign keys: not modelled; the invariants show that none would ever refuse a row.
- Fetchers for GitHub, HTTP and the filesystem: a fetch is whatever the world supplies, or a failure.
- Ids: a prefix and a supplied ULID; where freshness matters it is a hypothesis, elsewhere a repeated id is a refused insert.
- Clocks: integers supplied to each call. Of the float arithmetic of time.Duration.Seconds only the rounding of whole seconds plus fraction is modelled, for the age limit that is stored.
- The inside of LocalStore.Put and of the S3 store: one atomic step, so two writers sharing a temporary file are not described.
- The Postgres stores: same statements, modelled once.
- Migrate and splitStatements, whose states no other part depends on.
- JSON encoding, redaction of headers and source configuration, payload projections of internal/wire.
- buildEvidence of the TypeScript SDK beyond its Merkle root: the same projections as Build.
- The text of a unified diff: a parameter of the diff.
- SessionRuns.commitAll, a series of commits, and embeddedContentBytes, a sum.
- Telemetry, the command line, HTTP handlers and MCP registration.
