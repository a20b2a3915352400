# Jet: store, authorization, webhooks, wire protocol and bootstrap, verified

This project models the parts of Jet in which a mistake would be quiet and expensive, and proves
what they promise about every input, every interleaving and every reachable state:

- **The content-addressed store** (`crates/jet-cas`). Directories become Merkle manifests and
  blobs; objects are inserted by stage, seal and rename; trees are written back by reflink,
  hardlink or copy; garbage is collected by mark and sweep. `Manifest` is the byte codec,
  `Objects` says what a digest means, `Filesystem` is names, inodes, modes and times, `Marking` is
  the mark loop, and `ObjectStore` holds the imperative store itself. `Protocol` cuts the same
  operations into the system calls of any number of writers, materializers, users, collector
  passes and stopped processes, down to the separate removal, open, writes and chmod of one placed
  file; `Interleavings` and `Collection` prove what every run of that machine keeps, and `Races`
  shows which hypotheses of those theorems cannot be dropped.
- **Authorization and its decision cache** (`crates/jet-authz`, `crates/jet-core`): `Authz` and
  `DecisionCache`.
- **Role bootstrap** (`crates/jet-store`): `Bootstrap`.
- **The webhook delivery guard and handler** (`crates/jet-server`): `Deliveries`.
- **The JRP wire layer** (`crates/jet-proto`): `Frames` and `Connection`.
- **Digest names and shard routing** (`crates/jet-core`): `Digests`.

`Base` has bytes, little-endian numbers and the byte order of names. `dafny verify dfyconfig.toml`
checks everything.

## How the model is set up

The hash is a parameter (`World`) with a blob context and a tree context, and so is UTF-8
validity. Nothing is assumed about them in general: the theorems that need it require the finite
set of byte strings of one run (`u`, `universe`) to be free of collisions, and blob digests in it
to differ from tree digests.

Kernel outcomes are chosen arbitrarily: whether a reflink or a hardlink is supported, what mode a
new file gets under the umask, in which order a directory is listed. System calls may also fail
for reasons of the kernel's own, but only in a store whose `faulty` flag is set, and where the code
drops such an error or takes it for an absence the model does too; without the flag the contracts
say exactly when an operation succeeds. The flag `bypasses` tells a process that may
write to read-only files from one that may not. Clock readings and generated ids are arguments.

The methods of the store ask only for a well-shaped disk with read-only objects (`Valid`). Whether
the objects are what their digests name (`Honest`) is a separate predicate: reading, materializing
and collecting hold on altered stores too, puts say what they do on both, and only ingest and the
round trip require it.

Where an operation changes state in the source it is a method on a class, or a loop, proved
against a function or a property; the functions then carry the theorems.

## What the code does not keep

Each of these is a lemma for all states or inputs of its kind, beside the theorem that says when
the promise does hold.

- The staging path is named by the digest alone and opened with truncation. Two puts of one digest
  can expose an empty object at its final path (`Races.TwoPutsExposeAPartialObject`); the comment
  at `crates/jet-cas/src/store.rs:575-577` claims that they cannot harm each other. With one put
  per digest in flight, as shard routing would provide, objects are always whole
  (`Interleavings.ObjectsAlwaysWhole`).
- A put that stops between sealing its staging file and renaming it leaves a read-only file there
  (`Races.StoppedPutLeavesASealedFile`). Short of faults, `put_bytes` and `put_tree` fail exactly
  when the object is missing, such a file is in the way, and the process may not write to
  read-only files (`ObjectStore.Store.InsertStaged`, `PutBytes`, `PutTree`). `put_file` is not
  affected, because it replaces the file.
- A materializer sets the mode of a file by path, after it has written it. If another one links an
  object at that path in between, the chmod makes the object itself writable
  (`Races.SharedPathUnsealsAnObject`), and between the removal and the open of a copy a privileged
  process would empty it (`Races.SharedPathEmptiesAnObject`). Objects stay sealed in every run in
  which no object is linked at a path where another materializer is past its removal
  (`Interleavings.ObjectsAlwaysWhole`, `SealedForever`). Creating a directory fails if it exists,
  so that is every run in which no directory is removed under the call that made it
  (`Interleavings.OwnedRunIsUnshared`).
- Marking does not look into a digest it has marked as a file, so a digest named both as a file and
  as a directory loses what is below it (`Marking.DualUseLosesTheRoot`). Collection is safe where
  nothing that is stored as a tree below the roots is named as a file there, as is the case for
  whatever ingest has stored (`Marking.IngestedRolesDisjoint`); a blob may be a root and a file.
- Marking drops the error of a read that fails and takes the digest for a leaf, so one failed read
  of a manifest costs everything below it that nothing else reaches, and the pass still reports
  success (`Marking.FailedReadLosesTheRoot`, `Races.FailedReadTakesAReachableObject`). Roots below
  which no read fails are safe (`ObjectStore.Store.Gc`, `Collection.ReachableSurvives`).
- The sweep passes over an object whose stat fails, without a word, so in a faulty store it may
  leave garbage and still report success (`ObjectStore.Store.Sweep`).
- The sweep reads an object's age and unlinks it in two steps. Two passes that both condemned an
  object can delete a copy inserted in between (`Races.SharedDoomTakesAYoungObject`). Young objects
  are safe while no two passes have condemned the same object (`Collection.YoungSurvives`), for
  instance while passes sweep one at a time (`Collection.YoungSurvivesLoneSweeps`).
- A put that finds its object stored does not refresh its time, so an old unreachable object can be
  collected right after a put of it succeeded (`Races.DedupeHitMayBeLost`).
- The manifest writes a link target's length in 16 bits and the entry count in 32, and its reader
  refuses empty targets. Encoding and decoding is lossless exactly for trees that fit
  (`Manifest.RoundTripExactlyWhenFits`), and ingest followed by materialization exactly for those
  nested at most 128 deep as well (`Objects.RoundTripExactlyWhenRepresentable`). Ingest itself
  accepts the others.
- Every frame header carries the sender's version and is refused outside the receiver's range, so
  two builds whose messages fit complete the handshake exactly when the server speaks the client's
  *highest* version (`Connection.HandshakeAgreement`). A newer client is refused by an older server although the
  negotiation would have found a common version (`Connection.NewerClientIsRefused`);
  `crates/jet-proto/src/frame.rs:26-29` promises node-by-node upgrades.
- The delivery guard records an id before the run is enqueued. If enqueueing fails, every retry
  within the window is answered as a duplicate and the run is never enqueued, unless other
  deliveries crowd the id out (`Deliveries.WebhookServer.RetriesAfterFailure`).
- The cache key has only the leaf scope id. It determines the answer when every pipeline is
  presented with its one project, as the schema has it, and not otherwise
  (`Authz.KeyNeedsOneProject`).

## Model

| member | source | states |
|---|---|---|
| Manifest.NameCheckIsExact | crates/jet-cas/src/tree.rs:66-84 | the branches of the name check accept exactly the names of 1 to 255 bytes that are not `.` or `..` and contain neither a slash nor NUL |
| Manifest.NameErrors | crates/jet-cas/src/tree.rs:66-84 | a name is refused for the first rule it breaks: empty, over 255 bytes, a dot name, a slash, a NUL |
| Manifest.InsertSorted | crates/jet-cas/src/tree.rs:146-148 | inserting keeps the entries in strict byte order of their names, hence distinct |
| Manifest.LookupInsert | crates/jet-cas/src/tree.rs:146-148 | inserting binds that name to the new node and changes no other binding |
| Manifest.SortedCanonical | crates/jet-cas/src/tree.rs:202-233 | two ordered trees with the same bindings are the same entry list |
| Manifest.EncodingIgnoresInsertionOrder | crates/jet-cas/src/tree.rs:202-233 | any two insertion histories that end in the same last bindings encode to the same bytes |
| Manifest.DecodeInvertsEncode | crates/jet-cas/src/tree.rs:202-306 | decoding the encoding of a tree within the length limits gives the tree back |
| Manifest.RoundTripExactlyWhenFits | crates/jet-cas/src/tree.rs:202-306 | the round trip holds if and only if every link target is non-empty and under 65536 bytes and there are fewer than 2^32 entries |
| Manifest.EncodeInjective | crates/jet-cas/src/tree.rs:202-233 | different trees within the limits have different encodings |
| Manifest.DecodedIsWellFormed | crates/jet-cas/src/tree.rs:236-306 | whatever bytes decode, the names are valid, distinct and ordered, and the tree is within the limits |
| Manifest.DecodableIsPrefixFree | crates/jet-cas/src/tree.rs:236-306 | a decodable byte string followed by anything is refused for its trailing bytes, so no proper prefix or extension of one decodes |
| Manifest.DecodesExactly | crates/jet-cas/src/tree.rs:236-306 | the accepted bytes, literally: version 1, a 32-bit count, and that many tagged entries with distinct valid names in any order and any unused flag bits; what is read is the map they fill |
| Manifest.EncodesExactly | crates/jet-cas/src/tree.rs:202-233 | of those the one that is written has the entries in name order and flags 0 or 1 |
| Manifest.RefusedForTheFirstFault | crates/jet-cas/src/tree.rs:236-306 | other bytes are refused for the version, a count beyond the buffer, or the first entry that cannot be read or repeats a name, in that order |
| Manifest.NodeErrors | crates/jet-cas/src/tree.rs:260-293 | an unknown tag, a short payload, a target that is not UTF-8 and an empty target are told apart, and nothing else is refused |
| Manifest.Encode | crates/jet-cas/src/tree.rs:202-233 | the loop that appends to the buffer produces the encoding the codec laws are about |
| Manifest.ReadEntries | crates/jet-cas/src/tree.rs:252-300 | the loop that advances the cursor and fills the map reads what the codec laws are about, or fails with the same first error |
| Manifest.Decode | crates/jet-cas/src/tree.rs:236-306 | version, entry count, entries and exhaustion are checked in that order, with the matching error |
| Objects.DigestDeterminesStructure | crates/jet-cas/src/store.rs:287-301 | any two stores, altered or not, that resolve a root all the way down resolve it to the same names, kinds, blob digests, sizes, execute bits and targets |
| Objects.GetTreeMeans | crates/jet-cas/src/store.rs:287-301 | missing, undecodable, of another digest, or a tree: when each is the outcome |
| Objects.NamedDigests | crates/jet-cas/src/tree.rs:174-187 | a tree names a digest as a file or as a directory exactly where an entry does |
| Objects.IngestibleMeans | crates/jet-cas/src/store.rs:322-360 | only invalid names, targets that are not UTF-8 and device nodes keep a tree from being ingested |
| Objects.WalkPointwise | crates/jet-cas/src/store.rs:389-479 | a directory resolves to a list of parts if and only if each entry resolves to its part, in manifest order |
| Objects.WalkFirstError | crates/jet-cas/src/store.rs:389-479 | a directory whose entries succeed up to one that fails reports the error of that one |
| Objects.WalkLocal | crates/jet-cas/src/store.rs:389-479 | resolving a digest reads nothing but a closed set of directories and the files they name |
| Objects.UnfoldLocal | crates/jet-cas/src/store.rs:389-479 | stores that agree on a closed set of directories and their files unfold each of them to the same tree or the same error |
| Objects.FolderUnfolds | crates/jet-cas/src/store.rs:310-479 | the stored manifests and blobs of a representable directory unfold to that directory, names, contents, targets and execute bits, and the recorded sizes are the lengths of the objects |
| Objects.IngestedSizes | crates/jet-cas/src/store.rs:346-349 | every file entry of the manifest that ingest computes has the length of the object that it names |
| Filesystem.HoldsWeighs | crates/jet-cas/src/store.rs:310-365 | the files at and below a path are as long together as those of the directory tree it holds |
| Objects.WalkedIsRepresentable | crates/jet-cas/src/store.rs:389-479 | everything that unfolds is within the format limits and the depth limit |
| Objects.RoundTripExactlyWhenRepresentable | crates/jet-cas/src/store.rs:310-479 | an ingested directory unfolds to itself if and only if it has no empty or oversized target, no directory of 2^32 entries and at most 129 levels |
| ObjectStore.WantedMode | crates/jet-cas/src/store.rs:446-454 | a file with its own inode is readable by all, writable by its owner exactly for a private inode and by nobody else, and executable exactly as the entry asks |
| ObjectStore.Store.constructor | crates/jet-cas/src/store.rs:123-147 | a store may be opened on any well-shaped disk, empty or not, altered or not, with the reflink capability as probed |
| ObjectStore.Store.PlaceFile | crates/jet-cas/src/link.rs:198-248 | the destination gets the source's bytes, on the source's inode only for a hardlink under the overlay intent and on a new inode otherwise; no other name and no inode changes; success by reflink leaves the capability known and any other success leaves it ruled out, for good; without faults it fails only for a missing source or an unusable destination |
| ObjectStore.Store.SealAndCommit | crates/jet-cas/src/store.rs:604-635 | success adds exactly the staged bytes under the digest, mode 0444, time kept; failure changes no object |
| ObjectStore.Store.InsertStaged | crates/jet-cas/src/store.rs:582-601 | success adds exactly the given bytes, mode 0444 and time now; failure changes no object; without faults it fails if and only if a sealed leftover is in the way and the process may not write to read-only files |
| ObjectStore.Store.PutBytes | crates/jet-cas/src/store.rs:187-197 | a digest that is present is left alone and otherwise the bytes are inserted, on any store, a failed existence test counting as absence; in an honest store the digest then names the bytes and no other object changes; without faults it fails if and only if the object is missing and a sealed leftover is in the way |
| ObjectStore.Store.PutTree | crates/jet-cas/src/store.rs:274-285 | the same for the manifest under its tree digest |
| ObjectStore.Store.HashFile | crates/jet-cas/src/store.rs:645-665 | the chunked loop absorbs every byte of the file exactly once and in order, whatever the reads return; that the hasher depends only on the concatenation of what it absorbed is taken as given |
| ObjectStore.Store.PutFile | crates/jet-cas/src/store.rs:212-242 | stores the file's bytes under their digest and returns its length; the source file keeps its inode, bytes and mode; without faults it succeeds if and only if the path is a regular file, leftovers or not |
| ObjectStore.Store.IngestEntry | crates/jet-cas/src/store.rs:328-360 | links are recorded and not followed, directories walked, files put with their owner-execute bit and recorded with the length of the stored object, devices refused |
| ObjectStore.Store.IngestTree | crates/jet-cas/src/store.rs:315-365 | in whatever order the directory is listed, the result is its canonical manifest, with everything below it stored and every file entry as long as its object |
| ObjectStore.Store.IngestDir | crates/jet-cas/src/store.rs:310-313 | for a path that is not itself a link, returns the digest of the directory with every object of it stored, loses no object and changes nothing outside; without faults it succeeds on exactly the ingestible directories |
| ObjectStore.Store.ReadTree | crates/jet-cas/src/store.rs:287-301 | a missing object, undecodable bytes, a canonical encoding that does not hash to the name and, in a faulty store, a failed read are told apart, and a tree is returned only where none applies |
| ObjectStore.Store.MaterializeFile | crates/jet-cas/src/store.rs:413-462 | the file holds the object's bytes and the entry's execute bit, is writable exactly for a private inode, and shares the object's inode only as a non-executable overlay entry; the counters record how it was placed; a missing object is reported, and in a faulty store an object that could not be tested for |
| ObjectStore.Store.MaterializeInto | crates/jet-cas/src/store.rs:389-479 | terminates on every well-shaped store, altered and cyclic ones included; on success the destination holds exactly the unfolded tree, and the counters have grown by the directories, links, files and files on an object's inode that are on disk below it, and by the lengths of those files where manifests tell them; otherwise, short of faults, it reports the first error of the walk |
| ObjectStore.Store.MaterializeTree | crates/jet-cas/src/store.rs:375-388 | refuses an existing destination; without faults it succeeds if and only if the digest unfolds, and then the destination holds exactly what it unfolds to, and the statistics are the counts of what is on disk there |
| ObjectStore.Store.RoundTrip | crates/jet-cas/src/store.rs:310-479 | ingest, materialize under either intent and any link outcomes, ingest again: the same tree and the same digest, the bytes reported are the lengths of the source files, and without faults it succeeds on exactly the ingestible directories |
| Marking.MarkStepKeeps | crates/jet-cas/src/store.rs:492-511 | where nothing protected that is stored as a tree is also named as a file, each turn keeps every marked protected directory expanded and every root marked or queued |
| Marking.MarkLeafKeeps | crates/jet-cas/src/store.rs:499-511 | a turn whose read fails does no harm to the directories that have to be kept, if it is not one of them |
| Marking.MarkStepDecreases | crates/jet-cas/src/store.rs:492-511 | each turn marks a stored digest for the first time or shortens the queue |
| Marking.TraceStep | crates/jet-cas/src/store.rs:492-511 | whatever roles digests have, marked are at each turn the digests looked into, those that could not be read, and the files that the former name; their subtrees and the roots are marked or queued; nothing outside what the roots reach is looked at |
| Marking.MarkedIsClosed | crates/jet-cas/src/store.rs:492-511 | when the queue is empty, and nothing stored as a tree below the roots is named as a file there, the marked part of any closed set of directories that were all read is closed, its files are marked, and so are the roots in it |
| Marking.IngestedRolesDisjoint | crates/jet-cas/src/store.rs:274-365 | whatever ingest stores meets what the collector asks for: nothing stored as a tree there is named as a file, as long as nothing hashed collides |
| Marking.FailedReadLosesTheRoot | crates/jet-cas/src/store.rs:499-511 | for every root that unfolds, if its read fails only the root is marked, and after a sweep it still unfolds the same if its manifest names no other object, and otherwise does not unfold |
| Marking.DualUseIsNotExpanded | crates/jet-cas/src/store.rs:503-509 | a digest that a root names as a file and as its only subdirectory is marked and never looked into |
| Marking.DualUseLosesTheRoot | crates/jet-cas/src/store.rs:503-509 | a root that unfolded no longer does once the unmarked objects are gone |
| ObjectStore.MarkFiles | crates/jet-cas/src/store.rs:503-505 | the loop marks exactly the blobs of the tree |
| ObjectStore.PushSubtrees | crates/jet-cas/src/store.rs:506-510 | the loop queues exactly the subtrees that are not marked, in entry order |
| ObjectStore.Store.Mark | crates/jet-cas/src/store.rs:492-511 | marking terminates on every well-shaped store, altered and cyclic ones included, with any reads failing, and marks exactly the digests looked into below the roots, those that could not be read, and the files that the former name |
| ObjectStore.Store.MarkOne | crates/jet-cas/src/store.rs:495-511 | one turn is the marking step, or, if the read fails in a faulty store, the marking of a leaf |
| ObjectStore.SweepKeeps | crates/jet-cas/src/store.rs:513-570 | at every point of a sweep a directory whose closure is live unfolds as before the sweep |
| ObjectStore.Store.Sweep | crates/jet-cas/src/store.rs:513-570 | the loop over the objects spares exactly the live, the young and those it did not get to look at, and counts the rest; without faults it looks at all of them and succeeds |
| ObjectStore.Store.Gc | crates/jet-cas/src/store.rs:491-570 | an object stays if and only if it is marked, was passed over by a failed stat, or is less than the minimum age old, on altered stores too; counters account for every object and byte; nothing outside changes; where nothing stored as a tree below the roots is named as a file there, each root below which no read failed, and without faults each root, unfolds exactly as before |
| Protocol.StagingStepKeeps | crates/jet-cas/src/store.rs:582-601 | a step of one writer on its own staging file keeps the invariant of every other writer and of the disk |
| Protocol.CommitDisk | crates/jet-cas/src/store.rs:618-624 | a rename turns a complete sealed staging inode into the object, and no other name reaches that inode |
| Protocol.PlacerKeeps | crates/jet-cas/src/store.rs:413-462 | each call of a placement, from the removal of what is at the path through link, open and writes to the chmod, keeps the invariant while no object is linked at another placer's path |
| Protocol.SetModeKeeps | crates/jet-cas/src/store.rs:444-461 | the chmod by path then never lands on an object or staging file |
| Protocol.LinkPathKeeps | crates/jet-cas/src/link.rs:224-238 | linking an object at a path keeps the invariant if no other placer past its removal works there |
| Protocol.ModifyKeeps | crates/jet-cas/src/store.rs:205-242 | a user's write or chmod to a source file or private output never lands on an object or staging file |
| Protocol.StepKeepsInv | crates/jet-cas/src/store.rs:574-634 | every step of every process keeps the invariant, with one put per digest in flight and no object linked at another placer's path |
| Interleavings.ShardedRunIsRouted | crates/jet-core/src/digest.rs:104-125 | a run in which every state has at most one put in flight per shard never starts a second put of a digest in flight |
| Interleavings.OwnedRunIsUnshared | crates/jet-cas/src/store.rs:404-405 | a run in which no directory is removed under the call that made it never links an object at another call's path |
| Interleavings.RunKeepsInv | crates/jet-cas/src/store.rs:574-634 | the invariant holds in every state of every run |
| Interleavings.ObjectsAlwaysWhole | crates/jet-cas/src/store.rs:574-634 | in every state of every such run, with processes stopping anywhere, an object at its final path is complete, is what its digest names and is 0444, and only a non-executable overlay entry shares its inode |
| Interleavings.StepFreezes | crates/jet-cas/src/link.rs:198-248 | no step changes an inode that is or was an object |
| Interleavings.SealedForever | crates/jet-cas/src/store.rs:212-242 | over any stretch of any run such an inode keeps its bytes, mode and time |
| Interleavings.CollectorSparesWorkspaces | crates/jet-cas/src/store.rs:491-570 | no step of a collector changes what a path outside the store is or reads |
| Collection.ObjectStays | crates/jet-cas/src/store.rs:559-566 | only the unlink of a pass that condemned it takes an object away, and nothing changes it |
| Collection.MarkPassKeeps | crates/jet-cas/src/store.rs:492-511 | the marking invariant survives each turn that reads a manifest while other processes change the store between turns |
| Collection.MarkTurnOk | crates/jet-cas/src/store.rs:495-511 | and each turn whose read fails, unless the digest is a protected directory |
| Collection.MarkedAll | crates/jet-cas/src/store.rs:492-511 | a pass that ends marking has marked everything reachable from the protected roots |
| Collection.StepKeepsReachable | crates/jet-cas/src/store.rs:491-570 | every step keeps all reachable objects present with their content, unless it is a failed read of a reachable manifest |
| Collection.ReachableSurvives | crates/jet-cas/src/store.rs:491-570 | in every run with any number of overlapping passes, none of which fails to read the manifest of a reachable directory, everything reachable from the roots they share is present and unchanged in every state |
| Collection.StepKeepsAges | crates/jet-cas/src/store.rs:540-566 | while no two passes have condemned the same object, a condemned object is present and old enough |
| Collection.YoungSurvives | crates/jet-cas/src/store.rs:540-566 | then an object survives, unchanged, until it is the minimum age old |
| Collection.YoungSurvivesLoneSweeps | crates/jet-cas/src/store.rs:513-570 | it is enough that passes sweep one at a time |
| Collection.CommittedTreeSurvives | crates/jet-cas/src/store.rs:187-197 | a tree complete at one step unfolds the same at a later one if each of its objects, inserted or found, is reachable from the roots or still young there |
| Collection.PutTreeSurvives | crates/jet-cas/src/store.rs:187-197 | once puts of every object of a directory tree have ended, each having inserted or found it, and each object is reachable or still young, the digest unfolds to the tree, if and only if the tree is representable |
| Races.TwoPutsExposeAPartialObject | crates/jet-cas/src/store.rs:574-634 | from any state with two puts of one digest past their check, some run puts an empty object at the final path of non-empty content |
| Races.TwoPutsMayBothCheck | crates/jet-cas/src/store.rs:187-197 | such a state is two steps from any state that lacks the object |
| Races.StoppedPutLeavesASealedFile | crates/jet-cas/src/store.rs:604-635 | from any state without the object, a put stopped after sealing leaves a read-only staging file and no object |
| Races.SetModeReaches | crates/jet-cas/src/store.rs:444-461 | the chmod of a placement changes the mode of an object if and only if its path leads to that object and the mode differs |
| Races.SharedPathUnsealsAnObject | crates/jet-cas/src/store.rs:432-461 | from any state with a private file still to be chmodded, alone in its directory, some run removes and remakes the directory and makes any chosen object writable |
| Races.SharedPathEmptiesAnObject | crates/jet-cas/src/link.rs:240-248 | from any state with a placer past its removal, alone in its directory, some run of a process that may write to read-only files empties any chosen object |
| Races.FailedReadTakesAReachableObject | crates/jet-cas/src/store.rs:499-511 | from any state with an old object, a pass over another root whose read fails unlinks the object, and a root that names it no longer unfolds |
| Races.DedupeHitMayBeLost | crates/jet-cas/src/store.rs:189-191 | a put of an old unreachable object succeeds, changes nothing, and a pass may take the object at once |
| Races.SharedDoomTakesAYoungObject | crates/jet-cas/src/store.rs:540-566 | from any state in which two passes condemned one object, some run ends with a brand-new copy being unlinked |
| Races.OverlappingPassesMayBothDoom | crates/jet-cas/src/store.rs:540-566 | two overlapping passes get there from any state with an old object |
| Digests.NamesRoundTrip | crates/jet-core/src/digest.rs:80-139 | parsing the hex name, bare or prefixed, gives the digest back |
| Digests.ParseIsExact | crates/jet-core/src/digest.rs:128-139 | what parses is 64 hexadecimal digits of either case, with or without the prefix, and a wrong length is reported as such |
| Digests.ObjectPathsDiffer | crates/jet-cas/src/store.rs:158-165 | different digests have different object paths |
| Digests.MaskIsMod | crates/jet-core/src/digest.rs:119-121 | masking with a power of two less one is the remainder |
| Digests.ShardIsRemainder | crates/jet-core/src/digest.rs:114-125 | both branches give the remainder of the first eight bytes, so the shard is in range and fixed by the digest |
| Authz.ParseAsStr | crates/jet-core/src/authz.rs:91-137 | every permission parses back from its own key |
| Authz.AsStrInjective | crates/jet-core/src/authz.rs:91-118 | no two permissions share a key |
| Authz.SelectedMeans | crates/jet-authz/src/lib.rs:290-352 | a row passes the query's filter if and only if it is a grant of the principal's organization, reaches the principal directly or by a team there, and covers the scope |
| Authz.QueryMeans | crates/jet-authz/src/lib.rs:290-352 | a permission is in the answer if and only if some such grant's role holds it |
| Authz.AuthorizeMeans | crates/jet-authz/src/lib.rs:127-164 | the system is always allowed; a user if and only if the organizations match, account and membership are active and some grant confers the permission; a service account if and only if it is one of that organization, not disabled, and some grant confers the permission |
| Authz.DenialsMean | crates/jet-authz/src/lib.rs:127-164 | a denial names the first check that fails: organization, standing, permission |
| Authz.SystemHoldsNoGrants | crates/jet-authz/src/lib.rs:207-227 | the system has no cache key and holds no permissions by grant |
| Authz.StandingOutranksGrants | crates/jet-authz/src/lib.rs:255-288 | a suspended or removed user, membership or service account is denied whatever grants remain |
| Authz.AuthorizeMonotone | crates/jet-authz/src/lib.rs:127-164 | more grants or role permissions never take access away |
| Authz.AuthorizeFlowsDown | crates/jet-core/src/authz.rs:278-302 | access at a scope is access at every scope below it |
| Authz.OtherOrgsIgnored | crates/jet-authz/src/lib.rs:290-352 | grants of other organizations change no decision |
| Authz.KeyDeterminesAnswer | crates/jet-authz/src/lib.rs:207-218 | calls with equal cache keys have equal answers, if each pipeline is presented with its one project |
| Authz.KeyNeedsOneProject | crates/jet-authz/src/lib.rs:207-218 | without that, two calls with one key can have different answers |
| DecisionCache.HitIsTrue | crates/jet-authz/src/lib.rs:228-236 | an entry of the loaded generation is the true answer to this call from a version that is new enough |
| DecisionCache.LookupKeeps | crates/jet-authz/src/lib.rs:228-236 | a lookup, with the lock or without, keeps the protocol's invariant |
| DecisionCache.LookupAnswers | crates/jet-authz/src/lib.rs:228-236 | the cache answers exactly when it holds an entry of the loaded generation filled less than 30 seconds before |
| DecisionCache.FillStamps | crates/jet-authz/src/lib.rs:240-250 | a fill stamps the entry with the time and with the generation loaded before the query |
| DecisionCache.FillKeeps | crates/jet-authz/src/lib.rs:240-252 | a fill keeps it even where a slow filler overwrites a newer entry |
| DecisionCache.BumpKeeps | crates/jet-authz/src/lib.rs:200-205 | a generation bump after a commit keeps it |
| DecisionCache.StepKeepsInv | crates/jet-authz/src/lib.rs:200-252 | every atomic step of every reader and writer keeps it |
| DecisionCache.AnswersAreFresh | crates/jet-authz/src/lib.rs:200-252 | in every interleaving, a call that begins after an invalidation returned is answered with the uncached query's answer on a version no older than the commit it followed, whether or not any clear happens |
| DecisionCache.RevocationTakesEffect | crates/jet-authz/src/lib.rs:200-252 | a permission that no version from the revocation on confers is in no answer to a later call |
| DecisionCache.DecisionsAreFresh | crates/jet-authz/src/lib.rs:127-164 | in every interleaving, a decision whose standing read and cache lookup come after an invalidation returned allows access if and only if one version has the principal active and one version confers the permission, both no older than the commit it followed |
| Bootstrap.RoleDecisions | crates/jet-core/src/authz.rs:372-416 | what each role leaves out of the one above it: viewer, developer, maintainer, admin, owner form a ladder, the viewer only reads, only the owner reads secrets, and billing, beside the ladder, has two permissions |
| Bootstrap.PermissionsDistinct | crates/jet-core/src/authz.rs:372-416 | no role lists a permission twice, so inserting its list breaks no key |
| Bootstrap.GrantAllGrants | crates/jet-store/src/bootstrap.rs:52-66 | inserting distinct known permissions for a cleared role cannot fail and grants just those |
| Bootstrap.ReconcileRoleWorks | crates/jet-store/src/bootstrap.rs:27-67 | reconciling a role succeeds exactly when its row exists or the new id is free, gives it exactly its permissions, and changes nothing else |
| Bootstrap.OtherRoleStays | crates/jet-store/src/bootstrap.rs:27-67 | a reconciled role stays reconciled while another one is |
| Bootstrap.ReconcileAllWorks | crates/jet-store/src/bootstrap.rs:27-67 | after the loop every system role has exactly its permissions, existing ids are kept, and custom roles are untouched |
| Bootstrap.NewIdsSucceed | crates/jet-store/src/bootstrap.rs:27-67 | with new ids the loop cannot fail |
| Bootstrap.BootstrapIsIdempotent | crates/jet-store/src/bootstrap.rs:21-71 | a second bootstrap changes nothing, whatever ids it generates |
| Bootstrap.Database.VerifyCatalog | crates/jet-store/src/bootstrap.rs:78-111 | succeeds exactly when the catalog has every permission of the code |
| Bootstrap.Database.Bootstrap | crates/jet-store/src/bootstrap.rs:21-71 | success leaves every system role exact and everything else alone; any failure, the catalog check included, leaves the tables as they were |
| Deliveries.DeliveryGuard.constructor | crates/jet-server/src/webhook/dedupe.rs:62-68 | a new guard is empty and has room for at least one id |
| Deliveries.DeliveryGuard.Oldest | crates/jet-server/src/webhook/dedupe.rs:107-117 | the entry to evict is a least recent one, in whatever order the map is iterated |
| Deliveries.DeliveryGuard.Check | crates/jet-server/src/webhook/dedupe.rs:76-121 | in any order of clock readings, Duplicate means exactly that the map holds the id and the window from its time has not passed; the new map is given exactly; it never exceeds its capacity; for readings that do not fall, Duplicate means seen within the window and Fresh means not, unless at least `capacity` other ids were accepted since |
| Deliveries.DeliveryGuard.CheckTwice | crates/jet-server/src/webhook/dedupe.rs:85-121 | of two deliveries of one id in direct succession, with readings in either order and less than the window apart, the second is a duplicate |
| Deliveries.PurgeRemembers | crates/jet-server/src/webhook/dedupe.rs:94-98 | purging expired ids loses nothing the history still needs |
| Deliveries.AcceptRemembers | crates/jet-server/src/webhook/dedupe.rs:107-121 | evicting the oldest id and inserting a new one keeps every acceptance remembered, expired or crowded out |
| Deliveries.EvictedIsCrowded | crates/jet-server/src/webhook/dedupe.rs:107-121 | by the time an id is evicted, `capacity` distinct other ids have been accepted since it was |
| Deliveries.FreshIsRight | crates/jet-server/src/webhook/dedupe.rs:76-121 | an id accepted within the window and not remembered has been crowded out |
| Deliveries.AcceptSpaced | crates/jet-server/src/webhook/dedupe.rs:76-121 | over the whole history, two acceptances of one id within the window have `capacity` other ids between them |
| Deliveries.AtMostOneRunPerWindow | crates/jet-server/src/http.rs:121-228 | over any sequence of requests, two runs of one delivery id within the window mean that capacity crowded it out before the second was accepted |
| Deliveries.WebhookServer.Webhook | crates/jet-server/src/http.rs:121-228 | each answer is given exactly when the source gives it; exactly the verified, new, parsed, triggering and enqueued requests add a run, one each, and requests that fail verification leave guard and runs unchanged |
| Deliveries.WebhookServer.RetriesAfterFailure | crates/jet-server/src/http.rs:121-228 | after a new delivery whose enqueueing failed, over any later requests, no request with its id adds a run within the window unless `capacity` other ids crowd it out |
| Frames.CodeRoundTrip | crates/jet-proto/src/frame.rs:88-113 | every message type is read back from its own code |
| Frames.HeaderRoundTrip | crates/jet-proto/src/frame.rs:205-238 | an encoded header decodes to itself if and only if the build speaks its version and the length is within the limit |
| Frames.HeaderFields | crates/jet-proto/src/frame.rs:205-214 | where each field stands in the sixteen bytes |
| Frames.HeaderRefused | crates/jet-proto/src/frame.rs:216-238 | a header is refused for the first of foreign magic, a version not spoken, an unknown type and a payload over 8 MiB, and otherwise accepted |
| Frames.AcceptedIsCanonical | crates/jet-proto/src/frame.rs:205-238 | sixteen bytes that decode are exactly the encoding of what they decode to |
| Frames.EncodeHeader | crates/jet-proto/src/frame.rs:205-214 | filling the fixed array field by field gives the header bytes the codec laws are about |
| Frames.RecvFirst | crates/jet-proto/src/conn.rs:161-174 | receiving takes exactly one frame and leaves the rest of the stream |
| Frames.StreamRoundTrip | crates/jet-proto/src/conn.rs:126-174 | receiving until the end of the concatenated bytes of any sendable frames gives exactly those frames |
| Connection.NthIdIs | crates/jet-proto/src/conn.rs:114-123 | the n-th stream id of a side in closed form, across the 32-bit wraparound |
| Connection.SidesNeverCollide | crates/jet-proto/src/conn.rs:72-123 | client ids are odd, server ids even and non-zero, for ever, so the two sides never collide |
| Connection.IdsRepeatOnlyAfterAPeriod | crates/jet-proto/src/conn.rs:114-123 | two ids of one side are equal if and only if they are a whole number of periods of 2^31, or 2^31 - 1 on the server, apart |
| Connection.NegotiateIsMaximum | crates/jet-proto/src/conn.rs:241-256 | the server picks the greatest common version and refuses exactly when there is none |
| Connection.CommonIsBoth | crates/jet-proto/src/conn.rs:267-268 | a capability bit is offered back exactly when both sides have it |
| Connection.ServerAnswers | crates/jet-proto/src/conn.rs:219-275 | to the hello of any build the server answers with the client's highest version if it speaks it, refuses an oversized agent name with an error frame, and otherwise refuses the header without a reply |
| Connection.ServerRefuses | crates/jet-proto/src/conn.rs:219-256 | a first frame that is no hello, or a hello that is invalid or of a disjoint range, is answered on its stream with the code for it |
| Connection.ClientReads | crates/jet-proto/src/conn.rs:192-212 | what the client makes of each kind of reply |
| Connection.RefusedLearnsWhy | crates/jet-proto/src/conn.rs:203-209 | a refused client that can read the server's frames learns the code |
| Connection.HandshakeAgreement | crates/jet-proto/src/conn.rs:177-275 | for every faithful payload encoding, the client completes if and only if the server speaks its highest version and the agent name and the ack are within their limits, and then both ends hold that version, which is in both ranges, and matching capabilities |
| Connection.NewerClientIsRefused | crates/jet-proto/src/conn.rs:177-275 | a client newer than the server fails although negotiation would have picked the server's version |
| Connection.FaithfulPayloadsExist | crates/jet-proto/src/conn.rs:177-275 | for every pair of builds and ordinary strings there is a faithful encoding under which the messages fit |
| Connection.JrpConn.constructor | crates/jet-proto/src/conn.rs:72-99 | a connection starts at its build's highest version and its side's first stream id |
| Connection.JrpConn.NextStream | crates/jet-proto/src/conn.rs:114-123 | the n-th call returns the n-th id of its side |
| Connection.JrpConn.Send | crates/jet-proto/src/conn.rs:126-158 | appends exactly one frame, or nothing if the payload is over the limit |
| Connection.JrpConn.Recv | crates/jet-proto/src/conn.rs:161-174 | consumes exactly the first frame, and never reserves more than the payload limit |
| Connection.JrpConn.ServerHandshake | crates/jet-proto/src/conn.rs:219-275 | settles and replies as the server side that the agreement theorem is about |
| Connection.JrpConn.SendHello | crates/jet-proto/src/conn.rs:177-190 | sends the client's range on its next stream id |
| Connection.JrpConn.ReceiveAck | crates/jet-proto/src/conn.rs:192-212 | settles as the client side that the agreement theorem is about, and keeps its version on failure |

## Left out

- BLAKE3, HMAC and constant-time comparison: the hash is a parameter and signature verification an outcome of the request.
- The rkyv encoding of payloads: pairs of functions of which the second reads back what the first wrote.
- Durability against power loss, `fsync` and the `Durability` setting: only processes stop, and the kernel keeps what it was told.
- Permission checks on files outside the store, link counts and path length limits: a kernel failure of any kind is a fault.
- ObjectStore.Store.IngestDir: a symbolic link given as the directory itself is refused, where the code would follow it, because paths are not resolved through links.
- In the interleavings a put's test for its object does not fail; a single put on a faulty store is modelled with that failure.
- Stores whose objects have lost their read-only mode: a hardlinked file then has whatever mode its object has.
- In the interleavings users create, write, chmod and remove files, but do not rename them or make links of their own, and chmod does not follow a symbolic link.
- Source files that change while they are being ingested.
- Object and staging names are keyed by digest rather than spelled out as strings in the filesystem; that different digests have different paths is proved separately.
- The capability probe when a store is opened is a parameter; `get_bytes`, `get_bytes_verified` and `missing` are single reads.
- The 64-bit generation counter of the decision cache is modelled with its wraparound, and freshness is stated for runs of fewer than 2^64 invalidations.
- The time limit of cached decisions is modelled, but freshness does not need it and nothing is claimed about it.
- A failed database query in `permissions` is a call that is abandoned; `effective_permissions` is one query.
- The delivery guard's history theorem is stated for clock readings that do not fall; readings that do are modelled, and only the capacity bound and the immediate answers are claimed for them.
- Shard routing takes `usize` as 64 bits wide.
- Role display names, descriptions, timestamps and log lines.
- Provider-specific parsing of webhooks, HTTP routing, header lookup, and the `trigger` endpoint.
- The session loop, socket tuning, listeners, `ping` and the command line.
- `Hasher::update_framed`, which no modelled operation uses.
