# Verified model of greentic-update

A Dafny model of the update platform's core library, with proofs about what it promises. It covers
the on-disk staging protocol, the airgap envelope builder and scanner, the update event stream with
its reconnect loop, the binary swap, and the parts of the plan module these need.

`dafny verify dfyconfig.toml` checks everything.

## How the model is laid out

| Files | Source | Shape |
|---|---|---|
| `Wrappers`, `Digest`, `Plan` | `src/plan.rs`, `src/staging.rs:1607-1625` | digests and directory names; addressing, downgrade guard, sign and verify, binary selection |
| `Disk`, `Staging`, `Operations`, `CasStore` | `src/staging.rs` | one environment directory as a map from paths to files, its invariant, marker scans, admission facts, each operation as the list of writes it decides on, and the store as a map |
| `StagingRuns`, `StagingOrigins`, `StagingAudit`, `StagingClock`, `Components` | `src/staging.rs` | runs of any number of processes, with the lock as a resource and a crash possible at every step |
| `Outcomes`, `UpdatesRoot`, `CallsAreRuns` | `src/staging.rs` | when each operation goes through and what it leaves, told from the disk alone; the class with its methods, a possible fault at every primitive; each call is a stretch of a run |
| `Paths`, `Layout` | `src/staging.rs:1524-1561`, `src/binswap.rs:505-531` | where joined names lead; the map of paths as a file tree |
| `Envelope`, `Authenticity`, `EnvelopeScanner`, `EnvelopeBuilder` | `src/envelope.rs` | which archives are acceptable and what vouches for them, the scanner over a limited reader, the builder, and the round trip |
| `Sse`, `SseLines`, `Utf8`, `SseReader`, `SseEncode` | `src/stream.rs` | meaning of an event stream, of each line of it and of its text, the bounded reader, encoding and cuts |
| `ReconnectDelay`, `Reconnect` | `src/stream.rs` | the backoff object, the resume cursor, the event loop |
| `BinSwap`, `Unpack` | `src/binswap.rs` | swap and restore with every intermediate tree recorded, the release archive search |
| `Sample`, `Witnesses` | | a codec that meets every hypothesis, and the inputs at which promises fail |

Conventions:

- A file is its bytes; a marker `state.json` is its parsed content or something unreadable. The path
  below an environment directory is a first segment and a place under it.
- One step is one rename, delete or append. In `UpdatesRoot` a primitive may fail before or after it
  took effect (a rename whose directory fsync fails); in the runs a process may stop after any step,
  which frees the lock. Locking is exclusive between processes and refused on re-entry.
- SHA-256, signatures and JSON are functions held in a `Codec` or a `Trust`. That the hash is 64
  lowercase hex digits, that a signed statement is read back unchanged and that a serialised document
  parses back are hypotheses (`Hexed`, `HashesAreHex`, `DsseFaithful`, `JsonFaithful`, `Faithful`) where a result
  needs them; `Sample` meets them all. The hash is never assumed injective.
- `Disciplined` is what callers are asked for: they begin plans with the document and signature they
  verified, enter `Applying` through `begin_apply_checked` only, and refuse downgrades in its predicate.

## What the code does that a reader might not expect

- A frame that starts with an empty `data:` line loses that line (src/stream.rs:309-313), unlike
  section 9.2.6 of the WHATWG HTML Standard. `Sse.PayloadMeetsStandardIff` gives the exact condition.
  A line without a colon is ignored (src/stream.rs:294-297), where section 9.2.6 takes it as a field
  name, and a lone carriage return does not end a line.
- A body that ends cleanly right after the carriage return of a blank line dispatches its pending
  frame, although the cut line may have been longer. `SseEncode.CleanCutIsSafeIff` says exactly which
  cuts are safe.
- The public `transition(Applying)` does not look at other plans (src/staging.rs:1402-1411). From a
  good disk it breaks single flight exactly when another plan is applying
  (`Operations.PlainTransitionBreaksSingleFlightIff`, reached in `StagingWitnesses.SecondApplying`).
- Retention may evict the newest `Applied` marker and so lower a channel's watermark;
  `StagingClock.RetentionKeepsWatermarkIff` gives the exact condition, `StagingWitnesses.WatermarkLost` a run.
- The builder refuses a digest it has seen by its spelling (src/envelope.rs:464). Two spellings of one
  digest that differ in letter case pass, share a spool file and a path, and make an archive that the
  scanner refuses (`EnvelopeBuilder.ClashIsRefused`); `EnvelopeBuilder.BuildThenScanIff` has the full
  condition.
- The scanner takes a blob's key from its file name and checks the content against the manifest's
  digest, without comparing the two (src/envelope.rs:823-865). `Envelope.BlobKeyIsHashIff` says exactly
  when key and hash agree; `WireWitnesses.MislabelledBlob` is an accepted archive where they do not.
- The scanner's own test of the decompressed total can never fail, because the limiting reader below
  it runs dry first (`EnvelopeScanner.CheckTotalAndRatio`).
- The limit on the manifest pair is tested on the size in the tar header, and the body is then read whole
  (src/envelope.rs:624-637). Where a size record makes the tar layer yield another length, a header that
  says zero passes any limit (`Envelope.ManifestLimitIsOnHeader`), and only the total limit bounds what is
  read. For the plan pair and blobs the limit does hold of what is taken (`Envelope.ExtractedWithinLimits`).
- The event stream holds more than a line and a payload: a value is appended to the payload before the
  cap is tested (src/stream.rs:308-317), while the line it came from, the identifier and the event name
  are still held. `SseReader.ReadFrames` has the bound with all of these.
- The sum of the declared sizes is taken in 64 bits and can wrap (src/envelope.rs:695), so the disk
  space test sees it modulo 2^64. The model follows a release build here; a debug build panics.
- "Any failure after step 3 leaves the original target intact" (src/binswap.rs:160-161) does not
  cover the last step: when the directory fsync after the rename fails, the call reports an error and
  the new binary is in place. And a swap that fails while copying has already overwritten the earlier
  rollback copy, so restoring then may install a torn file. Comparing the two sizes beforehand tells
  (`BinSwap.RestoreAfterFailedCopyIff`); `BinSwap.TornRollback` makes it happen.
- The archive search stops at the first match, so later entries are not checked for traversal or size
  (`Unpack.LaterEntriesDoNotMatter`), and only tar archives have links refused.

## Model

| member | source | states |
|---|---|---|
| `Plan.SelectBinary` | src/plan.rs:563-586 | Exactly one match is returned, none is no update, several are an error with their number. |
| `Plan.VerifiedIsPinned` | src/plan.rs:412-463 | What verification hands on is the parsed document, of this schema, the hash of its bytes, and a signed predicate that mirrors it. |
| `Plan.VerifyIff` | src/plan.rs:412-463 | Verification succeeds on exactly the documents of this schema whose hash and identity a trusted signature states, field by field. |
| `Plan.BuildIff` | src/plan.rs:335-403 | The builder succeeds exactly for a trusted key, a plan of this schema and a signature that passes its own check. |
| `Plan.BuiltPlanVerifies` | src/plan.rs:335-403 | Whatever the builder returns verifies, to the plan that was built. |
| `Sample.SampleIsFaithful` | src/plan.rs:335-463 | The hypotheses about hashing, JSON and signatures can be met together. |
| `Disk.InfrastructureNamesDiffer` | src/staging.rs:1543-1561 | The reserved names are distinct, and none of them is a plan id. |
| `Disk.StageLaws` | src/staging.rs:136-151 | Stages only go forward, one at a time up to `Applied`; a plan is rejected only before it is applied and fails only while fetched or applied; the terminal stages are exactly the dead ends. |
| `Disk.StageAfter` | src/staging.rs:1420-1462 | A permitted write changes the stage and channel of no plan but its own. |
| `Disk.MarkerFrame` | src/staging.rs:656-712 | A write changes no other plan's marker, and no plan document while its marker exists. |
| `Disk.GoodPreserved` | src/staging.rs:136-151 | Every permitted write keeps markers consistent with their plan files, single flight, the applying plan newest in its channel, and blobs under their hash. |
| `Disk.PrefixKeepsGood` | src/staging.rs:1443-1449 | A permitted script may stop after any of its writes and the disk is good. |
| `Staging.StrictScanOmitsNothing` | src/staging.rs:812-869 | A strict scan that succeeds lists exactly what the forgiving one lists, and every present marker under a valid plan id. |
| `Staging.GoodProbe` | src/staging.rs:844-848 | On a good disk every marker is trusted and its backfilled channel is that of its plan document. |
| `Staging.BackfillEqualsRecorded` | src/staging.rs:787-798 | Scans over legacy markers give what they would give had each channel been recorded. |
| `Staging.WatermarkIsMaximum` | src/staging.rs:592-596 | The watermark is the greatest applied sequence of the channel in the scan. |
| `Staging.ScanWatermark` | src/staging.rs:582-601 | The watermark of any complete scan is the watermark of the disk. |
| `Staging.ScanApplying` | src/staging.rs:628-631 | On a complete scan the single-flight test fires exactly when some plan of the environment is applying, whatever its channel. |
| `Staging.ScanFacts` | src/staging.rs:582-601 | What a gate is shown: the watermark of the channel on the disk, and exactly the plans applied from any channel, each once. |
| `Outcomes.DowngradeGate` | src/plan.rs:470-481 | The downgrade guard on those facts lets a plan through exactly if everything applied from its channel is older. |
| `Staging.NewestFirstSorts` | src/staging.rs:905 | Sorting by age is descending and a permutation. |
| `Staging.RetentionOrderFacts` | src/staging.rs:902-905 | The retention order lists each terminal plan of the scan once, newest first. |
| `Operations.BeginLegal` | src/staging.rs:656-712 | Beginning a verified plan respects the disk's invariant at each of its writes. |
| `Operations.MoveLegal` | src/staging.rs:1420-1462 | So does a legal transition, given the gate when it enters `Applying`. |
| `Operations.ApplyLegal` | src/staging.rs:498-562 | What the strict scan under the lock allows, the disk allows: nobody else is applying and nothing as new is applied in the channel. |
| `Operations.RetentionEvictable` | src/staging.rs:895-932 | Retention evicts only distinct, valid, terminal plans that are on disk. |
| `Operations.DecideLegal` | src/staging.rs:407-532 | Whatever a disciplined request decides from true readings keeps the invariant write by write. |
| `Operations.PlainTransitionBreaksSingleFlightIff` | src/staging.rs:1402-1411 | The ungated transition to `Applying` keeps single flight exactly when no plan was applying. |
| `StagingWitnesses.SecondApplying` | src/staging.rs:1402-1411 | Reachable: one plan applying and another staged, and the ungated transition takes the second to `Applying` beside the first. |
| `StagingRuns.MutualExclusion` | src/staging.rs:1721-1758 | Two processes are never inside a locking operation together. |
| `StagingRuns.InvPreserved` | src/staging.rs:498-562 | Every step of every process, crashes included, keeps the invariant of lock, disk, scans in progress and scripts in progress. |
| `StagingRuns.InvHolds` | src/staging.rs:498-562 | The invariant holds at every moment of every run. |
| `StagingRuns.AtMostOneApplying` | src/staging.rs:529-537 | In every reachable state at most one plan of the environment is applying. |
| `StagingRuns.AppliedAboveAll` | src/plan.rs:470-481 | Whenever a plan becomes `Applied`, its sequence is strictly above all plans then applied from its channel. |
| `StagingRuns.PlansAreFrozen` | src/staging.rs:1292-1303 | Until eviction a plan's document, signature and identity never change, and its blobs never once it has left `Downloading`. |
| `StagingRuns.MarkersMatchPlans` | src/staging.rs:673-688 | Whenever a marker exists, the document and the signature beside it verify together, and the marker records the document's hash, sequence and channel. |
| `StagingOrigins.PairIsOfOneBegin` | src/staging.rs:656-712 | Whenever a marker exists, one earlier begin of that plan, not followed by an eviction, was handed exactly the document and signature on disk; they verify to the plan it was begun with. |
| `StagingOrigins.StagedPlanIsSigned` | src/plan.rs:412-463 | The signature on disk is a trusted statement of the marker's hash that mirrors the plan on disk. |
| `StagingOrigins.BuiltPlanMayBegin` | src/plan.rs:335-403 | What the plan builder returns verifies to the plan that was built, and may be begun. |
| `StagingAudit.DecidePaired` | src/staging.rs:1443-1460 | In every script each committed change is followed by its own audit line. |
| `StagingAudit.AuditIsSubsequence` | src/staging.rs:1786-1816 | In every run the log is a subsequence of the committed begins, transitions and evictions. |
| `StagingAudit.LoggedTransitionsAreLegal` | src/staging.rs:136-151 | In every run each transition line of the log is a legal transition. |
| `StagingAudit.AuditReplaysDisk` | src/staging.rs:1443-1449 | With no stop between a commit and its line, replaying the log gives the exact stage of every plan. |
| `StagingClock.AgesPreserved` | src/staging.rs:1439-1442 | With fresh timestamps, later applied means higher sequence within a channel, and every permitted write keeps that. |
| `StagingClock.NewestIsHighest` | src/staging.rs:895-932 | Then the newest applied plan of a channel holds the watermark. |
| `StagingClock.NewestIsWatermarkInRuns` | src/staging.rs:582-601 | So it does at every moment of every run under a strictly increasing clock. |
| `StagingClock.RetentionKeepsWatermarkIff` | src/staging.rs:895-932 | Retention leaves a channel's watermark as it is exactly when the channel's newest applied plan is kept, and then at every crash point too. |
| `StagingClock.RetentionInRuns` | src/staging.rs:895-932 | In a run under a strictly increasing clock, the watermark stays during retention if the newest applied plan is kept, and after all of it exactly in that case. |
| `StagingWitnesses.WatermarkLost` | src/staging.rs:905-917 | Reachable: an applied plan older than a rejected one is evicted with a budget of one, and its channel's watermark is gone. |
| `CallsAreRuns.CallExtendsRun` | src/staging.rs:407-562 | A disciplined call, however a fault cuts it short, continues any quiet run of the machine to a quiet run that ends on the disk the call leaves. |
| `Components.PlanRefines` | src/staging.rs:1543-1561 | One file of one plan depends only on the writes to that plan. |
| `Components.StoreRefines` | src/staging.rs:959-973 | A store file depends only on writes to the store; no plan write or eviction touches it. |
| `Components.ReceiptRefines` | src/staging.rs:1074-1096 | The receipt pair depends only on receipt writes. |
| `Components.AuditRefines` | src/staging.rs:1786-1816 | The log depends only on appends. |
| `Components.StoreLostIff` | src/staging.rs:905-917 | Whatever list retention works on, it empties the store exactly when the list names the store's directory beyond the budget. |
| `Components.RetentionSparesStore` | src/staging.rs:837-839 | A scan lists no reserved name, so retention leaves the store alone, on any disk. |
| `Components.RunsRefineParts` | src/staging.rs:812-932 | Along every run the shared directory behaves as independent plans, store, receipt and log. |
| `Components.RunsRefineStore` | src/staging.rs:943-1058 | Along every run the store is the map that its committed puts and removals make. |
| `Components.RunsRealize` | src/staging.rs:1524-1561 | Along every run the file system holds exactly the files of the model, each where joining its names leads, and a removed directory takes only its plan. |
| `Components.CallsRefineMap` | src/staging.rs:959-1058 | Over any history of calls, faulty ones among them, the store is a map: successful puts update, successful removals remove, a failed one does that or nothing, every other call nothing. |
| `Layout.SafeIsOneLevel` | src/staging.rs:1524-1537 | A safe segment leads one level down, to the entry of that name. |
| `Layout.PlanFilesStand` | src/staging.rs:673-700 | Marker, document and signature stand in the plan's directory under their names. |
| `Layout.BlobsStand` | src/staging.rs:1304-1369 | Artifacts stand under `artifacts`, binaries under `binaries`, each in a directory named after its hash; the store's blobs under `cas`. |
| `Layout.LocationsDiffer` | src/staging.rs:1524-1561 | Different paths of the staging area are different places in the file system. |
| `Layout.BelowPlan` | src/staging.rs:908-917 | What lies below a plan's directory is exactly that plan's files. |
| `Layout.WriteRealizes` | src/staging.rs:1543-1561 | Every permitted write does to the file system what it does to the model's map of paths. |
| `Layout.ParentIdWouldEscape` | src/staging.rs:1524-1537 | Without the segment rule, evicting a plan called `..` would take the whole environment and its siblings. |
| `Layout.SlashWouldMeetStore` | src/staging.rs:1524-1537 | Without it, a plan id with a slash would be a file of the store. |
| `Paths.OneLevelIff` | src/staging.rs:1526-1529 | Joining a segment leads one level down exactly if it is not empty, not a dot or two, and has no slash. |
| `Paths.SegmentsJoin` | src/binswap.rs:508-531 | Joining the segments of a path with slashes gives the path. |
| `Outcomes.BeginIsGranted` | src/staging.rs:407-475 | A plan with a proper id, addressed to this environment or all, without a marker and with an open gate is granted. |
| `Outcomes.BeginLeaves` | src/staging.rs:656-712 | A begin that succeeds had all that, and leaves document, signature, a fresh marker and one line, and nothing else. |
| `Outcomes.MoveIsGrantedIff` | src/staging.rs:1420-1462 | A transition is granted exactly to a plan at a stage from which it is legal. |
| `Outcomes.MoveLeaves` | src/staging.rs:1420-1462 | It changes stage and time of that marker and adds one line, and nothing else. |
| `Outcomes.ApplyIsGranted` | src/staging.rs:498-562 | A staged plan is let through when nobody is applying and its predicate accepts the facts of the disk; what was applied before is no hindrance. |
| `Outcomes.ApplyLeaves` | src/staging.rs:498-562 | Whatever is let through was staged, found nobody applying, passed its predicate on those facts, and is now at `Applying`. |
| `Outcomes.PutIsGrantedIff` | src/staging.rs:1278-1370 | A put is granted exactly to bytes that hash to their digest, in a plan that is downloading. |
| `Outcomes.PutLeaves` | src/staging.rs:1304-1369 | It leaves the bytes among the blobs of its kind, under their hash, and nothing else. |
| `Outcomes.RetainLeaves` | src/staging.rs:895-932 | Retention evicts as many terminal plans as are beyond the budget, none newer than one it keeps, with all their files and one line each, and nothing else. |
| `Outcomes.EffectKeepsGood` | src/staging.rs:1650-1676 | Every disciplined call, however it ends, leaves a good disk good. |
| `UpdatesRoot.UpdatesRoot.Execute` | src/staging.rs:1650-1676 | A script runs to its end or to the first fault; exactly the writes before it took effect, and the faulting one if its rename had happened. |
| `UpdatesRoot.UpdatesRoot.AcquireLock` | src/staging.rs:1721-1758 | Refused at once, with no effect, when this thread holds the lock. |
| `UpdatesRoot.UpdatesRoot.ScanPlans` | src/staging.rs:812-869 | A complete scan, or, when strict, an error exactly if some marker is untrusted. |
| `UpdatesRoot.UpdatesRoot.Begin` | src/staging.rs:407-475 | Runs a decided script or a prefix of it; an existing plan or a held lock changes nothing. With a free lock and no fault it succeeds when the plan may begin and its gate is open; on success these held and the disk is the old one with document, signature, marker and line. |
| `UpdatesRoot.UpdatesRoot.Transition` | src/staging.rs:1402-1462 | The same for a legal transition: with a free lock and no fault it succeeds exactly then, and only that marker and the log change. |
| `UpdatesRoot.UpdatesRoot.BeginApplyChecked` | src/staging.rs:498-562 | Ok means `Applying`, from `Staged`, with nobody applying and the predicate true of the facts of the disk; when all this holds, the lock is free and nothing faults, it is Ok. An error leaves the disk alone, unless the fault was after the marker's rename: in its directory fsync or in the audit line, and then the plan is at `Applying`. |
| `UpdatesRoot.UpdatesRoot.Admit` | src/staging.rs:486-491 | A predicate runs under the lock; each locking call it tries is answered with an error and changes nothing, so its decision rests on the facts. |
| `UpdatesRoot.UpdatesRoot.Call` | src/staging.rs:1721-1731 | Any locking call: refused with no effect when this thread holds the lock, otherwise a decided script or a prefix of it runs. |
| `UpdatesRoot.UpdatesRoot.FindApplying` | src/staging.rs:628-631 | Finds an entry at `Applying` exactly if there is one. |
| `UpdatesRoot.UpdatesRoot.PutBlobFile` | src/staging.rs:1278-1370 | On success the disk is the old one with the bytes under their hash in the plan's directory for their kind; refused with no effect unless the plan is downloading and the bytes are the digest's; otherwise, with a free lock and no fault, it succeeds. |
| `UpdatesRoot.UpdatesRoot.ApplyRetention` | src/staging.rs:895-932 | Evicts exactly the terminal plans beyond the budget, the newest kept, each with all its files and its line, and reports exactly the evicted ones. |
| `UpdatesRoot.UpdatesRoot.CasPutBytes` | src/staging.rs:959-974 | On success the map of the store is updated at this digest, and no other file changed; refused with no effect exactly for bytes that are not the digest's, else it succeeds with a free lock and no fault. |
| `UpdatesRoot.UpdatesRoot.CasGet` | src/staging.rs:979-992 | Succeeds exactly when a file stands under the digest whose bytes hash to it, and gives those bytes. |
| `UpdatesRoot.UpdatesRoot.CasContains` | src/staging.rs:997-1009 | What is said to be held can be fetched, and on a store of well-filed blobs nothing else; false for a malformed digest. |
| `UpdatesRoot.UpdatesRoot.CasList` | src/staging.rs:1013-1045 | Lists the canonical digests of the well-formed names; with blobs under their hashes, exactly the keys of the map. |
| `UpdatesRoot.UpdatesRoot.CasRemoveBlob` | src/staging.rs:1049-1058 | On success the map has lost that key and no other, whether or not it was there. |
| `UpdatesRoot.UpdatesRoot.WriteImportReceipt` | src/staging.rs:1074-1096 | The signature goes first, so a receipt never stands without one, whatever fails; on success the pair is the one written. |
| `UpdatesRoot.UpdatesRoot.ReadImportReceipt` | src/staging.rs:1101-1115 | None exactly without a receipt; with one, both files or an error. |
| `UpdatesRoot.UpdatesRoot.CheckDigests` | src/staging.rs:1141-1154 | One pass over the digests: the missing ones in order, or a malformed one. |
| `UpdatesRoot.UpdatesRoot.PreflightDigests` | src/staging.rs:1134-1164 | For well-formed digests the answer is the exact list of missing ones, in order; success means exactly that every artifact and binary is carried or held. |
| `CasStore.ListingIsExact` | src/staging.rs:1013-1045 | On a good disk the listing is exactly the set of digests the store holds. |
| `CasStore.CanonicalIff` | src/staging.rs:1013-1045 | A digest is listed exactly if some file of the store is named after 64 hex digits, of either case, that spell it. |
| `CasStore.WantedIff` | src/staging.rs:1141-1154 | Wanted are the digests of all artifacts and of all binaries. |
| `CasStore.MissingIsExact` | src/staging.rs:1141-1154 | A digest is reported missing exactly when it is wanted and neither carried nor held. |
| `CasStore.PutWritesHold` | src/staging.rs:959-974 | After putting blobs one by one the store holds what it held and exactly those whose bytes hash to their digest, each under its hash. |
| `CasStore.PreflightSuffices` | src/staging.rs:1125-1134 | After a successful preflight and a put of every carried blob, every digest of the plan can be fetched: held, with bytes that hash to it. |
| `CasStore.WriteRefinesStore` | src/staging.rs:943-1058 | Every permitted write does to the store's files what it does to the map from digests to bytes; plan writes and evictions do nothing to it. |
| `CasStore.HeldIsFetchable` | src/staging.rs:979-1009 | On a good disk, presence and a successful fetch are the same. |
| `CasStore.ScriptRefinesStore` | src/staging.rs:959-1058 | After any part of what a request decided, the map is as before or as the operation makes it; after all of it, as the operation makes it. |
| `UpdatesRoot.ReceiptPrefix` | src/staging.rs:1084-1095 | Stopping between the two receipt writes keeps the signature beside the receipt. |
| `Envelope.ValidatePathIsAllowlist` | src/envelope.rs:1140-1181 | The absolute-path and parent-step tests refuse nothing the allowlist accepts: paths after the first four are blobs and the rotation pair. |
| `Envelope.NameIff` | src/envelope.rs:1094-1099 | One leading `./` of an entry path is dropped, and nothing else. |
| `Envelope.OrderIsGrammar` | src/envelope.rs:786-911 | The positional checks, flags and seen-set accept exactly: four head entries, distinct blobs, then optionally the rotation and optionally its signature. |
| `Envelope.AcceptableShape` | src/envelope.rs:612-911 | An acceptable archive is a sentence of that grammar and repeats no path. |
| `Envelope.AcceptableAgreesWithManifest` | src/envelope.rs:688-692 | Every path but the manifest pair is listed, every listed path is present, and what is taken of each body has the digest and size of the last entry for its path. |
| `Envelope.BlobKeyIsHashIff` | src/envelope.rs:823-865 | In an accepted archive a blob hashes to its key exactly when the last manifest entry for its path declares the digest that the path names. |
| `Envelope.BlobKeyIsHash` | src/envelope.rs:511-519 | So every blob does when the manifest names each by its digest, as the builder makes it. |
| `WireWitnesses.MislabelledIsAccepted` | src/envelope.rs:823-865 | A signed archive that files any body under a digest the plan names is accepted. |
| `WireWitnesses.MislabelledBlob` | src/envelope.rs:823-865 | An accepted archive with a blob whose key is not its hash. |
| `Authenticity.ManifestIff` | src/envelope.rs:669-686 | The manifest that is trusted is one of this schema whose hash a trusted signature states under the manifest's predicate type; without such a signature there is none. |
| `Authenticity.SignatureIsForIt` | src/envelope.rs:669-677 | The statement signed is about that manifest's bytes and no others. |
| `Authenticity.LastEntryIff` | src/envelope.rs:689-692 | The entry that counts for a path is one that no later entry for the path follows. |
| `Authenticity.AuthenticIff` | src/envelope.rs:669-921 | Content is authentic exactly if a signed manifest and a signed plan vouch for it: every listed path is there, every body has hash and size of the last entry for its path, every blob is an artifact or a binary of the plan. |
| `Authenticity.AcceptableIff` | src/envelope.rs:585-932 | Acceptance is the grammar of names, regular entries, the limits, and content that a signed manifest and a signed plan vouch for, and nothing more. |
| `Envelope.ExtractedWithinLimits` | src/envelope.rs:803-845 | What is extracted of an acceptable archive's plan pair and blobs is within the entry limit, whatever length the tar layer yields. |
| `Envelope.ManifestLimitIsOnHeader` | src/envelope.rs:624-637 | With headers that say zero, an acceptable archive stays acceptable under a manifest limit of zero, its manifest unchanged. |
| `EnvelopeScanner.Source.Draw` | src/envelope.rs:1065-1080 | Reading for the tar layer succeeds exactly within the remaining budget, which must not be spent. |
| `EnvelopeScanner.Source.NextEntry` | src/envelope.rs:1071-1091 | The next entry, or the end after a whole archive; what was left of the last body and the hidden bytes before the header count against the budget, and with none left even looking is refused. |
| `EnvelopeScanner.Source.ReadSome` | src/envelope.rs:1071-1079 | A read yields as much as the stream pleases, but something before the end, and fails exactly when the budget is spent. |
| `EnvelopeScanner.ReadBody` | src/envelope.rs:1247-1254 | Gives the whole body exactly if it fits the remaining budget. |
| `EnvelopeScanner.CheckTotalAndRatio` | src/envelope.rs:1219-1241 | Succeeds exactly within the ratio; the test of the total never fails. |
| `EnvelopeScanner.StreamEntryToFile` | src/envelope.rs:1319-1377 | Succeeds exactly when the budget suffices and the ratio holds after every read, whatever the pattern of short reads; what is then written is the body up to its header's size, with the hash and length of exactly that. |
| `EnvelopeScanner.BuildExpected` | src/envelope.rs:688-692 | The map holds, for each path, the last manifest entry. |
| `EnvelopeScanner.SumDeclared` | src/envelope.rs:695 | The sum of declared sizes modulo 2^64. |
| `Envelope.DeclaredTotalAdds` | src/envelope.rs:695 | The declared total is the sum of the sizes. |
| `EnvelopeScanner.VerifyEntryDigestSize` | src/envelope.rs:1292-1314 | Succeeds exactly when digest and size are the entry's. |
| `EnvelopeScanner.ReadHead` | src/envelope.rs:612-702 | Succeeds exactly for an acceptable manifest that keeps the ratio, on inputs within the budget; what it hands on is signed, with the keys that signed it. |
| `EnvelopeScanner.ReadPlan` | src/envelope.rs:704-772 | The same for the plan pair, verified before any blob is extracted. |
| `EnvelopeScanner.CopyBlob` | src/envelope.rs:836-865 | A blob is kept exactly if what its header's size leaves of its body is what the manifest entry declares, within budget and ratio; the rest of the body is left for the next step to pass over. |
| `EnvelopeScanner.ReadRotation` | src/envelope.rs:866-905 | The same for the rotation entries. |
| `EnvelopeScanner.ScanEntry` | src/envelope.rs:786-911 | One later entry is accepted exactly if count, header size, order, path, listing, plan reference, budget and ratio allow it. |
| `EnvelopeScanner.ScanTail` | src/envelope.rs:786-911 | The loop accepts exactly acceptable tails that keep the ratio wherever it is tested, in a whole archive within the budget. |
| `EnvelopeScanner.CheckComplete` | src/envelope.rs:914-921 | Every manifest path was seen. |
| `EnvelopeScanner.ReadFront` | src/envelope.rs:612-770 | The first four entries pass exactly if signed, listed and within limits and ratio, and leave the signed manifest, its map, the plan's digests, two files and four names. |
| `EnvelopeScanner.ScanEnvelope` | src/envelope.rs:585-932 | Succeeds exactly on acceptable archives that keep the ratio at every point where it is tested; then a signed plan and the manifest it returns, signed by the keys it returns, vouch for exactly the content extracted. Without a signed manifest it is an error. |
| `EnvelopeScanner.NoBombKeepsRatios` | src/envelope.rs:1219-1241 | An archive whose stream never outgrows the ratio keeps it at all those points, however reads are cut. |
| `EnvelopeScanner.FilesOfLookup` | src/envelope.rs:836-905 | Each extracted file is what the scanner takes of the entry of its name. |
| `EnvelopeScanner.FilesOfNames` | src/envelope.rs:836-905 | Nothing but entries after the manifest pair is extracted. |
| `EnvelopeScanner.BlobsOfLookup` | src/envelope.rs:823-865 | The blob map has a key exactly for each blob entry's digest, and leads to a blob of that name. |
| `EnvelopeBuilder.Builder.AddPlan` | src/envelope.rs:428-435 | Accepts exactly plans that parse. |
| `EnvelopeBuilder.Builder.AddBlob` | src/envelope.rs:445-482 | Accepts exactly bytes that hash to the digest, once for each spelling. |
| `EnvelopeBuilder.Builder.Finish` | src/envelope.rs:488-566 | With a plan, gives a manifest of that plan that lists the plan pair and each blob with all that was said of it, and the archive of exactly the added blobs when their hexes are distinct, one entry for each in any case. |
| `EnvelopeBuilder.BuiltIsAcceptable` | src/envelope.rs:488-566 | An archive built from a plan that verifies and distinct blobs it names is acceptable under sufficient limits. |
| `EnvelopeBuilder.AcceptableWasClean` | src/envelope.rs:831-865 | Conversely, a built archive that is acceptable had distinct blobs named by a plan that verifies. |
| `EnvelopeBuilder.ClashIsRefused` | src/envelope.rs:464-468 | Digests that differ in letter case only are refused by the scanner. |
| `WireWitnesses.TwoSpellings` | src/envelope.rs:464-468 | Of any bytes whose hash has a letter digit, two calls of the builder take both spellings, and no archive it can then make is acceptable. |
| `EnvelopeBuilder.BuildThenScanIff` | src/envelope.rs:488-566 | Of all archives the builder can return, a scan accepts exactly those with distinct hexes, a plan that verifies, and every blob named by it. |
| `EnvelopeBuilder.BuiltFilesComeBack` | src/envelope.rs:585-932 | The scan gives back the plan pair and, at each digest, exactly the bytes that were added. |
| `EnvelopeBuilder.BuildThenScan` | src/envelope.rs:1685-1742 | Finishing a builder whose plan verifies and names its distinct blobs, then scanning within limits and space, succeeds exactly when the ratio holds where it is tested, and gives back the same manifest, the plan pair and every byte added. |
| `Sse.ParserMeetsBlocks` | src/stream.rs:231-331 | The incremental parser delivers exactly the frames of a block-by-block reading. |
| `Sse.FramesWithinCap` | src/stream.rs:314-317 | Every delivered frame has a non-empty payload within the cap, however lines come. |
| `Sse.PayloadMeetsStandardIff` | src/stream.rs:309-313 | A block's payload is the standard's joined data exactly when no leading empty data line is followed by another one. |
| `Sse.SplitAtBlankLine` | src/stream.rs:279-286 | Split after a blank line, the input parses to the two parses one after the other, whatever overlong line or frame came before. |
| `Sse.OpenBlockPending` | src/stream.rs:279-286 | At any point a blank line would dispatch exactly the meaning of the lines since the last one. |
| `Sse.LastWins` | src/stream.rs:318-325 | The last line of a block that names an id, or an event, decides. |
| `SseLines.ChompIff` | src/stream.rs:262-275 | What the text of a line is: either line end, or none, is taken off, and nothing else. |
| `SseLines.OverlongIff` | src/stream.rs:239-261 | A line is discarded exactly if it is longer than the cap without its line feed. |
| `SseLines.BlankIff` | src/stream.rs:279-286 | A blank line is nothing but a line end. |
| `SseLines.TextMeaning` | src/stream.rs:287-326 | A text gives a field a value exactly if it is valid UTF-8 and is the field, a colon, at most one space that does not count, and the value. |
| `SseLines.GivesIsRead` | src/stream.rs:294-326 | With or without the space, ended either way, such a line is read as that field and value. |
| `SseLines.RespelledStream` | src/stream.rs:239-326 | Writing fields with or without the space, and lines with either line end, delivers the same frames. |
| `Utf8.Utf8Iff` | src/stream.rs:276-278 | Text is accepted as UTF-8 exactly if it encodes a sequence of Unicode scalar values. |
| `SseReader.BufReader.FillBuf` | src/stream.rs:251-254 | The buffered bytes, none exactly at the end; an error exactly there if the stream fails. |
| `SseReader.ReadUntil` | src/stream.rs:241-244 | The first line cut at the limit; nothing is lost or reordered, and no more than the limit is held. |
| `SseReader.Drain` | src/stream.rs:250-261 | Drops exactly the rest of the line, whatever the chunks. |
| `SseReader.NextLine` | src/stream.rs:239-297 | One line of the input and what it means, for any chunking; each call makes progress. |
| `SseReader.ReadFrames` | src/stream.rs:231-331 | For every chunking the callback gets exactly the frames of the input, up to the one it refuses or the end; line buffer, identifier, event name and payload, counted while a value is appended, never hold more than one payload cap, four line caps and a byte. |
| `SseEncode.FieldLineRoundTrip` | src/stream.rs:294-326 | A field line is read back as the field and value it was written from. |
| `SseEncode.FrameRoundTrip` | tests/stream.rs:26-37 | An encoded event followed by anything parses to that event, then to the rest. |
| `SseEncode.StreamRoundTrip` | tests/stream.rs:39-72 | A stream of encoded events parses back to exactly those events. |
| `SseEncode.CutDeliversPrefix` | src/stream.rs:239-247 | What arrived before a cut delivers the first of the stream's frames. |
| `SseEncode.TornReturnDispatchesEarly` | src/stream.rs:267-286 | A body torn after a carriage return may deliver a frame the whole one does not. |
| `SseEncode.CleanCutIsSafeIff` | src/stream.rs:267-286 | A clean end is safe, whatever was lost, exactly when the body is not torn that way. |
| `WireWitnesses.TornBody` | src/stream.rs:267-286 | One such body: a data line, then a carriage return without its line feed. |
| `ReconnectDelay.DoubledBase` | src/stream.rs:124-125 | Doubling the capped delay and capping again gives the next capped power of two. |
| `ReconnectDelay.BaseMonotone` | src/stream.rs:119-125 | Delays never shrink between resets. |
| `ReconnectDelay.Backoff.Reset` | src/stream.rs:115-117 | Back to the floor; the jitter seed goes on. |
| `ReconnectDelay.Backoff.NextDelay` | src/stream.rs:123-136 | The k-th delay since a reset lies between min(2^(k-1) s, max) and that plus 249/1000 of it. |
| `Reconnect.ConnectAndRead` | src/stream.rs:343-385 | The consumer gets exactly the plan events that a success answer (200 to 299) carries, up to its break; without one it gets nothing and the call fails; 404 and 501 are the only "unsupported" answers. |
| `Reconnect.FramesToEvents` | src/stream.rs:367-381 | Filtering frames to plan events commutes with stopping at a break. |
| `Reconnect.FrameCarries` | src/stream.rs:367-381 | A frame carries the event it parses to, exactly if it is called `plan` and the event has this schema. |
| `Reconnect.HighestIsMaximum` | src/stream.rs:420-421 | The cursor is the maximum of its start and all delivered sequences. |
| `Reconnect.Resume` | src/stream.rs:389-400 | After any prefix of the missing events, those above the new cursor are exactly the ones not yet delivered. |
| `Reconnect.DeliveredIncreasing` | src/stream.rs:389-400 | Gap-free deliveries from an increasing log are strictly increasing and above the start. |
| `Reconnect.EncodingServerIsHonest` | src/stream.rs:343-385 | A server that encodes what lies above each cursor is an honest one, wherever its bodies are cut. |
| `Reconnect.EncodedLogIsDelivered` | src/stream.rs:343-430 | Against such a server any run delivers the first of what was missing, strictly increasing, and what lies above its cursor is exactly the rest. |
| `Reconnect.CutBodyIsHonest` | src/stream.rs:367-383 | A body cut at any byte carries a prefix of the events written into it. |
| `Reconnect.Pause` | src/stream.rs:446-454 | Reset after a healthy attempt, then the next delay: delays fit the number of attempts since the last healthy one. |
| `Reconnect.Attempt` | src/stream.rs:415-430 | One attempt with the current cursor delivers what its answer carries and moves the cursor to the highest. |
| `Reconnect.Pass` | src/stream.rs:411-452 | One pass of the loop either goes on with everything kept, or ends for a reason that is the run's. |
| `Reconnect.RunStream` | src/stream.rs:401-456 | However many passes are followed, the run is exactly a series of attempts until a stop, a break or an unsupported server; the cursor is the highest sequence and deliveries against an honest server are gap-free. The delay after `k` empty attempts of less than 30 s, since the first or one that delivered or lasted longer, is `k` doublings of 1 s, capped at 60 s, and up to 249/1000 more. |
| `Reconnect.GoingOnMeansNoStop` | src/stream.rs:411-452 | A loop that goes on was not asked to stop: the first stop ends it. |
| `BinSwap.ExpectedHexIff` | src/binswap.rs:488-503 | An expected digest matches exactly the hex it spells: spaces around it, an optional prefix, either case. |
| `BinSwap.CrashStateIsWhole` | src/binswap.rs:150-162 | At every crash point the target is wholly old or wholly new; if new, the rollback copy is the old one; other files are untouched. |
| `BinSwap.Filesystem.WriteAll` | src/binswap.rs:556-562 | Copies in pieces of any size; every tree on the way holds a prefix. |
| `BinSwap.Filesystem.CopyToPrev` | src/binswap.rs:193-217 | The rollback copy, torn only by a failure; the target is not touched. |
| `BinSwap.Filesystem.AtomicInstall` | src/binswap.rs:538-600 | The rename is the one commit point; before it a failure leaves the old target, after it only the directory fsync can fail. |
| `BinSwap.Filesystem.SwapBinary` | src/binswap.rs:163-221 | A bad digest or missing target changes nothing; every tree on the way is a crash state; an error with the new binary in place is the last fsync; without fault it succeeds exactly when digest and target allow. |
| `BinSwap.Filesystem.RestorePrev` | src/binswap.rs:228-234 | One rename takes the copy away and puts it at the target; without a copy, or on a failure, nothing changes. |
| `BinSwap.RunHoldsLatest` | src/binswap.rs:163-221 | After any series of attempts, failed ones among them, the target holds the last version installed. |
| `BinSwap.RestoreUndoesSwap` | src/binswap.rs:223-234 | After a series that ends in a successful swap, restoring gives the version before it. |
| `BinSwap.RestoreAfterFailedCopyIff` | src/binswap.rs:193-207 | After a swap that failed while copying, restoring gives the running version exactly when the rollback copy and the target have the same size. |
| `BinSwap.TornRollback` | src/binswap.rs:193-234 | A swap that fails in its copy, then a restore: a two-byte target is left with one byte. |
| `Paths.WalkStaysInside` | src/binswap.rs:508-531 | A path without parent steps ends inside the directory it starts from, at its file name. |
| `Unpack.SafePathStaysInside` | src/binswap.rs:508-531 | So does every accepted entry path, in any directory. |
| `Unpack.DecidesOnce` | src/binswap.rs:302-344 | The search ends at one place, whatever the archive. |
| `Unpack.SelectsIff` | src/binswap.rs:302-344 | Selected is the first regular file of the name, if all up to it is relative, free of parent steps, no link in a tar archive, and declared within the cap. |
| `Unpack.SelectsOnce` | src/binswap.rs:336-342 | At most one entry is ever selected. |
| `Unpack.LaterEntriesDoNotMatter` | src/binswap.rs:338-342 | Whether an entry is selected does not depend on what follows it. |
| `Unpack.SelectedNameIsOneLevel` | src/binswap.rs:299-342 | A name that selects an entry is one segment, so joining it leads to an entry of the destination directory. |
| `Unpack.CopyOut` | src/binswap.rs:397-410 | At most one byte more than the cap is ever written, and to the destination only. |
| `Unpack.ExtractTo` | src/binswap.rs:397-432 | The whole content on success; content over the cap is refused and removed again. |
| `Unpack.UnpackEntries` | src/binswap.rs:302-393 | Selects exactly the first match whose predecessors are all safe and within the cap; 64-bit overflow of the total never changes the answer. |
| `Unpack.FormatIff` | src/binswap.rs:272-283 | The names that end in `.tgz` or `.tar.gz`, and those that end in `.zip`, announce the two formats. |
| `Unpack.UnpackReleaseBinary` | src/binswap.rs:257-282 | The format follows the name; an unsupported or unreadable archive writes nothing; success puts exactly the selected entry at the destination. |

## Left out

- HTTP, TLS, certificates and enrolment (`src/tls.rs`, `src/enroll.rs`); a connection is a list of chunks with a status and an end.
- `src/catalogue.rs`, `check_compat` and stage names: they would only add easy members.
- The byte formats of JSON, tar, zstd, gzip, zip and DSSE; an archive is its list of entries, with the bytes the tar layer consumes unseen counted per entry.
- Symbolic links, file modes, `self-replace` on Windows, container detection, root resolution from the environment.
- Leftover temporary files of the staging area and the `.lock` file itself; directories exist where files are.
- `remove_dir_all` is one step. A torn removal is not modelled.
- Loss of unsynced data on power failure: a crash keeps the writes made so far. Fsync is a step that may fail.
- Plan fields that these files only carry (version, source, target, compatibility, rollback) and audit fields other than plan, verb and stages.
- Which error is reported first, and its text, except where a contract names it.
- The compression ratio is a real number, not a floating-point one.
- An archive that breaks off inside a body is not intact as a whole; the partial read of that body is not followed.
- Failures of the file system while building or scanning an envelope; the quarantine directory is a map of the files extracted.
- Wall-clock time: the clock is a value given to each call, uptime and stop answers are given to the event loop.
- ReconnectDelay.Backoff.constructor: a maximum so large that a duration multiplication overflows is excluded, since the source panics there.
- Reconnect.RunStream: follows as many passes as it is asked to, since a method here must end; the source's loop has no bound.
- Unpack.UnpackEntries: the cap is below the largest 64-bit number, as the only caller's 512 MiB is.
- BinSwap.Filesystem.SwapBinary: a target that is a directory or has no parent is not modelled; permission and cross-device errors are one I/O error.
