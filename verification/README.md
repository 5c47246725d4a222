# v2l example scheduler — schedule update model

This project models, in Dafny, the core of the v2l example scheduler: the
program that keeps a rolling schedule of video assets for a channel on a
packaging server. Every tick, `UpdateSchedule` drops the head entry once it
has aired and left the sliding window, appends one program or ad entry when
the end of the schedule comes within the look-ahead of "now" (ads carry
fresh, increasing SCTE-35 event ids), and uploads the schedule when it
changed, keeping the server's canonical answer. The model also covers the
GoP arithmetic, the seed schedule a channel is created with, asset selection
by kind, and the arithmetic of an asset's length in GoPs.

Modules (one per source file, plus two helpers):

- `Wrappers` — `Option`, `Result`, `Outcome` in place of Go's `(value, error)` pairs and panics.
- `GoInt` — Go's truncating integer division `Quo` (Dafny's `/` is Euclidean).
- `Types` (`v2l/json.go`) — `AssetPath`, `Entry`, `Schedule`, the `Channel` class, the
  error kinds, the server's reply, and the time line of a schedule (`SumLens`,
  `EntryStart`, `EntryEnd`, `ScheduleEnd`).
- `AssetPaths` (`v2l/assetpaths.go`) — `Contains` (Go's `strings.Contains`), the candidate
  filter, `PickEntry` / `RandomEntry`, `AssetLen`.
- `ScheduleUpdate` (`v2l/schedule.go`) — the specification of one tick (`Evict`, `Propose`,
  `NextSCTEEventID`, `Commit`, `TickSchedule`), its lemmas, and the imperative
  `DropExpiredHead` and `UpdateSchedule` proved against it.
- `Channels` (`v2l/channel.go`) — `NowToSegNr`, `StartGopNr`, `SeedSchedule`, `CreateChannel`.

Inputs that are not computed by the scheduler are parameters: the current
time in milliseconds (`nowMS`), the random pick (`draw`: the source's
`rand.Intn(n)` is `draw % n`), and the server's answers (`ServerReply`:
the canonical schedule, a transport failure, or an undecodable body;
`posted` for the outcome of creating the channel; `absTemplatePath` for
making the template path absolute). Go panics that the code can reach are
error results: no asset of a kind (`NoSuchAssetKind`) and asking for the
last entry of an empty list (`EntryIndexOutOfRange`). Division by zero is
a precondition (`gopDurMS != 0`, `nrGopsPerSegment != 0`).

Where the code disagrees with itself, the model follows the calling code:

- `randomEntry` is defined with three parameters and copies the asset's own
  length into the entry, but every caller passes five (kind, offset, length,
  SCTE id). The model follows the callers: offset and length are passed through,
  and `AssetPath` carries the length field that `DiscoverAssetPaths` fills in.
  Every caller passes offset 0, so every entry the scheduler builds has offset 0.
  The `len` field of `AssetPath` is carried but read by no modelled member, since
  the callers pass the length themselves; `AssetLen` is the arithmetic that
  `DiscoverAssetPaths` uses to fill it in.
- `CreateChannel` sets a `ContentTemplatePath` field that the `Channel` struct in
  `v2l/json.go` does not declare; the model's `Channel` has it.
- A failed upload is not free of local effects: `LastSCTEEventID` is advanced
  before the upload, and stays advanced when the upload or decoding fails, so
  ids are never reused. The model keeps this behaviour.
- Eviction uses the code's boundary: the head goes when its end is at or
  before `now - slidingWindow` (`gopsUntilNextDrop <= 0`).

## Model

| member | source | states |
|---|---|---|
| `GoInt.Quo` | v2l/schedule.go:93 | Go's integer `/`: the remainder is smaller than the divisor in magnitude and has the sign of the dividend (truncation toward zero) |
| `ScheduleUpdate.NowToGopNr` | v2l/schedule.go:91-94 | for a positive GoP duration the result is the GoP containing `nowMS`: `r*g <= nowMS < (r+1)*g` and `r >= 0` for times after the epoch; before the epoch it rounds toward zero |
| `Channels.NowToSegNr` | v2l/channel.go:101-104 | the segment before the current one: `(r+1)*seg <= nowMS < (r+2)*seg` for positive durations and `nowMS >= 0` |
| `Channels.StartGopNr` | v2l/channel.go:15 | the channel start is a multiple of `nrGopsPerSegment`, and for positive durations and `nowMS >= 0` lies exactly one whole segment before the segment containing now |
| `AssetPaths.ContainsIffOccurs` | v2l/assetpaths.go:77 | `Contains(s, sub)` holds exactly when some slice of `s` equals `sub` |
| `AssetPaths.CandidatesMembers` | v2l/assetpaths.go:74-80 | an asset is a candidate exactly when it is in the list and its path contains `"/" + kind + "s/"` |
| `AssetPaths.CandidatesCounts` | v2l/assetpaths.go:76-80 | every occurrence of an asset of the kind is kept and no other: each asset is a candidate as many times as it is listed if it has the kind, else never |
| `AssetPaths.CandidatesInOrder` | v2l/assetpaths.go:76-80 | the candidates are a subsequence of the asset list (relative order kept) |
| `AssetPaths.PickEntry` | v2l/assetpaths.go:73-95 | fails with `NoSuchAssetKind(kind)` exactly when no asset has the kind; otherwise the entry names an asset of that kind (`Name == AssetID == id`) with the requested offset, length and SCTE id |
| `AssetPaths.EveryCandidatePickable` | v2l/assetpaths.go:86 | every candidate index is reachable by the random pick |
| `AssetPaths.RandomEntry` | v2l/assetpaths.go:73-95 | the candidate-collecting loop and the pick compute exactly `PickEntry` |
| `AssetPaths.AssetLen` | v2l/assetpaths.go:109-119 | a zero content duration, else a zero GoP duration, is an error; otherwise the result is the number of whole GoPs in the content |
| `Types.EntriesContiguous` | v2l/schedule.go:29-32 | entries are contiguous from `GopNrAtScheduleStart`: each ends `Len` GoPs after it starts and the last one ends the schedule |
| `Types.Channel.constructor` | v2l/channel.go:31-41 | a new channel holds the given configuration and schedule, with `LastSCTEEventID` at 0 |
| `ScheduleUpdate.Evict` | v2l/schedule.go:29-48 | only the head can be dropped, exactly when its end is at or before `nowGopNr - window`; dropping it raises the start by its length and, for an ad, sets `GopNrAfterLastAd` to its end; otherwise nothing changes |
| `ScheduleUpdate.EvictKeepsEnd` | v2l/schedule.go:32-36 | eviction leaves the end of the schedule (start plus all lengths) unchanged |
| `ScheduleUpdate.EvictKeepsPositions` | v2l/schedule.go:31-48 | after a drop, every remaining entry is the old one at the next index and starts at the same GoP as before |
| `ScheduleUpdate.EvictKeepsAdIds` | v2l/schedule.go:31-48 | eviction keeps ad ids bounded by the counter and increasing |
| `ScheduleUpdate.NextSCTEEventID` | v2l/schedule.go:49-57 | the counter rises by exactly one when an entry is due after a non-ad tail, and otherwise stays |
| `ScheduleUpdate.ProposeShape` | v2l/schedule.go:21-63 | the proposal is the evicted schedule plus at most one entry, added exactly when `end - future - now <= 0`; the added entry starts where the old schedule ended; the proposal is marked changed exactly when an entry was dropped or added |
| `ScheduleUpdate.ProposeAlternates` | v2l/schedule.go:51-57 | after an ad tail a program asset with id 0 is added and the counter stays; after any other tail an ad asset with id counter+1 is added and becomes the counter; the new entry asks for offset 0 and length 0 |
| `ScheduleUpdate.ProposeFails` | v2l/schedule.go:50-57 | the proposal step fails exactly when an entry is due and either no entry is left to follow or no asset of the needed kind exists |
| `ScheduleUpdate.ProposeKeepsAdIds` | v2l/schedule.go:51-57 | if every ad id is at most the counter and ads are in increasing id order, the proposal keeps both with the new counter |
| `ScheduleUpdate.Commit` | v2l/schedule.go:64-81 | an unchanged proposal keeps the current schedule without an upload; a changed one is replaced by the server's canonical schedule, or fails on a transport or decode error; the schedule only ever changes to the server's answer |
| `ScheduleUpdate.TickReplacesOnlyOnAcceptedChange` | v2l/schedule.go:64-87 | over a whole tick, the schedule is replaced only by the server's answer to a changed proposal, and any error leaves it untouched |
| `ScheduleUpdate.TickKeepsAdIds` | v2l/schedule.go:51-81 | across a tick whose upload is answered with a resolution of the proposal (same bookkeeping, names, assets and ids), ad ids stay bounded by the counter and increasing |
| `ScheduleUpdate.DropExpiredHead` | v2l/schedule.go:29-48 | the loop with the running `nextEntryStart` computes `Evict`, the old schedule's end, and whether the head was dropped |
| `ScheduleUpdate.UpdateSchedule` | v2l/schedule.go:15-88 | the channel's counter becomes `NextSCTEEventID` on every path (also when the upload fails), its schedule becomes the schedule after `TickSchedule`, and the returned error is the tick's error |
| `Channels.SeedShape` | v2l/channel.go:18-26 | the seed is a program (id 0) then an ad (id 1), each from an asset of that kind and asking for offset 0 and length 5, starting at the start GoP with `GopNrAfterLastAd == 0`; it fails exactly when a kind has no asset |
| `Channels.CreateChannel` | v2l/channel.go:12-59 | any failure (asset kind, path, upload, fetch, decode, in that order) returns no channel; success returns a fresh channel holding the fetched schedule, `LastSCTEEventID == 1` and the given configuration |

## Left out

- HTTP and JSON (`httpRequest`, `uploadJSON`, `json.Unmarshal`, `printJSON`): the server round trip is the `ServerReply` parameter, and the channel POST is the `posted` flag.
- `CreateChannel` decodes the fetched schedule into the seed variable itself, so fields absent from the answer would keep their seed values; the model takes the decoded schedule as a whole.
- The server's resolution of zero lengths and negative offsets: entries are requested with length 0 and the model never assumes the canonical lengths; `ResolvedFrom` only assumes the server keeps names, assets, ids and bookkeeping.
- `DiscoverAssetPaths`, `os.ReadFile` and `esf.ParseContentInfo` (file system and a library): `AssetLen` takes the two parsed durations.
- `DeleteAllAssetPaths`, `AddAssetPaths`, `DeleteChannel`, `DeleteChannels`, `CreateChannels`: wrappers around HTTP calls or loops over them.
- `main.go`: the ticker loop, signal handling and the API server goroutine (concurrency and plumbing).
- `time.Now()` and `rand.Intn`: replaced by the `nowMS` and `draw` parameters; the logging and its special case for channel "ch1" change no behaviour.
- 64-bit integers: all integers are unbounded, so overflow of `gopDurMS * nrGopsPerSegment` or of the SCTE counter is not modelled.
- A nil `channel.Schedule` pointer: the model's schedule is a value, so the nil dereference panic is not modelled.
- The `MasterAssetID` field of `Channel`: `CreateChannel` never sets it and the scheduler never reads it.
- Live splice-in and splice-out: the modelled source has no such logic.
