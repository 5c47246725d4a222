/**
 * The data exchanged with the packaging server: assets, schedule entries,
 * schedules and channels, and the time line a schedule lays out in GoPs.
 */
module Types {

  /** An asset directory found on disk: its id, its absolute path, and its length in GoPs. */
  datatype AssetPath = AssetPath(id: string, path: string, len: int)

  /**
   * One entry of a schedule. `offset` is the first GoP played inside the asset
   * and `len` the number of GoPs played; the server resolves a negative offset
   * (from the end) and a zero length (until the end of the asset).
   */
  datatype Entry = Entry(name: string, assetID: string, offset: int, len: int, scteEventID: int)
  {
    /** A positive SCTE-35 event id marks an ad. */
    predicate IsAd()
    {
      scteEventID > 0
    }
  }

  /**
   * A channel's schedule: `entries[0]` starts at GoP `gopNrAtScheduleStart`
   * and every entry starts where the previous one ends.
   */
  datatype Schedule = Schedule(gopNrAtScheduleStart: int, gopNrAfterLastAd: int, entries: seq<Entry>)

  /** Why an operation of the scheduler did not complete. */
  datatype Error =
    | NoSuchAssetKind(kind: string)   // no asset path contains "/<kind>s/"
    | EntryIndexOutOfRange            // the last entry of an empty list was asked for
    | ContentDurationMissing
    | GopDurationMissing
    | AbsPathFailed
    | TransportError                  // the HTTP request failed or the server answered with a message
    | DecodeError                     // the server's answer is not a schedule

  /** What the server answers when a schedule is sent to it or asked from it. */
  datatype ServerReply =
    | Canonical(schedule: Schedule)   // the server's resolved version of the schedule
    | TransportFailure
    | DecodeFailure

  /** The number of GoPs covered by consecutive entries. */
  function SumLens(es: seq<Entry>): int
  {
    if es == [] then 0 else SumLens(es[..|es| - 1]) + es[|es| - 1].len
  }

  /** Summing from the front gives the same total as summing from the back. */
  lemma {:induction false} SumLensFront(es: seq<Entry>)
    requires es != []
    ensures SumLens(es) == es[0].len + SumLens(es[1..])
  {
    if |es| == 1 {
      assert es[..0] == [] && es[1..] == [];
    } else {
      var init := es[..|es| - 1];
      SumLensFront(init);
      assert init[1..] == es[1..][..|es[1..]| - 1];
    }
  }

  /** A slice extended by the element after it. */
  lemma SliceExtend<T>(s: seq<T>, lo: nat, hi: nat)
    requires lo <= hi < |s|
    ensures s[lo..hi + 1] == s[lo..hi] + [s[hi]]
  {
  }

  /** Extending a prefix by one entry adds that entry's length. */
  lemma SumLensStep(es: seq<Entry>, i: nat)
    requires i < |es|
    ensures SumLens(es[..i + 1]) == SumLens(es[..i]) + es[i].len
  {
    assert es[..i + 1][..i] == es[..i];
  }

  /** The GoP at which entry `i` starts (for `i == |entries|`: where the schedule ends). */
  function EntryStart(s: Schedule, i: nat): int
    requires i <= |s.entries|
  {
    s.gopNrAtScheduleStart + SumLens(s.entries[..i])
  }

  /** The GoP just after entry `i`. */
  function EntryEnd(s: Schedule, i: nat): int
    requires i < |s.entries|
  {
    EntryStart(s, i + 1)
  }

  /** The GoP just after the last entry. */
  function ScheduleEnd(s: Schedule): int
  {
    s.gopNrAtScheduleStart + SumLens(s.entries)
  }

  /** Entries are contiguous: each one ends `len` GoPs after it starts, and the last one ends the schedule. */
  lemma EntriesContiguous(s: Schedule, i: nat)
    requires i <= |s.entries|
    ensures i < |s.entries| ==> EntryEnd(s, i) == EntryStart(s, i) + s.entries[i].len
    ensures EntryStart(s, |s.entries|) == ScheduleEnd(s)
  {
    if i < |s.entries| {
      assert s.entries[..i + 1][..i] == s.entries[..i];
    }
    assert s.entries[..|s.entries|] == s.entries;
  }

  /**
   * A channel on the packaging server. Its configuration is fixed once it
   * is created; the scheduler replaces `schedule` and advances
   * `lastSCTEEventID` in place.
   */
  class Channel {
    const name: string
    const gopDurMS: int
    const nrGopsPerSeg: int
    const contentTemplatePath: string
    const startTimeS: int
    const doLoop: bool
    const slidingWindowNrGops: int
    const futureScheduleNrGops: int
    var schedule: Schedule
    var lastSCTEEventID: int

    constructor (name: string, gopDurMS: int, nrGopsPerSeg: int, contentTemplatePath: string,
                 startTimeS: int, doLoop: bool, schedule: Schedule,
                 slidingWindowNrGops: int, futureScheduleNrGops: int)
      ensures this.name == name && this.gopDurMS == gopDurMS && this.nrGopsPerSeg == nrGopsPerSeg
      ensures this.contentTemplatePath == contentTemplatePath
      ensures this.startTimeS == startTimeS && this.doLoop == doLoop
      ensures this.slidingWindowNrGops == slidingWindowNrGops
      ensures this.futureScheduleNrGops == futureScheduleNrGops
      ensures this.schedule == schedule && this.lastSCTEEventID == 0
    {
      this.name := name;
      this.gopDurMS := gopDurMS;
      this.nrGopsPerSeg := nrGopsPerSeg;
      this.contentTemplatePath := contentTemplatePath;
      this.startTimeS := startTimeS;
      this.doLoop := doLoop;
      this.schedule := schedule;
      this.slidingWindowNrGops := slidingWindowNrGops;
      this.futureScheduleNrGops := futureScheduleNrGops;
      this.lastSCTEEventID := 0;
    }
  }
}
