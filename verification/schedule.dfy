/**
 * The per-tick schedule update: drop the head entry once it has left the
 * sliding window, append one entry when the end of the schedule comes
 * within the look-ahead, and hand a changed schedule to the server.
 *
 * The pure functions below specify one tick; `UpdateSchedule` performs it
 * on a `Channel` and is proved to agree with them.
 */
module ScheduleUpdate {
  import opened Wrappers
  import opened Types
  import opened GoInt
  import opened AssetPaths

  /** The GoP being produced at `nowMS` milliseconds after the epoch. */
  function NowToGopNr(gopDurMS: int, nowMS: int): (r: int)
    requires gopDurMS != 0
    ensures gopDurMS > 0 && nowMS >= 0 ==> 0 <= r && r * gopDurMS <= nowMS < (r + 1) * gopDurMS
    ensures gopDurMS > 0 && nowMS < 0 ==> (r - 1) * gopDurMS < nowMS <= r * gopDurMS
  {
    assert gopDurMS > 0 ==> var q := Quo(nowMS, gopDurMS);
      (nowMS >= 0 ==> 0 <= q && q * gopDurMS <= nowMS < (q + 1) * gopDurMS) &&
      (nowMS < 0 ==> (q - 1) * gopDurMS < nowMS <= q * gopDurMS) by {
      if gopDurMS > 0 { QuoBrackets(nowMS, gopDurMS); }
    }
    Quo(nowMS, gopDurMS)
  }

  // ---------------------------------------------------------------------
  // Sliding-window eviction
  // ---------------------------------------------------------------------

  /** The head entry has ended at or before the start of the sliding window. */
  predicate HeadExpired(s: Schedule, nowGopNr: int, window: int)
  {
    |s.entries| > 0 && EntryEnd(s, 0) <= nowGopNr - window
  }

  /**
   * The schedule after the eviction step: only the head can go, the start
   * moves past it, and the end of an evicted ad becomes the GoP after the
   * last ad.
   */
  function Evict(s: Schedule, nowGopNr: int, window: int): (r: Schedule)
    ensures r.entries == if HeadExpired(s, nowGopNr, window) then s.entries[1..] else s.entries
    ensures HeadExpired(s, nowGopNr, window) ==>
              && r.gopNrAtScheduleStart == s.gopNrAtScheduleStart + s.entries[0].len
              && r.gopNrAfterLastAd == if s.entries[0].IsAd() then EntryEnd(s, 0) else s.gopNrAfterLastAd
    ensures !HeadExpired(s, nowGopNr, window) ==> r == s
  {
    if s.entries != [] then
      EntriesContiguous(s, 0);
      var headEnd := s.gopNrAtScheduleStart + s.entries[0].len;
      if headEnd - (nowGopNr - window) <= 0 then
        Schedule(headEnd, if s.entries[0].IsAd() then headEnd else s.gopNrAfterLastAd, s.entries[1..])
      else s
    else s
  }

  /** The fields of the evicted schedule, as the eviction pass computes them, and its unchanged end. */
  lemma EvictedFields(s: Schedule, nowGopNr: int, window: int)
    ensures var dropped := s.entries != [] && s.gopNrAtScheduleStart + s.entries[0].len - (nowGopNr - window) <= 0;
            var r := Evict(s, nowGopNr, window);
            && dropped == HeadExpired(s, nowGopNr, window)
            && r.entries == s.entries[(if dropped then 1 else 0)..]
            && r.gopNrAtScheduleStart == s.gopNrAtScheduleStart + (if dropped then s.entries[0].len else 0)
            && r.gopNrAfterLastAd ==
                 (if dropped && s.entries[0].IsAd() then s.gopNrAtScheduleStart + s.entries[0].len else s.gopNrAfterLastAd)
            && ScheduleEnd(r) == ScheduleEnd(s) == EntryStart(s, |s.entries|)
  {
    EntriesContiguous(s, 0);
    EvictKeepsEnd(s, nowGopNr, window);
  }

  /** Eviction does not move the end of the schedule. */
  lemma EvictKeepsEnd(s: Schedule, nowGopNr: int, window: int)
    ensures ScheduleEnd(Evict(s, nowGopNr, window)) == ScheduleEnd(s)
  {
    if HeadExpired(s, nowGopNr, window) {
      SumLensFront(s.entries);
    }
  }

  /** Entries that survive eviction keep both their content and their place on the time line. */
  lemma EvictKeepsPositions(s: Schedule, nowGopNr: int, window: int, i: nat)
    requires HeadExpired(s, nowGopNr, window)
    requires i <= |s.entries| - 1
    ensures var r := Evict(s, nowGopNr, window);
            i <= |r.entries| && EntryStart(r, i) == EntryStart(s, i + 1) &&
            (i < |r.entries| ==> r.entries[i] == s.entries[i + 1])
  {
    var es := s.entries[..i + 1];
    SumLensFront(es);
    assert es[1..] == s.entries[1..][..i];
  }

  // ---------------------------------------------------------------------
  // Look-ahead extension
  // ---------------------------------------------------------------------

  /** The schedule ends within `future` GoPs of now, so one more entry is due. */
  predicate AddDue(s: Schedule, nowGopNr: int, future: int)
  {
    ScheduleEnd(s) - future - nowGopNr <= 0
  }

  function Tail(s: Schedule): Entry
    requires s.entries != []
  {
    s.entries[|s.entries| - 1]
  }

  /** The kind of the entry to append after the evicted schedule `ev`: programs and ads alternate. */
  function NextKind(ev: Schedule): string
    requires ev.entries != []
  {
    if Tail(ev).IsAd() then "program" else "ad"
  }

  /**
   * The channel's last SCTE event id after the tick: one more exactly when
   * an entry is due and the tail is not an ad (whether or not the upload
   * then succeeds).
   */
  function NextSCTEEventID(s: Schedule, nowGopNr: int, window: int, future: int, lastId: int): (id: int)
    ensures id == lastId || id == lastId + 1
    ensures id == lastId + 1 <==>
              var ev := Evict(s, nowGopNr, window);
              AddDue(ev, nowGopNr, future) && ev.entries != [] && NextKind(ev) == "ad"
  {
    var ev := Evict(s, nowGopNr, window);
    if AddDue(ev, nowGopNr, future) && ev.entries != [] && !Tail(ev).IsAd() then lastId + 1 else lastId
  }

  /** The schedule to upload and whether it differs from the channel's current one. */
  datatype Proposal = Proposal(schedule: Schedule, changed: bool)

  /**
   * Eviction followed by extension. New program entries carry id 0 and new
   * ads the next id; both ask for offset 0 and length 0 (to the end of the
   * asset, resolved by the server).
   */
  function Propose(s: Schedule, nowGopNr: int, window: int, future: int, lastId: int,
                   assetPaths: seq<AssetPath>, draw: nat): (r: Result<Proposal, Error>)
  {
    var ev := Evict(s, nowGopNr, window);
    if !AddDue(ev, nowGopNr, future) then Ok(Proposal(ev, HeadExpired(s, nowGopNr, window)))
    else if ev.entries == [] then Err(EntryIndexOutOfRange)
    else
      var picked :=
        if Tail(ev).IsAd() then PickEntry(assetPaths, "program", 0, 0, 0, draw)
        else PickEntry(assetPaths, "ad", 0, 0, lastId + 1, draw);
      match picked
      case Err(e) => Err(e)
      case Ok(e) => Ok(Proposal(ev.(entries := ev.entries + [e]), true))
  }

  /**
   * A proposal keeps the evicted schedule as a prefix, adds at most one
   * entry (exactly when one is due), and the added entry starts where the
   * old schedule ended. It is marked changed exactly when something was
   * dropped or added.
   */
  lemma ProposeShape(s: Schedule, nowGopNr: int, window: int, future: int, lastId: int,
                     assetPaths: seq<AssetPath>, draw: nat)
    requires Propose(s, nowGopNr, window, future, lastId, assetPaths, draw).Ok?
    ensures var p := Propose(s, nowGopNr, window, future, lastId, assetPaths, draw).value;
            var ev := Evict(s, nowGopNr, window);
            var added := AddDue(ev, nowGopNr, future);
            && p.schedule.gopNrAtScheduleStart == ev.gopNrAtScheduleStart
            && p.schedule.gopNrAfterLastAd == ev.gopNrAfterLastAd
            && |p.schedule.entries| == |ev.entries| + (if added then 1 else 0)
            && p.schedule.entries[..|ev.entries|] == ev.entries
            && (p.changed <==> HeadExpired(s, nowGopNr, window) || added)
            && (added ==> EntryStart(p.schedule, |ev.entries|) == ScheduleEnd(s))
  {
    var p := Propose(s, nowGopNr, window, future, lastId, assetPaths, draw).value;
    var ev := Evict(s, nowGopNr, window);
    if AddDue(ev, nowGopNr, future) {
      assert p.schedule.entries[..|ev.entries|] == ev.entries;
      EvictKeepsEnd(s, nowGopNr, window);
    }
  }

  /**
   * The appended entry alternates with the tail: after an ad comes a
   * program asset with id 0 and the counter stays; after anything else
   * comes an ad asset carrying the counter plus one, which becomes the new
   * counter.
   */
  lemma ProposeAlternates(s: Schedule, nowGopNr: int, window: int, future: int, lastId: int,
                          assetPaths: seq<AssetPath>, draw: nat)
    requires Propose(s, nowGopNr, window, future, lastId, assetPaths, draw).Ok?
    requires AddDue(Evict(s, nowGopNr, window), nowGopNr, future)
    ensures var p := Propose(s, nowGopNr, window, future, lastId, assetPaths, draw).value;
            var ev := Evict(s, nowGopNr, window);
            var next := NextSCTEEventID(s, nowGopNr, window, future, lastId);
            && ev.entries != []
            && |p.schedule.entries| == |ev.entries| + 1
            && var e := p.schedule.entries[|ev.entries|];
               && e.offset == 0 && e.len == 0
               && (exists a :: a in assetPaths && IsOfKind(a, NextKind(ev)) && e.assetID == a.id && e.name == a.id)
               && (Tail(ev).IsAd() ==> !e.IsAd() && e.scteEventID == 0 && next == lastId)
               && (!Tail(ev).IsAd() ==> e.scteEventID == lastId + 1 && next == lastId + 1)
  {
  }

  /**
   * The proposal step fails exactly when an entry is due and either nothing
   * is left to follow or no asset of the needed kind exists. (A whole tick
   * can also fail later, in `Commit`, on the server's reply.)
   */
  lemma ProposeFails(s: Schedule, nowGopNr: int, window: int, future: int, lastId: int,
                     assetPaths: seq<AssetPath>, draw: nat)
    ensures var r := Propose(s, nowGopNr, window, future, lastId, assetPaths, draw);
            var ev := Evict(s, nowGopNr, window);
            && (r == Err(EntryIndexOutOfRange) <==> AddDue(ev, nowGopNr, future) && ev.entries == [])
            && (r.Err? <==>
                  AddDue(ev, nowGopNr, future) &&
                  (ev.entries == [] || forall a :: a in assetPaths ==> !IsOfKind(a, NextKind(ev))))
            && (r.Err? && ev.entries != [] ==> r.error == NoSuchAssetKind(NextKind(ev)))
  {
  }

  // ---------------------------------------------------------------------
  // SCTE event ids
  // ---------------------------------------------------------------------

  /** No ad in the schedule carries an id above `id`. */
  predicate AdIdsAtMost(s: Schedule, id: int)
  {
    forall i :: 0 <= i < |s.entries| && s.entries[i].IsAd() ==> s.entries[i].scteEventID <= id
  }

  /** Ads appear in the schedule in strictly increasing id order. */
  predicate AdIdsIncreasing(s: Schedule)
  {
    forall i, j :: 0 <= i < j < |s.entries| && s.entries[i].IsAd() && s.entries[j].IsAd() ==>
      s.entries[i].scteEventID < s.entries[j].scteEventID
  }

  /** Dropping the head keeps the ad ids bounded and ordered. */
  lemma EvictKeepsAdIds(s: Schedule, nowGopNr: int, window: int, id: int)
    requires AdIdsAtMost(s, id) && AdIdsIncreasing(s)
    ensures AdIdsAtMost(Evict(s, nowGopNr, window), id) && AdIdsIncreasing(Evict(s, nowGopNr, window))
  {
    var ev := Evict(s, nowGopNr, window);
    if HeadExpired(s, nowGopNr, window) {
      forall i, j | 0 <= i < j < |ev.entries| && ev.entries[i].IsAd() && ev.entries[j].IsAd()
        ensures ev.entries[i].scteEventID < ev.entries[j].scteEventID
      {
        assert ev.entries[i] == s.entries[i + 1] && ev.entries[j] == s.entries[j + 1];
      }
    }
  }

  /** Appending an entry whose ad id (if any) lies above the old bound and within the new one keeps the ids ordered. */
  lemma AppendKeepsAdIds(s: Schedule, e: Entry, id: int, next: int)
    requires AdIdsAtMost(s, id) && AdIdsIncreasing(s) && id <= next
    requires e.IsAd() ==> id < e.scteEventID <= next
    ensures var t := s.(entries := s.entries + [e]);
            AdIdsAtMost(t, next) && AdIdsIncreasing(t)
  {
    var t := s.(entries := s.entries + [e]);
    assert forall i :: 0 <= i < |s.entries| ==> t.entries[i] == s.entries[i];
  }

  /** A proposal keeps every ad id within the new counter and in increasing order. */
  lemma ProposeKeepsAdIds(s: Schedule, nowGopNr: int, window: int, future: int, lastId: int,
                          assetPaths: seq<AssetPath>, draw: nat)
    requires AdIdsAtMost(s, lastId) && AdIdsIncreasing(s)
    requires Propose(s, nowGopNr, window, future, lastId, assetPaths, draw).Ok?
    ensures var p := Propose(s, nowGopNr, window, future, lastId, assetPaths, draw).value;
            var next := NextSCTEEventID(s, nowGopNr, window, future, lastId);
            AdIdsAtMost(p.schedule, next) && AdIdsIncreasing(p.schedule)
  {
    var p := Propose(s, nowGopNr, window, future, lastId, assetPaths, draw).value;
    var next := NextSCTEEventID(s, nowGopNr, window, future, lastId);
    var ev := Evict(s, nowGopNr, window);
    EvictKeepsAdIds(s, nowGopNr, window, lastId);
    if AddDue(ev, nowGopNr, future) {
      ProposeAlternates(s, nowGopNr, window, future, lastId, assetPaths, draw);
      var e := p.schedule.entries[|ev.entries|];
      assert p.schedule == ev.(entries := ev.entries + [e]);
      AppendKeepsAdIds(ev, e, lastId, next);
    } else {
      assert p.schedule == ev && AdIdsAtMost(ev, next);
    }
  }

  // ---------------------------------------------------------------------
  // Commit
  // ---------------------------------------------------------------------

  /**
   * The schedule held after the upload step: a changed proposal is replaced
   * by the server's canonical schedule; an unchanged one keeps the current
   * schedule without asking the server; a failed upload or undecodable
   * answer is an error and keeps the current schedule.
   */
  function Commit(current: Schedule, p: Proposal, reply: ServerReply): (r: Result<Schedule, Error>)
    ensures r.Ok? <==> !p.changed || reply.Canonical?
    ensures !p.changed ==> r == Ok(current)
    ensures r.Ok? && r.value != current ==> p.changed && reply == Canonical(r.value)
    ensures p.changed && reply.Canonical? ==> r == Ok(reply.schedule)
  {
    if !p.changed then Ok(current)
    else
      match reply
      case Canonical(c) => Ok(c)
      case TransportFailure => Err(TransportError)
      case DecodeFailure => Err(DecodeError)
  }

  /** One whole tick on a schedule: propose, then commit. */
  function TickSchedule(s: Schedule, nowGopNr: int, window: int, future: int, lastId: int,
                        assetPaths: seq<AssetPath>, draw: nat, reply: ServerReply): Result<Schedule, Error>
  {
    match Propose(s, nowGopNr, window, future, lastId, assetPaths, draw)
    case Err(e) => Err(e)
    case Ok(p) => Commit(s, p, reply)
  }

  /** The schedule the channel holds after a tick that returned `t`. */
  function ScheduleAfter(s: Schedule, t: Result<Schedule, Error>): Schedule
  {
    if t.Ok? then t.value else s
  }

  /** The server's canonical schedule keeps the proposal's bookkeeping, order and entries, except resolved offsets and lengths. */
  predicate ResolvedFrom(proposed: Schedule, canonical: Schedule)
  {
    && canonical.gopNrAtScheduleStart == proposed.gopNrAtScheduleStart
    && canonical.gopNrAfterLastAd == proposed.gopNrAfterLastAd
    && |canonical.entries| == |proposed.entries|
    && forall i :: 0 <= i < |canonical.entries| ==>
         && canonical.entries[i].name == proposed.entries[i].name
         && canonical.entries[i].assetID == proposed.entries[i].assetID
         && canonical.entries[i].scteEventID == proposed.entries[i].scteEventID
  }

  /**
   * A channel's schedule is replaced only by the server's answer to a
   * changed proposal; every failing tick leaves it as it was.
   */
  lemma TickReplacesOnlyOnAcceptedChange(s: Schedule, nowGopNr: int, window: int, future: int, lastId: int,
                                         assetPaths: seq<AssetPath>, draw: nat, reply: ServerReply)
    ensures var t := TickSchedule(s, nowGopNr, window, future, lastId, assetPaths, draw, reply);
            var p := Propose(s, nowGopNr, window, future, lastId, assetPaths, draw);
            && (t.Err? ==> ScheduleAfter(s, t) == s)
            && (ScheduleAfter(s, t) != s ==> p.Ok? && p.value.changed && reply == Canonical(ScheduleAfter(s, t)))
            && (p.Ok? && !p.value.changed ==> t == Ok(s))
  {
  }

  /**
   * Ad ids stay bounded by the counter and increasing across a tick,
   * provided the server answers a changed proposal with a resolution of it.
   */
  lemma TickKeepsAdIds(s: Schedule, nowGopNr: int, window: int, future: int, lastId: int,
                       assetPaths: seq<AssetPath>, draw: nat, reply: ServerReply)
    requires AdIdsAtMost(s, lastId) && AdIdsIncreasing(s)
    requires reply.Canonical? && Propose(s, nowGopNr, window, future, lastId, assetPaths, draw).Ok? ==>
               ResolvedFrom(Propose(s, nowGopNr, window, future, lastId, assetPaths, draw).value.schedule, reply.schedule)
    ensures var after := ScheduleAfter(s, TickSchedule(s, nowGopNr, window, future, lastId, assetPaths, draw, reply));
            AdIdsAtMost(after, NextSCTEEventID(s, nowGopNr, window, future, lastId)) && AdIdsIncreasing(after)
  {
    var next := NextSCTEEventID(s, nowGopNr, window, future, lastId);
    var pr := Propose(s, nowGopNr, window, future, lastId, assetPaths, draw);
    if pr.Ok? {
      ProposeKeepsAdIds(s, nowGopNr, window, future, lastId, assetPaths, draw);
      var p := pr.value.schedule;
      if pr.value.changed && reply.Canonical? {
        var c := reply.schedule;
        assert forall i :: 0 <= i < |c.entries| ==> c.entries[i].scteEventID == p.entries[i].scteEventID;
      }
    }
  }

  // ---------------------------------------------------------------------
  // The tick on a channel
  // ---------------------------------------------------------------------

  /**
   * The eviction pass of `UpdateSchedule`: copies the entries while keeping
   * a running end position, leaving out the head if it has expired. Returns
   * the evicted schedule, the end of the old schedule, and whether the head
   * was dropped.
   */
  method DropExpiredHead(lastSch: Schedule, nowGopNr: int, window: int)
    returns (newSch: Schedule, nextEntryStart: int, scheduleChanged: bool)
    ensures newSch == Evict(lastSch, nowGopNr, window)
    ensures nextEntryStart == ScheduleEnd(lastSch) == ScheduleEnd(newSch)
    ensures scheduleChanged == HeadExpired(lastSch, nowGopNr, window)
  {
    var entries := lastSch.entries;
    scheduleChanged := false;
    var newStart, newAfterLastAd := lastSch.gopNrAtScheduleStart, lastSch.gopNrAfterLastAd;
    var newEntries: seq<Entry> := [];
    nextEntryStart := lastSch.gopNrAtScheduleStart;
    var i := 0;
    // The head is the only entry that can be dropped.
    if entries != [] {
      var e := entries[0];
      SumLensStep(entries, 0);
      nextEntryStart := nextEntryStart + e.len; // now the start of the entry after the head
      if nextEntryStart - (nowGopNr - window) <= 0 {
        newStart := newStart + e.len;
        if e.scteEventID > 0 {
          newAfterLastAd := nextEntryStart;
        }
        scheduleChanged := true;
      } else {
        newEntries := [e];
      }
      i := 1;
    }
    ghost var from := if scheduleChanged then 1 else 0; // index of the first entry kept
    EvictedFields(lastSch, nowGopNr, window);
    while i < |entries|
      invariant from <= i <= |entries|
      invariant nextEntryStart == lastSch.gopNrAtScheduleStart + SumLens(entries[..i])
      invariant newEntries == entries[from..i]
    {
      var e := entries[i];
      SumLensStep(entries, i);
      SliceExtend(entries, from, i);
      nextEntryStart := nextEntryStart + e.len;
      newEntries := newEntries + [e];
      i := i + 1;
    }
    assert entries[..i] == entries;
    newSch := Schedule(newStart, newAfterLastAd, newEntries);
  }

  /**
   * `UpdateSchedule`: evicts and extends, advances the channel's SCTE
   * counter before an ad is picked, and replaces the channel's schedule
   * only with the server's answer to a changed proposal. `draw` stands for
   * the random pick and `reply` for the server's answer to the upload.
   */
  method UpdateSchedule(channel: Channel, assetPaths: seq<AssetPath>, nowMS: int, draw: nat, reply: ServerReply)
    returns (r: Outcome<Error>)
    requires channel.gopDurMS != 0
    modifies channel
    ensures var nowGopNr := NowToGopNr(channel.gopDurMS, nowMS);
            channel.lastSCTEEventID == NextSCTEEventID(old(channel.schedule), nowGopNr, channel.slidingWindowNrGops,
                                                       channel.futureScheduleNrGops, old(channel.lastSCTEEventID))
    ensures var nowGopNr := NowToGopNr(channel.gopDurMS, nowMS);
            var t := TickSchedule(old(channel.schedule), nowGopNr, channel.slidingWindowNrGops,
                                  channel.futureScheduleNrGops, old(channel.lastSCTEEventID), assetPaths, draw, reply);
            && channel.schedule == ScheduleAfter(old(channel.schedule), t)
            && (r.Pass? <==> t.Ok?)
            && (t.Err? ==> r == Fail(t.error))
  {
    var lastSch := channel.schedule;
    var window := channel.slidingWindowNrGops;
    var future := channel.futureScheduleNrGops;
    var nowGopNr := NowToGopNr(channel.gopDurMS, nowMS);
    ghost var lastId := channel.lastSCTEEventID;
    ghost var tick := TickSchedule(lastSch, nowGopNr, window, future, lastId, assetPaths, draw, reply);

    var newSch, nextEntryStart, scheduleChanged := DropExpiredHead(lastSch, nowGopNr, window);
    var gopsUntilNextAdd := nextEntryStart - future - nowGopNr;
    if gopsUntilNextAdd <= 0 { // time to add an ad or a program
      if |newSch.entries| == 0 {
        assert tick == Err(EntryIndexOutOfRange);
        return Fail(EntryIndexOutOfRange);
      }
      var lastEntry := newSch.entries[|newSch.entries| - 1];
      var picked;
      if lastEntry.scteEventID > 0 {
        picked := RandomEntry(assetPaths, "program", 0, 0, 0, draw);
      } else {
        channel.lastSCTEEventID := channel.lastSCTEEventID + 1;
        picked := RandomEntry(assetPaths, "ad", 0, 0, channel.lastSCTEEventID, draw);
      }
      if picked.Err? {
        assert tick == Err(picked.error);
        return Fail(picked.error);
      }
      newSch := newSch.(entries := newSch.entries + [picked.value]);
      scheduleChanged := true;
    }
    assert tick == Commit(lastSch, Proposal(newSch, scheduleChanged), reply);
    if scheduleChanged {
      match reply
      case Canonical(respSchedule) =>
        channel.schedule := respSchedule;
      case TransportFailure =>
        return Fail(TransportError);
      case DecodeFailure =>
        return Fail(DecodeError);
    }
    return Pass;
  }
}
