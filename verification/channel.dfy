/** Creating a channel: the segment-aligned start and the seed schedule. */
module Channels {
  import opened Wrappers
  import opened Types
  import opened GoInt
  import opened AssetPaths
  import opened ScheduleUpdate

  /** The number of the segment before the one being produced at `nowMS`. */
  function NowToSegNr(gopDurMS: int, nrGopsPerSegment: int, nowMS: int): (r: int)
    requires gopDurMS != 0 && nrGopsPerSegment != 0
    ensures var segMS := gopDurMS * nrGopsPerSegment;
            gopDurMS > 0 && nrGopsPerSegment > 0 && nowMS >= 0 ==>
              -1 <= r && (r + 1) * segMS <= nowMS < (r + 2) * segMS
  {
    var segMS := gopDurMS * nrGopsPerSegment;
    assert gopDurMS > 0 && nrGopsPerSegment > 0 ==> segMS > 0 by {
      if gopDurMS > 0 && nrGopsPerSegment > 0 { MulPositive(gopDurMS, nrGopsPerSegment); }
    }
    assert segMS > 0 && nowMS >= 0 ==> var q := Quo(nowMS, segMS); 0 <= q && q * segMS <= nowMS < (q + 1) * segMS by {
      if segMS > 0 { QuoBrackets(nowMS, segMS); }
    }
    Quo(nowMS, segMS) - 1
  }

  lemma MulPositive(x: int, y: int)
    requires x > 0 && y > 0
    ensures x * y > 0
  {
  }

  lemma SegmentsToGops(seg: int, n: int, g: int)
    ensures (seg * n + n) * g == (seg + 1) * (g * n)
    ensures (seg * n + 2 * n) * g == (seg + 2) * (g * n)
  {
  }

  /**
   * The first GoP of a new channel's schedule: a whole number of segments,
   * and one whole segment before the segment being produced now.
   */
  function StartGopNr(gopDurMS: int, nrGopsPerSegment: int, nowMS: int): (r: int)
    requires gopDurMS != 0 && nrGopsPerSegment != 0
    ensures r % nrGopsPerSegment == 0
    ensures gopDurMS > 0 && nrGopsPerSegment > 0 && nowMS >= 0 ==>
              (r + nrGopsPerSegment) * gopDurMS <= nowMS < (r + 2 * nrGopsPerSegment) * gopDurMS
  {
    var seg := NowToSegNr(gopDurMS, nrGopsPerSegment, nowMS);
    var r := seg * nrGopsPerSegment;
    MulMod(seg, nrGopsPerSegment);
    SegmentsToGops(seg, nrGopsPerSegment, gopDurMS);
    r
  }

  /**
   * The schedule a channel is created with: a program (id 0) then an ad
   * (id 1), each asking for 5 GoPs from offset 0.
   */
  function SeedSchedule(assetPaths: seq<AssetPath>, startGopNr: int, programDraw: nat, adDraw: nat)
    : Result<Schedule, Error>
  {
    match PickEntry(assetPaths, "program", 0, 5, 0, programDraw)
    case Err(e) => Err(e)
    case Ok(program) =>
      match PickEntry(assetPaths, "ad", 0, 5, 1, adDraw)
      case Err(e) => Err(e)
      case Ok(ad) => Ok(Schedule(startGopNr, 0, [program, ad]))
  }

  /**
   * The seed holds a program asset then an ad asset with id 1, starts at
   * `startGopNr` with no ad before it, and meets the ad-id invariants for a
   * counter of 1. It fails exactly when one of the two kinds has no asset.
   */
  lemma SeedShape(assetPaths: seq<AssetPath>, startGopNr: int, programDraw: nat, adDraw: nat)
    ensures var r := SeedSchedule(assetPaths, startGopNr, programDraw, adDraw);
            && (r.Err? <==> (forall a :: a in assetPaths ==> !IsOfKind(a, "program")) ||
                            (forall a :: a in assetPaths ==> !IsOfKind(a, "ad")))
            && (r.Ok? ==>
                  var s := r.value;
                  && s.gopNrAtScheduleStart == startGopNr && s.gopNrAfterLastAd == 0
                  && |s.entries| == 2
                  && !s.entries[0].IsAd() && s.entries[0].scteEventID == 0
                  && s.entries[1].IsAd() && s.entries[1].scteEventID == 1
                  && (forall i :: 0 <= i < 2 ==> s.entries[i].offset == 0 && s.entries[i].len == 5)
                  && (exists a :: a in assetPaths && IsOfKind(a, "program") && s.entries[0].assetID == a.id)
                  && (exists a :: a in assetPaths && IsOfKind(a, "ad") && s.entries[1].assetID == a.id)
                  && AdIdsAtMost(s, 1) && AdIdsIncreasing(s))
  {
  }

  /**
   * `CreateChannel`: builds the seed schedule, posts the channel, fetches
   * the server's version of the schedule, and returns the channel holding
   * it with its SCTE counter at 1. `absTemplatePath` stands for the result
   * of making the template path absolute, `posted` for the outcome of the
   * POST, and `fetched` for the server's answer to the GET. Any failure
   * returns no channel.
   */
  method CreateChannel(chName: string, contentTemplatePath: string,
                       gopDurMS: int, nrGopsPerSegment: int, slidingWindowNrGops: int, futureScheduleNrGops: int,
                       assetPaths: seq<AssetPath>, nowMS: int, programDraw: nat, adDraw: nat,
                       absTemplatePath: Option<string>, posted: bool, fetched: ServerReply)
    returns (r: Result<Channel, Error>)
    requires gopDurMS != 0 && nrGopsPerSegment != 0
    ensures var seed := SeedSchedule(assetPaths, StartGopNr(gopDurMS, nrGopsPerSegment, nowMS), programDraw, adDraw);
            && (r.Ok? <==> seed.Ok? && absTemplatePath.Some? && posted && fetched.Canonical?)
            && (seed.Err? ==> r == Err(seed.error))
            && (seed.Ok? && absTemplatePath.None? ==> r == Err(AbsPathFailed))
            && (seed.Ok? && absTemplatePath.Some? && !posted ==> r == Err(TransportError))
            && (seed.Ok? && absTemplatePath.Some? && posted && fetched == TransportFailure ==> r == Err(TransportError))
            && (seed.Ok? && absTemplatePath.Some? && posted && fetched == DecodeFailure ==> r == Err(DecodeError))
    ensures r.Ok? ==>
              var ch := r.value;
              && fresh(ch)
              && ch.schedule == fetched.schedule && ch.lastSCTEEventID == 1
              && ch.name == chName && ch.gopDurMS == gopDurMS && ch.nrGopsPerSeg == nrGopsPerSegment
              && ch.contentTemplatePath == absTemplatePath.value && ch.startTimeS == 0 && !ch.doLoop
              && ch.slidingWindowNrGops == slidingWindowNrGops
              && ch.futureScheduleNrGops == futureScheduleNrGops
  {
    var startGopNr := NowToSegNr(gopDurMS, nrGopsPerSegment, nowMS) * nrGopsPerSegment;
    var program := RandomEntry(assetPaths, "program", 0, 5, 0, programDraw);
    if program.Err? {
      return Err(program.error);
    }
    var ad := RandomEntry(assetPaths, "ad", 0, 5, 1, adDraw);
    if ad.Err? {
      return Err(ad.error);
    }
    var schedule := Schedule(startGopNr, 0, [program.value, ad.value]);
    if absTemplatePath.None? {
      return Err(AbsPathFailed);
    }
    var channel := new Channel(chName, gopDurMS, nrGopsPerSegment, absTemplatePath.value, 0, false,
                               schedule, slidingWindowNrGops, futureScheduleNrGops);
    if !posted {
      return Err(TransportError);
    }
    match fetched
    case TransportFailure =>
      return Err(TransportError);
    case DecodeFailure =>
      return Err(DecodeError);
    case Canonical(fetchedSchedule) =>
      channel.schedule := fetchedSchedule;
      channel.lastSCTEEventID := 1;
      return Ok(channel);
  }
}
