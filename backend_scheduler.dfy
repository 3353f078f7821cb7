/**
 * The older backend's scheduler: the frequency rule that decides which
 * active keywords are due, the due keywords searched in batches of three,
 * and the daily clean-up retention windows.
 */
module BackendScheduler {
  import opened Wrappers
  import opened BackendModels
  import BackendSearch

  /** `_should_check_keyword`: whether the keyword is due, and whether it is unmuted on the way. */
  datatype Check = Check(due: bool, unmute: bool)

  function ShouldCheck(kw: Keyword, now: int): (r: Check)
    // A keyword never checked is due at once, muted or not.
    ensures kw.lastChecked.None? ==> r == Check(true, false)
    // A mute that has not yet ended holds the keyword back.
    ensures kw.lastChecked.Some? && kw.isMuted && kw.mutedUntil.Some? && now < kw.mutedUntil.value ==> !r.due
    // Otherwise the frequency alone decides.
    ensures kw.lastChecked.Some? && !(kw.isMuted && kw.mutedUntil.Some? && now < kw.mutedUntil.value) ==>
              (r.due <==> now >= kw.lastChecked.value + kw.frequencySeconds)
    // An ended mute is lifted, whether or not the keyword is due.
    ensures r.unmute <==> kw.lastChecked.Some? && kw.isMuted && kw.mutedUntil.Some? && now >= kw.mutedUntil.value
  {
    if kw.lastChecked.None? then Check(true, false)
    else if kw.isMuted && kw.mutedUntil.Some? && now < kw.mutedUntil.value then Check(false, false)
    else
      var unmute := kw.isMuted && kw.mutedUntil.Some? && now >= kw.mutedUntil.value;
      Check(now >= kw.lastChecked.value + kw.frequencySeconds, unmute)
  }

  /** A keyword that is due stays due as time goes on. */
  lemma DueStaysDue(kw: Keyword, now: int, later: int)
    requires now <= later && ShouldCheck(kw, now).due
    ensures ShouldCheck(kw, later).due
  {
  }

  /** A mute without an end time does not hold a keyword back: only its notifications are suppressed. */
  lemma OpenMuteStillDue(kw: Keyword, now: int)
    requires kw.isMuted && kw.mutedUntil.None? && kw.lastChecked.Some?
    requires now >= kw.lastChecked.value + kw.frequencySeconds
    ensures ShouldCheck(kw, now).due
  {
  }

  /** The due keywords, in order. */
  function Due(kws: seq<Keyword>, now: int): seq<Keyword>
  {
    if |kws| == 0 then []
    else
      var r := Due(kws[..|kws| - 1], now);
      if ShouldCheck(kws[|kws| - 1], now).due then r + [kws[|kws| - 1]] else r
  }

  /** A keyword is kept exactly when it is among the active ones and due; the order is kept. */
  lemma {:induction false} DueSpec(kws: seq<Keyword>, now: int, x: Keyword)
    ensures x in Due(kws, now) <==> x in kws && ShouldCheck(x, now).due
  {
    if |kws| > 0 {
      var n := |kws| - 1;
      DueSpec(kws[..n], now, x);
      assert kws == kws[..n] + [kws[n]];
    }
  }

  /** The ids whose mute is lifted while filtering, in order. */
  function Unmuted(kws: seq<Keyword>, now: int): seq<string>
  {
    if |kws| == 0 then []
    else
      var r := Unmuted(kws[..|kws| - 1], now);
      if ShouldCheck(kws[|kws| - 1], now).unmute then r + [kws[|kws| - 1].id] else r
  }

  /**
   * The filter loop of `_search_job`, with the unmute writes it starts
   * returned in order, and the due keywords cut into batches of three.
   */
  method SelectDue(kws: seq<Keyword>, now: int) returns (due: seq<Keyword>, unmuted: seq<string>, batches: seq<seq<Keyword>>)
    ensures due == Due(kws, now) && unmuted == Unmuted(kws, now)
    ensures batches == BackendSearch.Batches(due, 3)
  {
    due := [];
    unmuted := [];
    var i := 0;
    while i < |kws|
      invariant 0 <= i <= |kws|
      invariant due == Due(kws[..i], now) && unmuted == Unmuted(kws[..i], now)
    {
      assert kws[..i + 1][..i] == kws[..i];
      var c := ShouldCheck(kws[i], now);
      if c.due {
        due := due + [kws[i]];
      }
      if c.unmute {
        unmuted := unmuted + [kws[i].id];
      }
      i := i + 1;
    }
    assert kws[..i] == kws;
    batches := BatchesOf(due, 3);
  }

  /** The `range(0, len, size)` slicing loop. */
  method BatchesOf(xs: seq<Keyword>, size: nat) returns (bs: seq<seq<Keyword>>)
    requires size > 0
    ensures bs == BackendSearch.Batches(xs, size)
  {
    bs := [];
    var i := 0;
    while i < |xs|
      invariant 0 <= i <= |xs|
      invariant bs + BackendSearch.Batches(xs[i..], size) == BackendSearch.Batches(xs, size)
      decreases |xs| - i
    {
      var hi := if i + size < |xs| then i + size else |xs|;
      if i + size < |xs| {
        assert xs[i..][..size] == xs[i..hi] && xs[i..][size..] == xs[hi..];
      } else {
        assert xs[i..] == xs[i..hi] && xs[hi..] == [];
      }
      bs := bs + [xs[i..hi]];
      i := hi;
    }
  }

  /** The due keywords are searched in order, three at a time, with only the last batch shorter. */
  lemma DueBatches(kws: seq<Keyword>, now: int)
    ensures var bs := BackendSearch.Batches(Due(kws, now), 3);
            && BackendSearch.Flatten(bs) == Due(kws, now)
            && (forall k :: 0 <= k < |bs| ==> 0 < |bs[k]| <= 3)
            && (forall k :: 0 <= k < |bs| - 1 ==> |bs[k]| == 3)
  {
    BackendSearch.BatchesSpec(Due(kws, now), 3);
  }

  // ---------------------------------------------------------------------
  // Clean-up
  // ---------------------------------------------------------------------

  const DAY: int := 86400
  const NOTIFICATION_RETENTION_DAYS: int := 30
  const HIT_RETENTION_DAYS: int := 90

  /** `delete_many({field: {"$lt": cutoff}})` over the records' timestamps: what is left. */
  function Remaining(stamps: seq<int>, cutoff: int): seq<int>
  {
    if |stamps| == 0 then []
    else
      var r := Remaining(stamps[..|stamps| - 1], cutoff);
      if stamps[|stamps| - 1] < cutoff then r else r + [stamps[|stamps| - 1]]
  }

  /** A record survives exactly when its time is not before the cut-off. */
  lemma {:induction false} RemainingSpec(stamps: seq<int>, cutoff: int, t: int)
    ensures t in Remaining(stamps, cutoff) <==> t in stamps && t >= cutoff
  {
    if |stamps| > 0 {
      var n := |stamps| - 1;
      RemainingSpec(stamps[..n], cutoff, t);
      assert stamps == stamps[..n] + [stamps[n]];
    }
  }

  /** `_cleanup_job`: notifications by `sent_at` and keyword hits by `seen_ts`. */
  function Cleanup(sentAt: seq<int>, seenTs: seq<int>, now: int): (r: (seq<int>, seq<int>))
  {
    (Remaining(sentAt, now - NOTIFICATION_RETENTION_DAYS * DAY), Remaining(seenTs, now - HIT_RETENTION_DAYS * DAY))
  }

  /** A notification sent exactly 30 days ago stays, a second older goes; for hits the window is 90 days. */
  lemma CleanupWindows(sentAt: seq<int>, seenTs: seq<int>, now: int, t: int)
    ensures t in Cleanup(sentAt, seenTs, now).0 <==> t in sentAt && now - t <= 2592000
    ensures t in Cleanup(sentAt, seenTs, now).1 <==> t in seenTs && now - t <= 7776000
  {
    RemainingSpec(sentAt, now - NOTIFICATION_RETENTION_DAYS * DAY, t);
    RemainingSpec(seenTs, now - HIT_RETENTION_DAYS * DAY, t);
  }
}
