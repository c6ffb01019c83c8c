/** One row of the fund-lock history table (src/UI/components/TableFundLock/SIngleRow.tsx):
    a withdrawal can be released 180 minutes after it was made; a one-second interval
    rewrites the "Estimated time until release mm:ss" label until that instant, then
    marks the release as available and stops. Times are integer milliseconds. */
module FundLockRow {
  import opened Wrappers
  import opened Text
  import opened Tutorial

  const HOW_MANY_MINUTES_AFTER_DEPOSIT_CAN_RELEASE: nat := 180
  const MILLISECONDS_PER_MINUTE: nat := 60000
  const LABEL_PREFIX: string := "Estimated time until release "
  const RELEASED_LABEL: string := LABEL_PREFIX + "00:00"

  /** `addMinutes(new Date(timestamp * 1000), 180).getTime()`: the deposit timestamp is in
      seconds, the release instant in milliseconds. */
  function ReleaseInstant(timestampSeconds: int): (t: int)
    ensures t - timestampSeconds * 1000 == 180 * 60 * 1000
  {
    timestampSeconds * 1000 + HOW_MANY_MINUTES_AFTER_DEPOSIT_CAN_RELEASE * MILLISECONDS_PER_MINUTE
  }

  function TimeDiff(timestampSeconds: int, now: int): int {
    ReleaseInstant(timestampSeconds) - now
  }

  /** `Math.floor(timeDiff / 1000 / 60)` and `Math.floor((timeDiff / 1000) % 60)` for a
      positive difference: whole minutes and the remaining whole seconds. */
  function MinutesAndSeconds(timeDiff: int): (r: (nat, nat))
    requires timeDiff > 0
    ensures r.1 < 60
    ensures r.0 * 60 + r.1 == timeDiff / 1000
  {
    var q := timeDiff / 1000;
    assert timeDiff / 60000 == q / 60 by {
      var a, b, c := q / 60, q % 60, timeDiff % 1000;
      assert timeDiff == 60000 * a + (1000 * b + c);
    }
    (timeDiff / 60000, q % 60)
  }

  /** The label written while the release instant is still ahead. */
  function CountdownLabel(timeDiff: int): (r: string)
    requires timeDiff > 0
    ensures |r| >= |LABEL_PREFIX| + 3
    ensures r[..|LABEL_PREFIX|] == LABEL_PREFIX
    ensures r[|r| - 3] == ':' && IsDigit(r[|r| - 2]) && IsDigit(r[|r| - 1])
  {
    var ms := MinutesAndSeconds(timeDiff);
    LABEL_PREFIX + TwoDigits(ms.0) + ":" + TwoDigits(ms.1)
  }

  /** The label decodes back to the time left: its minute field is at least two digits
      (more when 100 minutes or more remain), its second field exactly two, and together
      they read back as the whole seconds remaining. */
  lemma CountdownLabelReadsBack(timeDiff: int)
    requires timeDiff > 0
    ensures var ms := MinutesAndSeconds(timeDiff);
      var mm, ss := TwoDigits(ms.0), TwoDigits(ms.1);
      CountdownLabel(timeDiff) == LABEL_PREFIX + mm + ":" + ss &&
      |mm| >= 2 && |ss| == 2 &&
      ParseDecimal(mm) * 60 + ParseDecimal(ss) == timeDiff / 1000
  {
    var ms := MinutesAndSeconds(timeDiff);
    TwoDigitsReadsBack(ms.0);
    TwoDigitsReadsBack(ms.1);
  }

  /** An example: 2 h 5 min 7 s before release. */
  lemma CountdownLabelExample()
    ensures CountdownLabel(7_507_000) == "Estimated time until release 125:07"
  {
    assert MinutesAndSeconds(7_507_000) == (125, 7);
    assert Decimal(125) == "125" by {
      assert Decimal(12) == "12" by { assert Decimal(1) == "1"; }
    }
    assert TwoDigits(7) == "07";
  }

  /** The interval of one row: it keeps ticking until the release instant has passed or
      the row is unmounted. */
  class ReleaseCountdown {
    const timestampSeconds: int
    var timeTillRelease: string
    var isReleaseAvailable: bool
    var ticking: bool

    /** Once release is available the interval has been cleared. */
    ghost predicate Valid()
      reads this
    {
      isReleaseAvailable ==> !ticking
    }

    constructor (timestampSeconds: int)
      ensures Valid()
      ensures this.timestampSeconds == timestampSeconds
      ensures timeTillRelease == "" && !isReleaseAvailable && ticking
    {
      this.timestampSeconds := timestampSeconds;
      timeTillRelease := "";
      isReleaseAvailable := false;
      ticking := true;
    }

    /** One run of the interval body at wall-clock time `now` (ms); a cleared interval
        does not run. */
    method Tick(now: int)
      requires Valid()
      modifies this
      ensures Valid()
      ensures !old(ticking) ==> timeTillRelease == old(timeTillRelease) &&
                                isReleaseAvailable == old(isReleaseAvailable) && !ticking
      ensures old(ticking) && TimeDiff(timestampSeconds, now) <= 0 ==>
        timeTillRelease == RELEASED_LABEL && isReleaseAvailable && !ticking
      ensures old(ticking) && TimeDiff(timestampSeconds, now) > 0 ==>
        timeTillRelease == CountdownLabel(TimeDiff(timestampSeconds, now)) &&
        isReleaseAvailable == old(isReleaseAvailable) && ticking
      ensures old(isReleaseAvailable) ==> isReleaseAvailable
    {
      if !ticking {
        return;
      }
      var timeDiff := TimeDiff(timestampSeconds, now);
      if timeDiff <= 0 {
        timeTillRelease := RELEASED_LABEL;
        isReleaseAvailable := true;
        ticking := false;
        return;
      }
      timeTillRelease := CountdownLabel(timeDiff);
    }

    /** The effect's cleanup: the interval is cleared, nothing else changes. */
    method Unmount()
      requires Valid()
      modifies this`ticking
      ensures Valid() && !ticking
    {
      ticking := false;
    }
  }

  // ---------------------------------------------------------------------------
  // What the row shows

  /** The activity cell: "release" in any letter case is shown as "Withdraw", any other
      value verbatim. */
  function ActivityLabel(auction: Option<string>): (r: Option<string>)
    ensures auction.Some? && ToLower(auction.value) == "release" ==> r == Some("Withdraw")
    ensures !(auction.Some? && ToLower(auction.value) == "release") ==> r == auction
  {
    if auction.Some? && ToLower(auction.value) == "release" then Some("Withdraw") else auction
  }

  lemma ActivityLabelExamples()
    ensures ActivityLabel(Some("Release")) == Some("Withdraw")
    ensures ActivityLabel(Some("RELEASE")) == Some("Withdraw")
    ensures ActivityLabel(Some("Deposit")) == Some("Deposit")
    ensures ActivityLabel(None) == None
  {
    var mixed, upper := ToLower("Release"), ToLower("RELEASE");
    forall i | 0 <= i < 7
      ensures mixed[i] == "release"[i] && upper[i] == "release"[i]
    {
    }
    assert mixed == "release" && upper == "release";
    assert ToLower("Deposit")[0] == 'd';
  }

  datatype ReleaseInfo = Countdown(text: string) | ReadyToRelease | Released | NoInfo

  /** The release-information cell. */
  function ReleaseInfoCell(auction: Option<string>, isReleaseAvailable: bool, timeTillRelease: string): (r: ReleaseInfo)
    ensures auction == Some("Withdraw") ==>
      r == if isReleaseAvailable then ReadyToRelease else Countdown(timeTillRelease)
    ensures r == Released <==>
      auction.Some? && auction.value != "Withdraw" && ToLower(auction.value) == "release"
    ensures r == NoInfo <==>
      auction != Some("Withdraw") && !(auction.Some? && ToLower(auction.value) == "release")
  {
    if auction == Some("Withdraw") then
      if !isReleaseAvailable then Countdown(timeTillRelease) else ReadyToRelease
    else if auction.Some? && ToLower(auction.value) == "release" then Released
    else NoInfo
  }

  datatype ReleaseButton = ReleaseButton(disabled: bool)

  /** The Release button exists only for a "Withdraw" row and is disabled until the
      release is available. */
  function ReleaseButtonOf(auction: Option<string>, isReleaseAvailable: bool): (r: Option<ReleaseButton>)
    ensures r.Some? <==> auction == Some("Withdraw")
    ensures r.Some? ==> (r.value.disabled <==> !isReleaseAvailable)
  {
    if auction == Some("Withdraw") then Some(ReleaseButton(!isReleaseAvailable)) else None
  }

  /** The tutorial popover over the button is open only on the release step, for a
      "Withdraw" row whose tutorial is enabled; so it only ever points at a Release
      button that exists. */
  predicate ReleaseTutorialOpen(currentStep: Option<TutorialStep>, auction: Option<string>, showTutorial: bool): (r: bool)
    ensures r ==> forall isReleaseAvailable :: ReleaseButtonOf(auction, isReleaseAvailable).Some?
  {
    currentStep == Some(WithdrawalReleaseFunds) && auction == Some("Withdraw") && showTutorial
  }
}
