// The micro-reel card (src/pages/Quiz/components/MicroReelCard.tsx): a
// one-second timer counts reading time while the reel is active; after five
// seconds the reel counts as read. The interval callback is the explicit
// method `Tick`.
module MicroReelCard {
  import opened Wrappers
  import opened Text
  import opened Content
  import opened QuizProgress

  /** Seconds of reading after which a reel counts as read. */
  const ReadThreshold: nat := 5

  class Card {
    var microReel: MicroReel
    var timeSpent: nat
    var isActive: bool
    var hasBeenRead: bool

    /** The read flag is exactly "at least five seconds spent". */
    ghost predicate Valid()
      reads this
    {
      hasBeenRead <==> timeSpent >= ReadThreshold
    }

    constructor (m: MicroReel)
      ensures Valid() && microReel == m && timeSpent == 0 && isActive && !hasBeenRead
    {
      microReel := m;
      timeSpent := 0;
      isActive := true;
      hasBeenRead := false;
    }

    /** The effect on `microReel.id`: a different reel restarts at zero, running and unread. */
    method ChangeReel(m: MicroReel)
      requires Valid()
      modifies this
      ensures Valid() && microReel == m
      ensures m.id != old(microReel.id) ==> timeSpent == 0 && isActive && !hasBeenRead
      ensures m.id == old(microReel.id) ==>
                timeSpent == old(timeSpent) && isActive == old(isActive) && hasBeenRead == old(hasBeenRead)
    {
      if m.id != microReel.id {
        timeSpent := 0;
        isActive := true;
        hasBeenRead := false;
      }
      microReel := m;
    }

    /**
      * One second of the interval, which runs only while active, followed by the effect that
      * sets the read flag once five seconds are reached.
      */
    method Tick() returns (report: Option<Report>)
      requires Valid()
      modifies this
      ensures Valid() && isActive == old(isActive) && microReel == old(microReel)
      ensures report.Some? <==> old(isActive)
      ensures old(isActive) ==> timeSpent == old(timeSpent) + 1
                                && report.value == ReelReport(timeSpent, timeSpent >= ReadThreshold, true)
      ensures !old(isActive) ==> timeSpent == old(timeSpent) && hasBeenRead == old(hasBeenRead)
      ensures old(hasBeenRead) ==> hasBeenRead
      ensures report.Some? ==> (Answered(report.value) <==> hasBeenRead) && !Correct(report.value)
    {
      if !isActive {
        report := None;
        return;
      }
      var newTime := timeSpent + 1;
      timeSpent := newTime;
      report := Some(ReelReport(newTime, newTime >= ReadThreshold, true));
      if timeSpent >= ReadThreshold && !hasBeenRead {
        hasBeenRead := true;
      }
    }

    /** `handlePause`: stops the timer and changes nothing else. */
    method Pause() returns (report: Report)
      requires Valid()
      modifies this
      ensures Valid() && !isActive
      ensures timeSpent == old(timeSpent) && hasBeenRead == old(hasBeenRead) && microReel == old(microReel)
      ensures report == ReelReport(timeSpent, hasBeenRead, false)
    {
      isActive := false;
      report := ReelReport(timeSpent, hasBeenRead, false);
    }

    /** `handleResume`: restarts the timer and changes nothing else. */
    method Resume() returns (report: Report)
      requires Valid()
      modifies this
      ensures Valid() && isActive
      ensures timeSpent == old(timeSpent) && hasBeenRead == old(hasBeenRead) && microReel == old(microReel)
      ensures report == ReelReport(timeSpent, hasBeenRead, true)
    {
      isActive := true;
      report := ReelReport(timeSpent, hasBeenRead, true);
    }
  }

  /** Five ticks of an active reel make it read. */
  method ReadAfterFiveTicks(m: MicroReel) returns (read: bool, seconds: nat)
    ensures read && seconds == 5
  {
    var card := new Card(m);
    var i := 0;
    while i < 5
      invariant 0 <= i <= 5
      invariant card.Valid() && card.isActive && card.timeSpent == i
      invariant card.microReel == m
    {
      var _ := card.Tick();
      i := i + 1;
    }
    read, seconds := card.hasBeenRead, card.timeSpent;
  }

  // ---------------------------------------------------------------------------
  // `formatTime`

  /** `seconds` as shown on the reel: "<s>s" under a minute, "<m>:<ss>" from one minute on. */
  function FormatTime(seconds: nat): (t: string)
    ensures |t| >= 2
    ensures seconds < 60 <==> t[|t| - 1] == 's'
  {
    var mins, secs := seconds / 60, seconds % 60;
    if mins > 0 then NatToString(mins) + ":" + PadStart2(NatToString(secs))
    else NatToString(secs) + "s"
  }

  predicate AllDigits(s: string) {
    forall i :: 0 <= i < |s| ==> IsDigit(s[i])
  }

  /** The seconds field is padded to exactly two digits and keeps its value. */
  lemma TwoDigitSeconds(secs: nat)
    requires secs < 60
    ensures |PadStart2(NatToString(secs))| == 2
    ensures AllDigits(PadStart2(NatToString(secs)))
    ensures DigitsValue(PadStart2(NatToString(secs))) == secs
  {
    NatToStringRoundTrip(secs);
    var d := NatToString(secs);
    var p := PadStart2(d);
    if secs < 10 {
      assert p == ['0'] + d;
      assert p[..1] == "0";
      assert DigitsValue(p) == secs;
    } else {
      assert secs / 10 < 10;
      assert |d| == 2;
    }
  }

  /** Two strings glued around the same separator, with tails of equal length, agree piece by piece. */
  lemma ConcatCancel(m1: string, sep: string, p1: string, m2: string, p2: string)
    requires m1 + sep + p1 == m2 + sep + p2 && |p1| == |p2|
    ensures m1 == m2 && p1 == p2
  {
    var t := m1 + sep + p1;
    assert m1 == t[..|m1|] && m2 == t[..|m2|];
    assert p1 == t[|t| - |p1|..] && p2 == t[|t| - |p2|..];
  }

  /** Equal renderings are of equal numbers. */
  lemma NatToStringInjective(a: nat, b: nat)
    requires NatToString(a) == NatToString(b)
    ensures a == b
  {
    NatToStringRoundTrip(a);
    NatToStringRoundTrip(b);
  }

  /** Two minute displays that look alike show the same minutes and seconds. */
  lemma MinuteDisplaysInjective(m1: nat, s1: nat, m2: nat, s2: nat)
    requires s1 < 60 && s2 < 60
    requires NatToString(m1) + ":" + PadStart2(NatToString(s1)) == NatToString(m2) + ":" + PadStart2(NatToString(s2))
    ensures m1 == m2 && s1 == s2
  {
    TwoDigitSeconds(s1);
    TwoDigitSeconds(s2);
    ConcatCancel(NatToString(m1), ":", PadStart2(NatToString(s1)), NatToString(m2), PadStart2(NatToString(s2)));
    NatToStringInjective(m1, m2);
  }

  /** The displayed time determines the number of seconds: two different times never look alike. */
  lemma FormatTimeInjective(a: nat, b: nat)
    requires FormatTime(a) == FormatTime(b)
    ensures a == b
  {
    if a < 60 && b < 60 {
      ConcatCancel(NatToString(a), "s", [], NatToString(b), []);
      NatToStringInjective(a, b);
    } else if a >= 60 && b >= 60 {
      MinuteDisplaysInjective(a / 60, a % 60, b / 60, b % 60);
    }
  }
}
