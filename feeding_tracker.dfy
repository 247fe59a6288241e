/**
 * The feeding tracker screen: a nursing stopwatch with a Left and a Right
 * button, a bottle-entry button, the list of logs and a chart of the seven
 * newest ones. The one-second interval is an explicit `Tick`; dates and ids
 * are parameters; the prompt for a bottle amount is an `Option<int>` whose
 * `None` stands for a cancelled or empty answer.
 */
module FeedingTracker {
  import opened Types
  import opened Storage

  // ---------------------------------------------------------------------
  // Rounding of a nursing session to whole minutes
  // ---------------------------------------------------------------------

  /** `Math.ceil(seconds / 60)`: the fewest whole minutes covering `seconds`. */
  function CeilMinutes(seconds: nat): (m: nat)
    ensures m * 60 >= seconds
    ensures seconds > (m - 1) * 60
    ensures seconds == 0 ==> m == 0
  {
    (seconds + 59) / 60
  }

  // ---------------------------------------------------------------------
  // The MM:SS display
  // ---------------------------------------------------------------------

  function DigitChar(d: nat): char
    requires d < 10
  {
    "0123456789"[d]
  }

  // A reader of the display, independent of how it is produced.

  predicate IsDigit(c: char)
  {
    '0' <= c <= '9'
  }

  predicate AllDigits(s: string)
  {
    forall i :: 0 <= i < |s| ==> IsDigit(s[i])
  }

  function DigitsValue(s: string): nat
    requires AllDigits(s)
  {
    if |s| == 0 then 0 else DigitsValue(s[..|s| - 1]) * 10 + (s[|s| - 1] as int - '0' as int)
  }

  /** Position of the first `c` in `s`. */
  function IndexOf(s: string, c: char): (r: Option<nat>)
    ensures r.Some? ==> r.value < |s| && s[r.value] == c && c !in s[..r.value]
    ensures r.None? ==> c !in s
  {
    if |s| == 0 then None
    else if s[0] == c then Some(0)
    else match IndexOf(s[1..], c)
      case None => None
      case Some(k) => assert s[..k + 1] == [s[0]] + s[1..][..k]; Some(k + 1)
  }

  /** Reads "M...M:SS" with a non-empty minute field and a seconds field below 60. */
  function ParseClock(s: string): Option<nat>
  {
    match IndexOf(s, ':')
    case None => None
    case Some(k) => ParseFields(s[..k], s[k + 1..])
  }

  /** The value of a minutes field and a seconds field, when both are well formed. */
  function ParseFields(mins: string, secs: string): Option<nat>
  {
    if |mins| > 0 && |secs| > 0 && AllDigits(mins) && AllDigits(secs) && DigitsValue(secs) < 60
    then Some(DigitsValue(mins) * 60 + DigitsValue(secs))
    else None
  }

  // The display itself, and the proof that the reader inverts it.

  /** `n.toString()` for a non-negative integer: decimal digits that read back as `n`. */
  function NatToString(n: nat): (r: string)
    ensures |r| > 0 && AllDigits(r) && DigitsValue(r) == n
    ensures |r| == 1 <==> n < 10
    ensures |r| <= 2 <==> n < 100
    decreases n
  {
    if n < 10 then [DigitChar(n)]
    else
      var p := NatToString(n / 10);
      var r := p + [DigitChar(n % 10)];
      assert r[..|r| - 1] == p;
      r
  }

  /** `s.padStart(2, '0')`: zeros in front of `s` up to a width of two. */
  function PadStart2(s: string): (r: string)
    ensures |r| == if |s| < 2 then 2 else |s|
    ensures r[|r| - |s|..] == s
    ensures forall i :: 0 <= i < |r| - |s| ==> r[i] == '0'
  {
    if |s| == 0 then "00" else if |s| == 1 then ['0'] + s else s
  }

  /** A leading zero does not change the value of a digit string. */
  lemma {:induction false} LeadingZero(s: string)
    requires AllDigits(s)
    ensures AllDigits(['0'] + s) && DigitsValue(['0'] + s) == DigitsValue(s)
    decreases |s|
  {
    var z := ['0'] + s;
    if |s| > 0 {
      assert z[..|z| - 1] == ['0'] + s[..|s| - 1];
      LeadingZero(s[..|s| - 1]);
    }
  }

  /** A padded field of a number is a colon-free digit string that reads back as the number. */
  lemma PadStart2Digits(n: nat)
    ensures var p := PadStart2(NatToString(n));
      |p| > 0 && AllDigits(p) && DigitsValue(p) == n && ':' !in p
  {
    var s := NatToString(n);
    if |s| == 1 {
      LeadingZero(s);
    }
  }

  /** The first colon after a colon-free `a` splits `a + ":" + b` back into `a` and `b`. */
  lemma SplitAtColon(a: string, b: string)
    requires ':' !in a
    ensures ParseClock(a + ":" + b) == ParseFields(a, b)
  {
    var r := a + ":" + b;
    assert r[..|a|] == a && r[|a|] == ':';
    assert IndexOf(r, ':') == Some(|a|);
    assert r[|a| + 1..] == b;
  }

  /**
   * The stopwatch face: minutes and seconds, each padded to two digits. It
   * reads back as the number of seconds shown, and it is exactly five
   * characters wide below 100 minutes, wider from there on.
   */
  function FormatTime(totalSeconds: nat): (r: string)
    ensures ParseClock(r) == Some(totalSeconds)
    ensures |r| >= 5
    ensures |r| == 5 <==> totalSeconds < 6000
  {
    var m, sec := totalSeconds / 60, totalSeconds % 60;
    var a, b := PadStart2(NatToString(m)), PadStart2(NatToString(sec));
    PadStart2Digits(m);
    PadStart2Digits(sec);
    SplitAtColon(a, b);
    a + ":" + b
  }

  // ---------------------------------------------------------------------
  // The chart of the newest logs
  // ---------------------------------------------------------------------

  /** One bar: the log's date (formatting it as a weekday is left out), height and type. */
  datatype ChartPoint = ChartPoint(day: Timestamp, amount: Option<int>, kind: FeedType)

  function ChartAmount(log: FeedLog): Option<int>
  {
    if log.kind == Bottle then log.amountMl
    else Some((if log.durationMinutes.Some? then log.durationMinutes.value else 0) * 10)
  }

  /** The bars for the first (newest) seven logs, in list order. */
  function ChartData(logs: seq<FeedLog>): (r: seq<ChartPoint>)
    ensures |r| == if |logs| < 7 then |logs| else 7
    ensures forall i :: 0 <= i < |r| ==> r[i].day == logs[i].timestamp && r[i].kind == logs[i].kind
    ensures forall i :: 0 <= i < |r| && logs[i].kind == Bottle ==> r[i].amount == logs[i].amountMl
    ensures forall i :: 0 <= i < |r| && logs[i].kind != Bottle && logs[i].durationMinutes.Some? ==>
              r[i].amount == Some(logs[i].durationMinutes.value * 10)
    ensures forall i :: 0 <= i < |r| && logs[i].kind != Bottle && logs[i].durationMinutes.None? ==>
              r[i].amount == Some(0)
  {
    var n := if |logs| < 7 then |logs| else 7;
    seq(n, i requires 0 <= i < n => ChartPoint(logs[i].timestamp, ChartAmount(logs[i]), logs[i].kind))
  }

  // ---------------------------------------------------------------------
  // The component's state
  // ---------------------------------------------------------------------

  /** The sides the stopwatch buttons offer. */
  type TimerSide = s: Side | s != Both witness Left

  class Tracker {
    var logs: seq<FeedLog>
    var isTimerRunning: bool
    var timerSeconds: nat
    var activeSide: Option<TimerSide>

    /** A side is active exactly while the timer runs, and a stopped timer reads zero. */
    ghost predicate Valid()
      reads this
    {
      (isTimerRunning <==> activeSide.Some?) && (!isTimerRunning ==> timerSeconds == 0)
    }

    /** The component's initial state, before logs are loaded. */
    constructor ()
      ensures Valid()
      ensures logs == [] && !isTimerRunning && timerSeconds == 0 && activeSide == None
    {
      logs := [];
      isTimerRunning := false;
      timerSeconds := 0;
      activeSide := None;
    }

    /**
     * Loading on mount. When the stored logs read as empty, the given demo
     * logs (generated newest first, then reversed) are saved one by one, each
     * prepended, and are shown in the order given, oldest first; the store
     * ends up holding them in the opposite order, newest first.
     */
    method Mount(store: Store, seed: seq<FeedLog>)
      modifies this`logs, store`logs
      ensures old(store.GetFeedingLogs()) != [] ==> logs == old(store.GetFeedingLogs()) && store.logs == old(store.logs)
      ensures old(store.GetFeedingLogs()) == [] ==> logs == seed && |store.GetFeedingLogs()| == |seed|
      ensures old(store.GetFeedingLogs()) == [] ==>
        forall k :: 0 <= k < |seed| ==> store.GetFeedingLogs()[k] == seed[|seed| - 1 - k]
      ensures old(store.GetFeedingLogs()) == [] && seed != [] ==> store.logs.Present?
      ensures seed == [] ==> store.logs == old(store.logs)
    {
      var stored := store.GetFeedingLogs();
      if |stored| == 0 {
        var i := 0;
        while i < |seed|
          invariant 0 <= i <= |seed|
          invariant |store.GetFeedingLogs()| == i
          invariant forall k :: 0 <= k < i ==> store.GetFeedingLogs()[k] == seed[i - 1 - k]
          invariant i > 0 ==> store.logs.Present?
          invariant i == 0 ==> store.logs == old(store.logs)
        {
          var saved := store.SaveFeedingLog(seed[i]);
          i := i + 1;
        }
        logs := seed;
      } else {
        logs := stored;
      }
    }

    /** One second of the interval, which exists only while the timer runs. */
    method Tick()
      requires Valid()
      modifies this`timerSeconds
      ensures Valid()
      ensures timerSeconds == if isTimerRunning then old(timerSeconds) + 1 else old(timerSeconds)
    {
      if isTimerRunning {
        timerSeconds := timerSeconds + 1;
      }
    }

    /**
     * A press on a side button. Pressing the running side stops the timer
     * and saves one breast-feeding log for that side, rounded up to whole
     * minutes. Any other press starts (or keeps) the timer running on the
     * pressed side without saving and without resetting the seconds.
     */
    method ToggleTimer(store: Store, side: TimerSide, id: string, now: Timestamp)
      requires Valid()
      modifies this, store`logs
      ensures Valid()
      ensures old(isTimerRunning) && old(activeSide) == Some(side) ==>
        var saved := FeedLog(id, Breast, now, Some(CeilMinutes(old(timerSeconds))), None, Some(side), None);
        && store.logs == Present([saved] + old(store.GetFeedingLogs()))
        && logs == store.GetFeedingLogs()
        && !isTimerRunning && timerSeconds == 0 && activeSide == None
      ensures !(old(isTimerRunning) && old(activeSide) == Some(side)) ==>
        && isTimerRunning && activeSide == Some(side)
        && timerSeconds == old(timerSeconds) && logs == old(logs)
        && store.logs == old(store.logs)
    {
      if isTimerRunning && activeSide == Some(side) {
        isTimerRunning := false;
        var newLog := FeedLog(id, Breast, now, Some(CeilMinutes(timerSeconds)), None, Some(side), None);
        var updated := store.SaveFeedingLog(newLog);
        logs := updated;
        timerSeconds := 0;
        activeSide := None;
      } else {
        isTimerRunning := true;
        activeSide := Some(side);
      }
    }

    /** The bottle button: an answered prompt saves one bottle log; a cancelled one nothing. */
    method AddBottleLog(store: Store, entered: Option<int>, id: string, now: Timestamp)
      modifies this`logs, store`logs
      ensures entered.None? ==> logs == old(logs) && store.logs == old(store.logs)
      ensures entered.Some? ==>
        var saved := FeedLog(id, Bottle, now, None, Some(entered.value), None, None);
        store.logs == Present([saved] + old(store.GetFeedingLogs())) && logs == store.GetFeedingLogs()
    {
      if entered.Some? {
        var newLog := FeedLog(id, Bottle, now, None, Some(entered.value), None, None);
        var updated := store.SaveFeedingLog(newLog);
        logs := updated;
      }
    }
  }
}
