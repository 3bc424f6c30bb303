/** The heads-up display of a hazard hunt (src/components/scene/GameHUD.tsx):
    the clock, the progress bar, the low-time warning, the combo counter and
    the submit button. The clock reading `Date.now()` is passed in as `now`. */
module GameHUD {
  import opened Types

  // ---------------------------------------------------------------- clock

  /** The decimal digit character for 0..9. */
  function DigitChar(d: nat): (c: char)
    requires d < 10
    ensures '0' <= c <= '9'
  {
    ('0' as int + d) as char
  }

  /** `n.toString()` for a non-negative integer: its decimal digits. */
  function Digits(n: nat): (s: string)
    ensures |s| >= 1
    ensures forall i :: 0 <= i < |s| ==> '0' <= s[i] <= '9'
    decreases n
  {
    if n < 10 then [DigitChar(n)] else Digits(n / 10) + [DigitChar(n % 10)]
  }

  predicate AllDigits(s: string) {
    forall i :: 0 <= i < |s| ==> '0' <= s[i] <= '9'
  }

  /** The number a string of decimal digits denotes (an independent reading
      of the clock text, used to state what `formatTime` produces). */
  function Value(s: string): nat
    requires AllDigits(s)
  {
    if s == [] then 0 else 10 * Value(s[..|s| - 1]) + (s[|s| - 1] as int - '0' as int)
  }

  lemma {:induction false} ValueOfDigits(n: nat)
    ensures Value(Digits(n)) == n
    decreases n
  {
    if n >= 10 {
      ValueOfDigits(n / 10);
      var s := Digits(n);
      assert s[..|s| - 1] == Digits(n / 10);
    }
  }

  /** `secs.toString().padStart(2, '0')` for 0 <= secs < 60. */
  function Pad2(secs: nat): (s: string)
    requires secs < 60
    ensures |s| == 2 && AllDigits(s)
  {
    if secs < 10 then ['0'] + Digits(secs)
    else
      assert Digits(secs) == Digits(secs / 10) + [DigitChar(secs % 10)];
      Digits(secs)
  }

  lemma ValueOfPad2(secs: nat)
    requires secs < 60
    ensures Value(Pad2(secs)) == secs
  {
    ValueOfDigits(secs);
    if secs < 10 {
      var s := Pad2(secs);
      assert s[..1] == "0";
    }
  }

  /** Reads "M:SS" (one or more minute digits, exactly two second digits
      below 60) back into a number of seconds. */
  function ParseClock(s: string): Option<nat> {
    if |s| < 4 || s[|s| - 3] != ':' then None
    else
      var mins, secs := s[..|s| - 3], s[|s| - 2..];
      if AllDigits(mins) && AllDigits(secs) && Value(secs) < 60
      then Some(60 * Value(mins) + Value(secs))
      else None
  }

  /** `formatTime(seconds)`: whole minutes, a colon, and the seconds padded to
      two digits; reading it back gives the number of seconds. */
  function FormatTime(seconds: nat): (r: string)
    ensures |r| >= 4 && r[|r| - 3] == ':'
    ensures ParseClock(r) == Some(seconds)
  {
    var mins, secs := Digits(seconds / 60), Pad2(seconds % 60);
    var r := mins + [':'] + secs;
    assert r[..|r| - 3] == mins && r[|r| - 2..] == secs;
    ValueOfDigits(seconds / 60);
    ValueOfPad2(seconds % 60);
    r
  }

  /** Different times show different clock texts. */
  lemma FormatTimeInjective(t1: nat, t2: nat)
    requires FormatTime(t1) == FormatTime(t2)
    ensures t1 == t2
  {
  }

  /** The clock of a 300-second scene starts at "5:00". */
  lemma ClockOfFiveMinutes()
    ensures FormatTime(300) == "5:00"
  {
  }

  /** Seconds below ten are padded: 65 seconds read "1:05". */
  lemma ClockPadsSeconds()
    ensures FormatTime(65) == "1:05"
  {
  }

  /** `(identifiedHazards.length / hazards.length) * 100`, unrounded. */
  function Progress(identifiedCount: nat, hazardCount: nat): (r: real)
    requires hazardCount > 0
    ensures r * hazardCount as real == 100.0 * identifiedCount as real
    ensures 0.0 <= r
    ensures identifiedCount <= hazardCount ==> r <= 100.0
    ensures r == 100.0 <==> identifiedCount == hazardCount
  {
    var share := identifiedCount as real / hazardCount as real;
    assert share * hazardCount as real == identifiedCount as real;
    share * 100.0
  }

  /** `timeRemaining < 60`: the clock turns red in the last minute, which is
      exactly while it reads "0:ss". */
  function IsLowTime(timeRemaining: nat): (r: bool)
    ensures r <==> FormatTime(timeRemaining)[..2] == "0:"
  {
    MinutesFieldZero(timeRemaining);
    timeRemaining < 60
  }

  /** The clock text starts with "0:" exactly when no whole minute is left. */
  lemma MinutesFieldZero(seconds: nat)
    ensures FormatTime(seconds)[..2] == "0:" <==> seconds / 60 == 0
  {
    var m := seconds / 60;
    var r := FormatTime(seconds);
    assert r == Digits(m) + [':'] + Pad2(seconds % 60);
    if m == 0 {
      assert Digits(m) == ['0'];
    } else if m < 10 {
      assert r[0] == DigitChar(m) != '0';
    } else {
      assert Digits(m) == Digits(m / 10) + [DigitChar(m % 10)];
      assert '0' <= r[1] <= '9';
    }
  }

  // ---------------------------------------------------------------- combo

  /** The longest gap between two finds that still extends the combo (ms). */
  const ComboWindow: int := 5000
  /** The idle time after which the combo resets (ms). */
  const ComboDecay: int := 8000
  /** The highest combo. */
  const MaxCombo: nat := 5

  /** The combo state: `combo` and `lastFindTime`. */
  datatype ComboState = ComboState(combo: nat, lastFindTime: int)

  const InitialCombo := ComboState(0, 0)

  function Min(a: nat, b: nat): nat {
    if a <= b then a else b
  }

  /** The effect run when the number of identified hazards changes: a find
      within the window extends the combo (at most MaxCombo), a later one
      restarts it at 1; an empty list (a reset) leaves it alone. */
  function OnFoundCountChange(c: ComboState, foundCount: nat, now: int): (r: ComboState)
    ensures foundCount == 0 ==> r == c
    ensures foundCount > 0 ==> r.lastFindTime == now && 1 <= r.combo
    ensures foundCount > 0 && now - c.lastFindTime >= ComboWindow ==> r.combo == 1
    ensures foundCount > 0 && now - c.lastFindTime < ComboWindow ==> r.combo == Min(c.combo + 1, MaxCombo)
    ensures c.combo <= MaxCombo ==> r.combo <= MaxCombo
  {
    if foundCount > 0 then
      var combo := if now - c.lastFindTime < ComboWindow then Min(c.combo + 1, MaxCombo) else 1;
      ComboState(combo, now)
    else c
  }

  /** The once-a-second decay check: after more than ComboDecay ms without a
      find, a running combo drops to 0. */
  function DecayTick(c: ComboState, now: int): (r: ComboState)
    ensures r.lastFindTime == c.lastFindTime
    ensures r.combo == 0 || r == c
    ensures r.combo != c.combo <==> now - c.lastFindTime > ComboDecay && c.combo > 0
  {
    if now - c.lastFindTime > ComboDecay && c.combo > 0 then c.(combo := 0) else c
  }

  /** What reaches the combo counter: a change of the found count, or a tick. */
  datatype ComboEvent = FoundCountChanged(foundCount: nat, now: int) | Tick(now: int)

  function ComboStep(c: ComboState, e: ComboEvent): ComboState {
    match e
    case FoundCountChanged(n, now) => OnFoundCountChange(c, n, now)
    case Tick(now) => DecayTick(c, now)
  }

  function ComboRun(c: ComboState, events: seq<ComboEvent>): ComboState
    decreases |events|
  {
    if events == [] then c else ComboRun(ComboStep(c, events[0]), events[1..])
  }

  /** The combo never exceeds MaxCombo, whatever happens. */
  lemma {:induction false} ComboBounded(c: ComboState, events: seq<ComboEvent>)
    requires c.combo <= MaxCombo
    ensures ComboRun(c, events).combo <= MaxCombo
    decreases |events|
  {
    if events != [] {
      ComboBounded(ComboStep(c, events[0]), events[1..]);
    }
  }

  /** The state after finds at the given times (the found count is positive
      after each find). */
  function FindsAt(c: ComboState, times: seq<int>): ComboState
    decreases |times|
  {
    if times == [] then c else FindsAt(OnFoundCountChange(c, 1, times[0]), times[1..])
  }

  /** A streak of finds, the first after a pause and each later one within
      the window of the previous, shows a combo of the streak's length,
      capped at MaxCombo. */
  lemma {:induction false} StreakCombo(c: ComboState, times: seq<int>)
    requires |times| >= 1
    requires times[0] - c.lastFindTime >= ComboWindow
    requires forall i :: 1 <= i < |times| ==> times[i] - times[i - 1] < ComboWindow
    ensures FindsAt(c, times).combo == Min(|times|, MaxCombo)
    ensures FindsAt(c, times).lastFindTime == times[|times| - 1]
  {
    StreakExtends(OnFoundCountChange(c, 1, times[0]), times[1..]);
  }

  lemma {:induction false} StreakExtends(c: ComboState, times: seq<int>)
    requires 1 <= c.combo <= MaxCombo
    requires times != [] ==> times[0] - c.lastFindTime < ComboWindow
    requires forall i :: 1 <= i < |times| ==> times[i] - times[i - 1] < ComboWindow
    ensures FindsAt(c, times).combo == Min(c.combo + |times|, MaxCombo)
    ensures times != [] ==> FindsAt(c, times).lastFindTime == times[|times| - 1]
    ensures times == [] ==> FindsAt(c, times) == c
    decreases |times|
  {
    if times != [] {
      var next := OnFoundCountChange(c, 1, times[0]);
      assert forall i :: 1 <= i < |times[1..]| ==> times[1..][i] - times[1..][i - 1] < ComboWindow by {
        forall i | 1 <= i < |times[1..]|
          ensures times[1..][i] - times[1..][i - 1] < ComboWindow
        {
          assert times[1..][i] == times[i + 1] && times[1..][i - 1] == times[i];
        }
      }
      StreakExtends(next, times[1..]);
    }
  }

  /** The combo badge appears from a combo of two on. */
  predicate ShowComboBadge(c: ComboState) {
    c.combo > 1
  }

  /** Right after a find the badge shows exactly when that find came within
      the window of the previous one while a combo was running; a decay tick
      more than ComboDecay ms after the last find hides it. */
  lemma ComboBadgeShows(c: ComboState, foundCount: nat, now: int)
    requires foundCount > 0
    ensures ShowComboBadge(OnFoundCountChange(c, foundCount, now)) <==>
              now - c.lastFindTime < ComboWindow && c.combo >= 1
    ensures now - c.lastFindTime > ComboDecay ==> !ShowComboBadge(DecayTick(c, now))
  {
  }

  /** Two quick finds after a pause show the badge with "2x". */
  lemma TwoQuickFindsShowBadge(t0: int, t1: int)
    requires t0 >= ComboWindow && 0 <= t1 - t0 < ComboWindow
    ensures FindsAt(InitialCombo, [t0, t1]).combo == 2
    ensures ShowComboBadge(FindsAt(InitialCombo, [t0, t1]))
  {
    StreakCombo(InitialCombo, [t0, t1]);
  }

  /** The combo part of the display, with its two effects. */
  class ComboCounter {
    var combo: nat
    var lastFindTime: int

    function State(): ComboState
      reads this
    {
      ComboState(combo, lastFindTime)
    }

    constructor ()
      ensures State() == InitialCombo
    {
      combo := 0;
      lastFindTime := 0;
    }

    method FoundCountChanged(foundCount: nat, now: int)
      modifies this
      ensures State() == OnFoundCountChange(old(State()), foundCount, now)
    {
      if foundCount > 0 {
        if now - lastFindTime < ComboWindow {
          combo := Min(combo + 1, MaxCombo);
        } else {
          combo := 1;
        }
        lastFindTime := now;
      }
    }

    method Tick(now: int)
      modifies this
      ensures State() == DecayTick(old(State()), now)
    {
      if now - lastFindTime > ComboDecay && combo > 0 {
        combo := 0;
      }
    }
  }

  // ---------------------------------------------------------- the display

  /** A hazard's indicator: a tick once found, else its 1-based number. */
  datatype Indicator = Found | Number(n: nat)

  function Indicators(hazards: seq<Hazard>, identified: seq<string>): (r: seq<Indicator>)
    ensures |r| == |hazards|
    ensures forall i :: 0 <= i < |r| ==>
              (hazards[i].id in identified ==> r[i] == Found) &&
              (hazards[i].id !in identified ==> r[i] == Number(i + 1))
  {
    seq(|hazards|, i requires 0 <= i < |hazards| =>
      if hazards[i].id in identified then Found else Number(i + 1))
  }

  /** What the display shows besides the scene. */
  datatype Display = Display(
    clock: string,
    lowTime: bool,
    progress: real,
    indicators: seq<Indicator>,
    comboBadge: Option<nat>,
    submitDisabled: bool,
    submitLabel: string)

  /** The display for the component's inputs and the combo state. */
  function Render(hazards: seq<Hazard>, identified: seq<string>, timeRemaining: nat,
                  isComplete: bool, c: ComboState): (d: Display)
    requires |hazards| > 0
    ensures ParseClock(d.clock) == Some(timeRemaining)
    ensures d.lowTime <==> timeRemaining < 60
    ensures d.comboBadge.Some? <==> c.combo > 1
    ensures d.comboBadge.Some? ==> d.comboBadge.value == c.combo
    ensures d.submitDisabled <==> |identified| == 0
    ensures d.submitLabel == (if isComplete then "View Results" else "Submit Assessment")
    ensures d.progress == Progress(|identified|, |hazards|)
    ensures |identified| <= |hazards| ==> 0.0 <= d.progress <= 100.0
    ensures d.indicators == Indicators(hazards, identified)
  {
    Display(
      FormatTime(timeRemaining),
      IsLowTime(timeRemaining),
      Progress(|identified|, |hazards|),
      Indicators(hazards, identified),
      if ShowComboBadge(c) then Some(c.combo) else None,
      |identified| == 0,
      if isComplete then "View Results" else "Submit Assessment")
  }
}
