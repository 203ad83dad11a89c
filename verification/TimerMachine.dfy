/**
 * The countdown state of the timer provider as a value, and each of its
 * operations as a function from the old state to the new one.
 *
 * The state includes the analytics store's state, because the timer's
 * operations call `startSession` / `endSession`; those calls appear here as
 * `AfterStart` / `AfterEnd`. The interval that decrements the countdown
 * becomes the explicit step `Tick`, and the effect that reacts to a
 * countdown at or below zero becomes the step `ExpiryEffect`, which `Tick`
 * runs after the decrement. The class `TimerContext.TimerProvider`
 * performs the same operations in place and is proved against these
 * functions.
 */
module TimerMachine {
  import opened Js
  import Arith
  import Analytics = AnalyticsService

  datatype TimerState = Stopped | Running

  datatype TimerType = Session | Break | LongBreak

  const DefaultBreakLength: int := 5
  const DefaultSessionLength: int := 25
  const DefaultLongBreakLength: int := 15
  const DefaultSessionsBeforeLongBreak: int := 4

  /** The four settings as read from storage at start-up; `None` where a key is missing or empty. */
  datatype StoredSettings = StoredSettings(
    breakLength: Option<int>,
    sessionLength: Option<int>,
    longBreakLength: Option<int>,
    sessionsBeforeLongBreak: Option<int>)

  datatype TimerModel = TimerModel(
    timer: int,
    timerState: TimerState,
    timerType: TimerType,
    breakLength: int,
    sessionLength: int,
    longBreakLength: int,
    sessionsBeforeLongBreak: int,
    sessionCount: int,
    completedSessionCycleCount: int,
    alarms: nat,
    analytics: Analytics.StoreState)

  /** The length, in minutes, configured for a phase. */
  function LengthOf(m: TimerModel, phase: TimerType): int {
    match phase
    case Session => m.sessionLength
    case Break => m.breakLength
    case LongBreak => m.longBreakLength
  }

  /** The settings and the store are the same in both states. */
  predicate SameSettings(a: TimerModel, b: TimerModel) {
    && a.breakLength == b.breakLength
    && a.sessionLength == b.sessionLength
    && a.longBreakLength == b.longBreakLength
    && a.sessionsBeforeLongBreak == b.sessionsBeforeLongBreak
  }

  /**
   * What every reachable state satisfies: the counters are never negative,
   * the store is consistent, and a running work session always has an open
   * analytics session.
   */
  ghost predicate Inv(m: TimerModel, loaded: nat) {
    && 0 <= m.completedSessionCycleCount
    && 0 <= m.sessionCount
    && Analytics.Consistent(m.analytics, loaded)
    && (m.timerState == Running && m.timerType == Session ==> m.analytics.currentSession.Some?)
  }

  /** The provider's initial state. */
  function Initial(stored: StoredSettings, analytics: Analytics.StoreState): (m: TimerModel)
    ensures m.timer == stored.sessionLength.GetOr(DefaultSessionLength) * 60
    ensures m.timer == LengthOf(m, m.timerType) * 60
    ensures m.breakLength == stored.breakLength.GetOr(DefaultBreakLength)
    ensures m.longBreakLength == stored.longBreakLength.GetOr(DefaultLongBreakLength)
    ensures m.sessionsBeforeLongBreak == stored.sessionsBeforeLongBreak.GetOr(DefaultSessionsBeforeLongBreak)
    ensures m.timerState == Stopped && m.timerType == Session
    ensures m.completedSessionCycleCount == 0 && m.sessionCount == 0 && m.alarms == 0 && m.analytics == analytics
    ensures forall n: nat :: Analytics.Consistent(analytics, n) ==> Inv(m, n)
  {
    var sessionLength := stored.sessionLength.GetOr(DefaultSessionLength);
    TimerModel(
      sessionLength * 60, Stopped, Session,
      stored.breakLength.GetOr(DefaultBreakLength),
      sessionLength,
      stored.longBreakLength.GetOr(DefaultLongBreakLength),
      stored.sessionsBeforeLongBreak.GetOr(DefaultSessionsBeforeLongBreak),
      0, 0, 0, analytics)
  }

  /** `timerControl`: start or stop; a work session is reported to analytics. */
  function TimerControl(m: TimerModel, now: int): (r: TimerModel)
    ensures r.timer == m.timer && r.timerType == m.timerType && SameSettings(r, m)
    ensures r.timerState != m.timerState
    ensures r.completedSessionCycleCount == m.completedSessionCycleCount && r.alarms == m.alarms
    ensures m.timerType != Session ==> r.analytics == m.analytics && r.sessionCount == m.sessionCount
    ensures m.timerType == Session && m.timerState == Stopped ==>
              r.analytics == Analytics.AfterStart(m.analytics, now).0 && r.sessionCount == m.sessionCount
    ensures m.timerType == Session && m.timerState == Running ==>
              r.analytics == Analytics.AfterEnd(m.analytics, now) && r.sessionCount == m.sessionCount + 1
  {
    if m.timerState == Stopped then
      m.(timerState := Running,
         analytics := if m.timerType == Session then Analytics.AfterStart(m.analytics, now).0 else m.analytics)
    else
      m.(timerState := Stopped,
         analytics := if m.timerType == Session then Analytics.AfterEnd(m.analytics, now) else m.analytics,
         sessionCount := if m.timerType == Session then m.sessionCount + 1 else m.sessionCount)
  }

  /** How a finished work session advances the long-break cycle: the next phase and the new cycle count. */
  function NextCycle(completed: int, sessionsBeforeLongBreak: int): (r: (TimerType, int))
    ensures r.0 == LongBreak <==> completed + 1 >= sessionsBeforeLongBreak
    ensures r.0 != Session
    ensures sessionsBeforeLongBreak >= 1 && completed >= 0 ==> 0 <= r.1 < sessionsBeforeLongBreak
  {
    var nextSessionCount := completed + 1;
    if nextSessionCount >= sessionsBeforeLongBreak then (LongBreak, 0) else (Break, nextSessionCount)
  }

  /** The body of the expiry effect: stop, sound the alarm, and move to the next phase. */
  function Expire(m: TimerModel, now: int): (r: TimerModel)
    ensures r.timerState == Stopped && r.alarms == m.alarms + 1 && SameSettings(r, m)
    ensures r.timer == LengthOf(r, r.timerType) * 60
    ensures (r.timerType == Session) <==> (m.timerType != Session)
  {
    var stopped := m.(timerState := Stopped, alarms := m.alarms + 1);
    if m.timerType == Session then
      var (phase, cycle) := NextCycle(m.completedSessionCycleCount, m.sessionsBeforeLongBreak);
      stopped.(analytics := Analytics.AfterEnd(m.analytics, now),
               sessionCount := m.sessionCount + 1,
               timerType := phase,
               timer := LengthOf(m, phase) * 60,
               completedSessionCycleCount := cycle)
    else
      stopped.(timerType := Session,
               timer := m.sessionLength * 60,
               analytics := Analytics.AfterStart(m.analytics, now).0)
  }

  /**
   * The expiry effect, which acts only once the countdown is at or below
   * zero: then the timer stops, one alarm sounds, and the other kind of
   * phase starts at its full length.
   */
  function ExpiryEffect(m: TimerModel, now: int): (r: TimerModel)
    ensures m.timer > 0 ==> r == m
    ensures m.timer <= 0 ==>
              && r.timerState == Stopped && r.alarms == m.alarms + 1
              && (r.timerType == Session <==> m.timerType != Session)
              && r.timer == LengthOf(r, r.timerType) * 60
    ensures SameSettings(r, m)
  {
    if m.timer <= 0 then Expire(m, now) else m
  }

  /**
   * One period of the interval: decrement, then the expiry effect. A tick
   * that does not reach zero lowers the countdown by exactly one and changes
   * nothing else; the tick that reaches zero ends the phase.
   */
  function Tick(m: TimerModel, now: int): (r: TimerModel)
    ensures m.timer > 1 ==> r == m.(timer := m.timer - 1)
    ensures m.timer <= 1 ==>
              && r.timerState == Stopped && r.alarms == m.alarms + 1
              && (r.timerType == Session <==> m.timerType != Session)
    ensures SameSettings(r, m)
  {
    ExpiryEffect(m.(timer := m.timer - 1), now)
  }

  /**
   * `handleReset` from any state restores the defaults, and ends an
   * analytics session only if the timer was running.
   */
  function HandleReset(m: TimerModel, now: int): (r: TimerModel)
    ensures r.timer == 1500 && r.timerState == Stopped && r.timerType == Session
    ensures r.breakLength == 5 && r.sessionLength == 25 && r.longBreakLength == 15 && r.sessionsBeforeLongBreak == 4
    ensures r.completedSessionCycleCount == 0 && r.sessionCount == 0 && r.alarms == m.alarms
    ensures m.timerState == Running ==> r.analytics == Analytics.AfterEnd(m.analytics, now)
    ensures m.timerState == Stopped ==> r.analytics == m.analytics
    ensures r.timer == LengthOf(r, r.timerType) * 60
  {
    TimerModel(
      25 * 60, Stopped, Session,
      DefaultBreakLength, DefaultSessionLength, DefaultLongBreakLength, DefaultSessionsBeforeLongBreak,
      0, 0, m.alarms,
      if m.timerState == Running then Analytics.AfterEnd(m.analytics, now) else m.analytics)
  }

  /** `switchToBreak`: stop and load a full short break, without any analytics call. */
  function SwitchToBreak(m: TimerModel): (r: TimerModel)
    ensures r.timerState == Stopped && r.timerType == Break && r.timer == m.breakLength * 60
    ensures r.analytics == m.analytics && r.sessionCount == m.sessionCount && r.alarms == m.alarms
    ensures r.completedSessionCycleCount == m.completedSessionCycleCount && SameSettings(r, m)
  {
    m.(timerState := Stopped, timerType := Break, timer := m.breakLength * 60)
  }

  /** `switchToSession`: stop and load a full work session, without any analytics call. */
  function SwitchToSession(m: TimerModel): (r: TimerModel)
    ensures r.timerState == Stopped && r.timerType == Session && r.timer == m.sessionLength * 60
    ensures r.analytics == m.analytics && r.sessionCount == m.sessionCount && r.alarms == m.alarms
    ensures r.completedSessionCycleCount == m.completedSessionCycleCount && SameSettings(r, m)
  {
    m.(timerState := Stopped, timerType := Session, timer := m.sessionLength * 60)
  }

  /**
   * `setSessionLength` followed by the effect that keeps the countdown in
   * step with it: the effect runs only when the value changes, and resets
   * the countdown only in the Session phase.
   */
  function SetSessionLength(m: TimerModel, length: int): (r: TimerModel)
    ensures r.sessionLength == length
    ensures m.timerType == Session && length != m.sessionLength ==> r.timer == length * 60
    ensures m.timerType != Session || length == m.sessionLength ==> r.timer == m.timer
    ensures r.(sessionLength := m.sessionLength, timer := m.timer) == m
  {
    if length == m.sessionLength then m
    else if m.timerType == Session then m.(sessionLength := length, timer := length * 60)
    else m.(sessionLength := length)
  }

  /** The other setters change their own setting and nothing else, the countdown included. */
  function SetBreakLength(m: TimerModel, length: int): (r: TimerModel)
    ensures r.breakLength == length && r.(breakLength := m.breakLength) == m
  {
    m.(breakLength := length)
  }

  function SetLongBreakLength(m: TimerModel, length: int): (r: TimerModel)
    ensures r.longBreakLength == length && r.(longBreakLength := m.longBreakLength) == m
  {
    m.(longBreakLength := length)
  }

  function SetSessionsBeforeLongBreak(m: TimerModel, sessions: int): (r: TimerModel)
    ensures r.sessionsBeforeLongBreak == sessions && r.(sessionsBeforeLongBreak := m.sessionsBeforeLongBreak) == m
  {
    m.(sessionsBeforeLongBreak := sessions)
  }

  /** `clockify`: the countdown as minutes and seconds, each padded to two digits. */
  function Clockify(timer: int): (r: string)
    ensures timer >= 0 ==>
              && |r| >= 5 && r[|r| - 3] == ':'
              && AllDigits(r[..|r| - 3]) && AllDigits(r[|r| - 2..])
              && DigitsValue(r[|r| - 2..]) < 60
              && DigitsValue(r[..|r| - 3]) * 60 + DigitsValue(r[|r| - 2..]) == timer
  {
    var minutes := timer / 60;
    var seconds := Rem(timer, 60);
    var mm, ss := PadTwo(minutes), PadTwo(seconds);
    var r := mm + ":" + ss;
    assert timer >= 0 ==> r[..|r| - 3] == mm && r[|r| - 2..] == ss;
    r
  }

  function ControlIcon(state: TimerState): string {
    if state == Stopped then "fa fa-play fa-2x" else "fa fa-pause fa-2x"
  }

  // ---------------------------------------------------------------------
  // Every operation, as one event type

  datatype Event =
    | Control(now: int)
    | Second(now: int)
    | ResetPressed(now: int)
    | ForceBreak
    | ForceSession
    | SessionLengthSet(length: int)
    | BreakLengthSet(length: int)
    | LongBreakLengthSet(length: int)
    | CycleLengthSet(sessions: int)
    | Expiry(now: int)

  function Step(m: TimerModel, e: Event): TimerModel {
    match e
    case Control(now) => TimerControl(m, now)
    case Second(now) => Tick(m, now)
    case ResetPressed(now) => HandleReset(m, now)
    case ForceBreak => SwitchToBreak(m)
    case ForceSession => SwitchToSession(m)
    case SessionLengthSet(length) => SetSessionLength(m, length)
    case BreakLengthSet(length) => SetBreakLength(m, length)
    case LongBreakLengthSet(length) => SetLongBreakLength(m, length)
    case CycleLengthSet(sessions) => SetSessionsBeforeLongBreak(m, sessions)
    case Expiry(now) => ExpiryEffect(m, now)
  }

  // ---------------------------------------------------------------------
  // Properties

  /** No operation breaks the invariant. */
  lemma StepPreservesInv(m: TimerModel, e: Event, loaded: nat)
    requires Inv(m, loaded)
    ensures Inv(Step(m, e), loaded)
  {
  }

  /**
   * Starting and then stopping a work session, with no tick in between,
   * leaves the countdown where it was and records exactly one session in
   * the history, spanning the two button presses.
   */
  lemma StartStopRecordsOneSession(m: TimerModel, loaded: nat, t1: int, t2: int)
    requires Inv(m, loaded) && m.timerState == Stopped && m.timerType == Session
    requires m.analytics.currentSession.None?
    ensures var r := TimerControl(TimerControl(m, t1), t2);
            && r.timer == m.timer && r.timerState == Stopped && r.timerType == Session
            && r.sessionCount == m.sessionCount + 1
            && r.analytics.currentSession.None?
            && r.analytics.sessions == m.analytics.sessions
                 + [Analytics.Session(m.analytics.sessionIdCounter + 1, t1, Some(t2), Some(t2 - t1))]
  {
  }

  /**
   * When a work session runs out: the timer stops, the analytics session
   * ends, and the next phase is a long break exactly when the cycle is
   * complete; the cycle count then stays below its threshold.
   */
  lemma SessionExpiry(m: TimerModel, now: int)
    requires m.timerType == Session && m.timer <= 0 && m.completedSessionCycleCount >= 0
    ensures var r := ExpiryEffect(m, now);
            && r.timerState == Stopped
            && r.analytics == Analytics.AfterEnd(m.analytics, now)
            && r.sessionCount == m.sessionCount + 1
            && (m.completedSessionCycleCount + 1 >= m.sessionsBeforeLongBreak ==>
                  r.timerType == LongBreak && r.timer == m.longBreakLength * 60 && r.completedSessionCycleCount == 0)
            && (m.completedSessionCycleCount + 1 < m.sessionsBeforeLongBreak ==>
                  r.timerType == Break && r.timer == m.breakLength * 60
                  && r.completedSessionCycleCount == m.completedSessionCycleCount + 1)
            && (m.sessionsBeforeLongBreak >= 1 ==> r.completedSessionCycleCount < m.sessionsBeforeLongBreak)
  {
  }

  /**
   * When a break runs out: a work session is due, the analytics session is
   * started already, but the timer stays stopped and the cycle count is kept.
   */
  lemma BreakExpiry(m: TimerModel, now: int)
    requires m.timerType != Session && m.timer <= 0
    ensures var r := ExpiryEffect(m, now);
            && r.timerType == Session && r.timer == m.sessionLength * 60
            && r.timerState == Stopped
            && r.analytics == Analytics.AfterStart(m.analytics, now).0
            && r.completedSessionCycleCount == m.completedSessionCycleCount
            && r.sessionCount == m.sessionCount
  {
  }

  /**
   * The start/stop press that follows a break's expiry calls `startSession`
   * a second time. Because a session is then already open, the call creates
   * nothing: the store is unchanged, and the open session is the one the
   * break's expiry opened, so its duration will count from that expiry
   * rather than from the press.
   */
  lemma BreakExpiryThenStartReusesSession(m: TimerModel, loaded: nat, t1: int, t2: int)
    requires Inv(m, loaded) && m.timerType != Session && m.timer == 1 && m.timerState == Running
    requires m.analytics.currentSession.None?
    ensures var after := Tick(m, t1);
            var started := TimerControl(after, t2);
            && after.timerType == Session && after.timerState == Stopped
            && after.analytics.currentSession.Some?
            && after.analytics.currentSession.value.startTime == t1
            && started.timerState == Running
            && started.analytics == after.analytics
            && started.analytics.sessions == m.analytics.sessions
  {
  }

  /** Ticking once per element of `times`. */
  function Ticks(m: TimerModel, times: seq<int>): TimerModel
    decreases |times|
  {
    if times == [] then m else Ticks(Tick(m, times[0]), times[1..])
  }

  /** A running countdown of `n` seconds expires on exactly its `n`-th tick. */
  lemma {:induction false} CountdownReachesExpiry(m: TimerModel, times: seq<int>)
    requires m.timerState == Running && m.timer == |times| >= 1
    ensures Ticks(m, times) == Expire(m.(timer := 0), times[|times| - 1])
    decreases |times|
  {
    var next := Tick(m, times[0]);
    if |times| == 1 {
      assert Ticks(m, times) == Ticks(next, []);
    } else {
      assert next == m.(timer := m.timer - 1);
      CountdownReachesExpiry(next, times[1..]);
      assert next.(timer := 0) == m.(timer := 0);
    }
  }

  /**
   * A full work session: started with its own length on the clock and
   * ticked to the end, it becomes a short break (when the cycle is not
   * complete) and leaves one closed session in the history.
   */
  lemma FullSessionBecomesBreak(m: TimerModel, loaded: nat, times: seq<int>)
    requires Inv(m, loaded) && m.timerState == Running && m.timerType == Session
    requires m.timer == |times| >= 1
    requires m.completedSessionCycleCount + 1 < m.sessionsBeforeLongBreak
    ensures var r := Ticks(m, times);
            && r.timerType == Break && r.timerState == Stopped && r.timer == m.breakLength * 60
            && r.completedSessionCycleCount == m.completedSessionCycleCount + 1
            && r.analytics.sessions == m.analytics.sessions
                 + [Analytics.Close(m.analytics.currentSession.value, times[|times| - 1])]
  {
    CountdownReachesExpiry(m, times);
  }

  /** `k` full rounds: a work session expiring, then the break after it expiring. */
  function Rounds(m: TimerModel, k: nat, now: int): TimerModel {
    if k == 0 then m else Expire(Expire(Rounds(m, k - 1, now), now), now)
  }

  /** After `k` rounds the cycle count is the number of finished sessions modulo the threshold. */
  lemma {:induction false} RoundsCountModulo(m: TimerModel, k: nat, now: int)
    requires m.timerType == Session && m.sessionsBeforeLongBreak >= 1
    requires 0 <= m.completedSessionCycleCount < m.sessionsBeforeLongBreak
    ensures var r := Rounds(m, k, now);
            && r.timerType == Session && SameSettings(r, m)
            && r.completedSessionCycleCount == (m.completedSessionCycleCount + k) % m.sessionsBeforeLongBreak
  {
    if k > 0 {
      RoundsCountModulo(m, k - 1, now);
      Arith.ModSucc(m.completedSessionCycleCount + k - 1, m.sessionsBeforeLongBreak);
    }
  }

  /**
   * With a threshold of `N`, the work session that ends after `k` full
   * rounds earns a long break exactly when it is a multiple of `N` counted
   * from the start of the cycle.
   */
  lemma LongBreakEveryNthSession(m: TimerModel, k: nat, now: int)
    requires m.timerType == Session && m.sessionsBeforeLongBreak >= 1
    requires 0 <= m.completedSessionCycleCount < m.sessionsBeforeLongBreak
    ensures var r := Expire(Rounds(m, k, now), now);
            && (r.timerType == LongBreak <==> (m.completedSessionCycleCount + k + 1) % m.sessionsBeforeLongBreak == 0)
            && (r.timerType == LongBreak ==> r.completedSessionCycleCount == 0 && r.timer == m.longBreakLength * 60)
  {
    RoundsCountModulo(m, k, now);
    Arith.ModSucc(m.completedSessionCycleCount + k, m.sessionsBeforeLongBreak);
  }

  /** With the default threshold of four, sessions one to three end in short breaks and the fourth in a long one. */
  lemma FourthSessionEarnsLongBreak(m: TimerModel, now: int)
    requires m.timerType == Session && m.sessionsBeforeLongBreak == 4 && m.completedSessionCycleCount == 0
    ensures Expire(Rounds(m, 0, now), now).timerType == Break
    ensures Expire(Rounds(m, 1, now), now).timerType == Break
    ensures Expire(Rounds(m, 2, now), now).timerType == Break
    ensures Expire(Rounds(m, 3, now), now).timerType == LongBreak
  {
    LongBreakEveryNthSession(m, 0, now);
    LongBreakEveryNthSession(m, 1, now);
    LongBreakEveryNthSession(m, 2, now);
    LongBreakEveryNthSession(m, 3, now);
  }

  lemma ClockifyExamples()
    ensures Clockify(1500) == "25:00"
    ensures Clockify(299) == "04:59"
  {
    assert NatToString(2) == "2";
    assert NatToString(25) == "25";
    assert PadTwo(25) == "25";
    assert NatToString(0) == "0";
    assert PadTwo(0) == "00";
    assert 1500 / 60 == 25 && Rem(1500, 60) == 0;
    assert NatToString(4) == "4";
    assert PadTwo(4) == "04";
    assert NatToString(5) == "5";
    assert NatToString(59) == "59";
    assert PadTwo(59) == "59";
    assert 299 / 60 == 4 && Rem(299, 60) == 59;
  }
}
