/**
 * The older timer component: one class whose state the handlers update in
 * place. Lengths stay within 1..60 and cannot change while the timer runs,
 * a phase ends only once the countdown has gone below zero, the countdown
 * then restarts on its own, and there is no long break.
 *
 * The interval handle becomes the flag `countdownActive`, and the audio
 * element becomes the `buzzed` result of a tick.
 */
module LegacyApp {
  import opened Js
  import TimerMachine

  datatype RunState = Stopped | Running

  datatype Phase = Session | Break

  datatype Color = White | Blue

  datatype Icon = PlayIcon | PauseIcon

  /** Which length a length button edits. */
  datatype LengthField = BreakLengthField | SessionLengthField

  /** `warning`: the display turns blue in the last minute. */
  function WarningColor(timer: int): (c: Color)
    ensures c == Blue <==> timer < 61
  {
    if timer < 61 then Blue else White
  }

  /** The start button shows play while stopped and pause while running. */
  function IconFor(state: RunState): (icon: Icon)
    ensures icon == PlayIcon <==> state == Stopped
  {
    if state == Stopped then PlayIcon else PauseIcon
  }

  /** `clockify`: minutes rounded down, seconds the rest, each zero-padded below ten. */
  function Clockify(timer: int): (r: string)
    ensures timer >= 0 ==>
              && |r| >= 5 && r[|r| - 3] == ':'
              && AllDigits(r[..|r| - 3]) && AllDigits(r[|r| - 2..])
              && DigitsValue(r[|r| - 2..]) < 60
              && DigitsValue(r[..|r| - 3]) * 60 + DigitsValue(r[|r| - 2..]) == timer
    ensures 0 <= timer < 6000 ==> |r| == 5
  {
    var minutes := timer / 60;
    var seconds := timer - minutes * 60;
    var mm, ss := PadTwo(minutes), PadTwo(seconds);
    var r := mm + ":" + ss;
    assert timer >= 0 ==> r[..|r| - 3] == mm && r[|r| - 2..] == ss;
    r
  }

  /** On every countdown value the two timer variants show the same text. */
  lemma ClockifyAgreesWithTimerContext(timer: int)
    requires timer >= 0
    ensures Clockify(timer) == TimerMachine.Clockify(timer)
  {
  }

  class Timer {
    var timer: int
    var breakLength: int
    var sessionLength: int
    var timerState: RunState
    var timerType: Phase
    var countdownActive: bool
    var alarmColor: Color
    var startButton: Icon

    /** Holds between ticks; only `timer` can be one below zero, between a decrement and the phase check. */
    ghost predicate Wellformed()
      reads this
    {
      && 1 <= breakLength <= 60
      && 1 <= sessionLength <= 60
      && -1 <= timer <= 3600
      && (countdownActive <==> timerState == Running)
      && startButton == IconFor(timerState)
    }

    ghost predicate Valid()
      reads this
    {
      Wellformed() && timer >= 0
    }

    function LengthOf(field: LengthField): int
      reads this
    {
      if field == BreakLengthField then breakLength else sessionLength
    }

    constructor ()
      ensures Valid()
      ensures timer == 1500 && breakLength == 5 && sessionLength == 25
      ensures timerState == Stopped && timerType == Session && !countdownActive
      ensures alarmColor == White && startButton == PlayIcon
    {
      timer := 1500;
      breakLength := 5;
      sessionLength := 25;
      timerState := Stopped;
      timerType := Session;
      countdownActive := false;
      alarmColor := White;
      startButton := PlayIcon;
    }

    /**
     * `lengthControl(field, sign, currentLength, otherPhase)`: both callers
     * pass the field's current value as `currentLength` and name the phase
     * the field does NOT belong to, so the countdown is reset exactly when
     * the edited length is the current phase's.
     */
    method LengthControl(field: LengthField, sign: string, currentLength: int, otherPhase: Phase)
      requires Valid() && currentLength == LengthOf(field)
      modifies this
      ensures Valid()
      ensures old(timerState) == Running || (sign != "+" && sign != "-") ==> unchanged(this)
      ensures var step := if sign == "-" && currentLength != 1 then -1
                          else if sign == "+" && currentLength != 60 then 1 else 0;
              old(timerState) == Stopped ==>
                && LengthOf(field) == currentLength + step
                && LengthOf(if field == BreakLengthField then SessionLengthField else BreakLengthField)
                     == old(LengthOf(if field == BreakLengthField then SessionLengthField else BreakLengthField))
                && timer == (if old(timerType) != otherPhase && step != 0 then (currentLength + step) * 60 else old(timer))
                && timerState == old(timerState) && timerType == old(timerType)
                && countdownActive == old(countdownActive)
                && alarmColor == old(alarmColor) && startButton == old(startButton)
    {
      if timerState == Running {
        return;
      }
      var newLength := currentLength;
      if sign == "-" && currentLength != 1 {
        newLength := currentLength - 1;
      } else if sign == "+" && currentLength != 60 {
        newLength := currentLength + 1;
      }
      if newLength != currentLength {
        if field == BreakLengthField {
          breakLength := newLength;
        } else {
          sessionLength := newLength;
        }
        if timerType != otherPhase {
          timer := newLength * 60;
        }
      }
    }

    /** `setBrkLength`: edits the break length; the countdown follows it only during a break. */
    method SetBrkLength(sign: string)
      requires Valid()
      modifies this
      ensures Valid()
      ensures sessionLength == old(sessionLength) && timerState == old(timerState) && timerType == old(timerType)
      ensures timer == (if old(timerState) == Stopped && old(timerType) == Break && breakLength != old(breakLength)
                        then breakLength * 60 else old(timer))
      ensures countdownActive == old(countdownActive) && alarmColor == old(alarmColor) && startButton == old(startButton)
      ensures old(timerState) == Stopped && sign == "+" ==> breakLength == Min(old(breakLength) + 1, 60)
      ensures old(timerState) == Stopped && sign == "-" ==> breakLength == Max(old(breakLength) - 1, 1)
      ensures old(timerState) == Running || (sign != "+" && sign != "-") ==> unchanged(this)
    {
      LengthControl(BreakLengthField, sign, breakLength, Session);
    }

    /** `setSeshLength`: edits the session length; the countdown follows it only during a work session. */
    method SetSeshLength(sign: string)
      requires Valid()
      modifies this
      ensures Valid()
      ensures breakLength == old(breakLength) && timerState == old(timerState) && timerType == old(timerType)
      ensures timer == (if old(timerState) == Stopped && old(timerType) == Session && sessionLength != old(sessionLength)
                        then sessionLength * 60 else old(timer))
      ensures countdownActive == old(countdownActive) && alarmColor == old(alarmColor) && startButton == old(startButton)
      ensures old(timerState) == Stopped && sign == "+" ==> sessionLength == Min(old(sessionLength) + 1, 60)
      ensures old(timerState) == Stopped && sign == "-" ==> sessionLength == Max(old(sessionLength) - 1, 1)
      ensures old(timerState) == Running || (sign != "+" && sign != "-") ==> unchanged(this)
    {
      LengthControl(SessionLengthField, sign, sessionLength, Break);
    }

    /** `beginCountDown`: (re)starts the one-second interval. */
    method BeginCountDown()
      modifies this
      ensures countdownActive
      ensures timer == old(timer) && breakLength == old(breakLength) && sessionLength == old(sessionLength)
      ensures timerState == old(timerState) && timerType == old(timerType)
      ensures alarmColor == old(alarmColor) && startButton == old(startButton)
    {
      countdownActive := true;
    }

    /** `decrementTimer` */
    method DecrementTimer()
      requires Valid()
      modifies this
      ensures Wellformed()
      ensures timer == old(timer) - 1
      ensures breakLength == old(breakLength) && sessionLength == old(sessionLength)
      ensures timerState == old(timerState) && timerType == old(timerType) && countdownActive == old(countdownActive)
      ensures alarmColor == old(alarmColor) && startButton == old(startButton)
    {
      timer := timer - 1;
    }

    /** `switchTimer(num, phase)` */
    method SwitchTimer(num: int, phase: Phase)
      modifies this
      ensures timer == num && timerType == phase && alarmColor == White
      ensures breakLength == old(breakLength) && sessionLength == old(sessionLength)
      ensures timerState == old(timerState) && countdownActive == old(countdownActive)
      ensures startButton == old(startButton)
    {
      timer := num;
      timerType := phase;
      alarmColor := White;
    }

    /**
     * `phaseControl`: colour and buzzer for the current value, then, only
     * once the countdown is below zero, the other phase with its full length
     * and the interval restarted, so the timer keeps running.
     */
    method PhaseControl() returns (buzzed: bool)
      requires Wellformed() && timerState == Running
      modifies this
      ensures Valid()
      ensures buzzed <==> old(timer) == 0
      ensures old(timer) >= 0 ==>
                timer == old(timer) && timerType == old(timerType) && alarmColor == WarningColor(old(timer))
      ensures old(timer) < 0 && old(timerType) == Session ==>
                timer == breakLength * 60 && timerType == Break && alarmColor == White
      ensures old(timer) < 0 && old(timerType) == Break ==>
                timer == sessionLength * 60 && timerType == Session && alarmColor == White
      ensures timerState == Running && countdownActive
      ensures breakLength == old(breakLength) && sessionLength == old(sessionLength) && startButton == old(startButton)
    {
      alarmColor := WarningColor(timer);
      buzzed := timer == 0;  // `buzzer`
      if timer < 0 {
        if timerType == Session {
          countdownActive := false;
          BeginCountDown();
          SwitchTimer(breakLength * 60, Break);
        } else {
          countdownActive := false;
          BeginCountDown();
          SwitchTimer(sessionLength * 60, Session);
        }
      }
    }

    /** One period of the interval: `decrementTimer` then `phaseControl`. */
    method Tick() returns (buzzed: bool)
      requires Valid() && timerState == Running
      modifies this
      ensures Valid()
      ensures buzzed <==> old(timer) == 1
      ensures old(timer) >= 1 ==> timer == old(timer) - 1 && timerType == old(timerType)
      ensures old(timer) >= 1 ==> (alarmColor == Blue <==> old(timer) <= 61)
      ensures old(timer) == 0 ==>
                timerType != old(timerType)
                && timer == (if old(timerType) == Session then breakLength else sessionLength) * 60
                && alarmColor == White
      ensures timerState == Running && countdownActive
      ensures breakLength == old(breakLength) && sessionLength == old(sessionLength) && startButton == old(startButton)
    {
      DecrementTimer();
      buzzed := PhaseControl();
    }

    /** `timerControl`: the start/stop button; the countdown and the phase are kept. */
    method TimerControl()
      requires Valid()
      modifies this
      ensures Valid()
      ensures timerState != old(timerState)
      ensures startButton == IconFor(timerState) && countdownActive == (timerState == Running)
      ensures timer == old(timer) && timerType == old(timerType)
      ensures breakLength == old(breakLength) && sessionLength == old(sessionLength) && alarmColor == old(alarmColor)
    {
      if timerState == Stopped {
        BeginCountDown();
        timerState := Running;
        startButton := PauseIcon;
      } else {
        timerState := Stopped;
        countdownActive := false;
        startButton := PlayIcon;
      }
    }

    /** `reset` */
    method Reset()
      modifies this
      ensures Valid()
      ensures timer == 1500 && breakLength == 5 && sessionLength == 25
      ensures timerState == Stopped && timerType == Session && !countdownActive
      ensures alarmColor == White && startButton == PlayIcon
    {
      breakLength := 5;
      sessionLength := 25;
      timerState := Stopped;
      timerType := Session;
      timer := 1500;
      countdownActive := false;
      alarmColor := White;
      startButton := PlayIcon;
    }
  }

  /** A running legacy timer never rests on a negative value: each tick lands back in range, in the other phase at the latest one tick after zero. */
  method TwoTicksFromOne(t: Timer) returns (first: bool, second: bool)
    requires t.Valid() && t.timerState == Running && t.timer == 1
    modifies t
    ensures first && !second
    ensures t.timerType != old(t.timerType) && t.timerState == Running && t.Valid()
    ensures t.timer == (if old(t.timerType) == Session then t.breakLength else t.sessionLength) * 60
  {
    first := t.Tick();
    second := t.Tick();
  }
}
