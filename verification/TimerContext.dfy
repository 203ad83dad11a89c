/**
 * The timer provider: its state as mutable fields next to the analytics
 * store it reports to. Every method makes the change that the
 * corresponding function of `TimerMachine` describes, and keeps the
 * machine's invariant.
 */
module TimerContext {
  import opened Js
  import Analytics = AnalyticsService
  import M = TimerMachine

  class TimerProvider {
    var timer: int
    var timerState: M.TimerState
    var timerType: M.TimerType
    var breakLength: int
    var sessionLength: int
    var longBreakLength: int
    var sessionsBeforeLongBreak: int
    var sessionCount: int
    var completedSessionCycleCount: int
    var alarms: nat
    const analytics: Analytics.SessionStore

    function Model(): M.TimerModel
      reads this, analytics
    {
      M.TimerModel(
        timer, timerState, timerType,
        breakLength, sessionLength, longBreakLength, sessionsBeforeLongBreak,
        sessionCount, completedSessionCycleCount, alarms,
        analytics.State())
    }

    ghost predicate Valid()
      reads this, analytics
    {
      analytics.Valid() && M.Inv(Model(), analytics.loadedCount)
    }

    constructor (stored: M.StoredSettings, analytics: Analytics.SessionStore)
      requires analytics.Valid()
      ensures this.analytics == analytics
      ensures Valid() && Model() == M.Initial(stored, analytics.State())
    {
      var initial := M.Initial(stored, analytics.State());
      timer := initial.timer;
      timerState := M.Stopped;
      timerType := M.Session;
      breakLength := initial.breakLength;
      sessionLength := initial.sessionLength;
      longBreakLength := initial.longBreakLength;
      sessionsBeforeLongBreak := initial.sessionsBeforeLongBreak;
      sessionCount := 0;
      completedSessionCycleCount := 0;
      alarms := 0;
      this.analytics := analytics;
    }

    /** `timerControl`: the start/stop button. */
    method TimerControl(now: int)
      requires Valid()
      modifies this, analytics
      ensures Valid() && Model() == M.TimerControl(old(Model()), now)
    {
      M.StepPreservesInv(Model(), M.Control(now), analytics.loadedCount);
      if timerState == M.Stopped {
        timerState := M.Running;
        if timerType == M.Session {
          var _ := analytics.StartSession(now);
        }
      } else {
        timerState := M.Stopped;
        if timerType == M.Session {
          analytics.EndSession(now);
          sessionCount := sessionCount + 1;
        }
      }
    }

    /** The expiry effect: when the countdown is at or below zero, move to the next phase. */
    method ExpiryEffect(now: int)
      requires Valid()
      modifies this, analytics
      ensures Valid() && Model() == M.ExpiryEffect(old(Model()), now)
    {
      M.StepPreservesInv(Model(), M.Expiry(now), analytics.loadedCount);
      if timer <= 0 {
        timerState := M.Stopped;
        alarms := alarms + 1;
        if timerType == M.Session {
          analytics.EndSession(now);
          sessionCount := sessionCount + 1;
          var nextSessionCount := completedSessionCycleCount + 1;
          if nextSessionCount >= sessionsBeforeLongBreak {
            timerType := M.LongBreak;
            timer := longBreakLength * 60;
            completedSessionCycleCount := 0;
          } else {
            timerType := M.Break;
            timer := breakLength * 60;
            completedSessionCycleCount := nextSessionCount;
          }
        } else {
          timerType := M.Session;
          timer := sessionLength * 60;
          var _ := analytics.StartSession(now);
        }
      }
    }

    /** One period of the running interval: decrement, then the expiry effect. */
    method Tick(now: int)
      requires Valid() && timerState == M.Running
      modifies this, analytics
      ensures Valid() && Model() == M.Tick(old(Model()), now)
    {
      timer := timer - 1;
      ExpiryEffect(now);
    }

    /** `handleReset` */
    method HandleReset(now: int)
      requires Valid()
      modifies this, analytics
      ensures Valid() && Model() == M.HandleReset(old(Model()), now)
    {
      M.StepPreservesInv(Model(), M.ResetPressed(now), analytics.loadedCount);
      var wasRunning := timerState == M.Running;
      timer := 25 * 60;
      breakLength := M.DefaultBreakLength;
      sessionLength := M.DefaultSessionLength;
      longBreakLength := M.DefaultLongBreakLength;
      sessionsBeforeLongBreak := M.DefaultSessionsBeforeLongBreak;
      timerState := M.Stopped;
      timerType := M.Session;
      completedSessionCycleCount := 0;
      if wasRunning {
        analytics.EndSession(now);
      }
      sessionCount := 0;
    }

    /** `switchToBreak` */
    method SwitchToBreak()
      requires Valid()
      modifies this
      ensures Valid() && Model() == M.SwitchToBreak(old(Model()))
    {
      M.StepPreservesInv(Model(), M.ForceBreak, analytics.loadedCount);
      timerState := M.Stopped;
      timerType := M.Break;
      timer := breakLength * 60;
    }

    /** `switchToSession` */
    method SwitchToSession()
      requires Valid()
      modifies this
      ensures Valid() && Model() == M.SwitchToSession(old(Model()))
    {
      M.StepPreservesInv(Model(), M.ForceSession, analytics.loadedCount);
      timerState := M.Stopped;
      timerType := M.Session;
      timer := sessionLength * 60;
    }

    /** `setSessionLength`, with the effect that brings the countdown in line. */
    method SetSessionLength(length: int)
      requires Valid()
      modifies this
      ensures Valid() && Model() == M.SetSessionLength(old(Model()), length)
    {
      M.StepPreservesInv(Model(), M.SessionLengthSet(length), analytics.loadedCount);
      if length != sessionLength {
        sessionLength := length;
        if timerType == M.Session {
          timer := length * 60;
        }
      }
    }

    method SetBreakLength(length: int)
      requires Valid()
      modifies this
      ensures Valid() && Model() == M.SetBreakLength(old(Model()), length)
    {
      breakLength := length;
    }

    method SetLongBreakLength(length: int)
      requires Valid()
      modifies this
      ensures Valid() && Model() == M.SetLongBreakLength(old(Model()), length)
    {
      longBreakLength := length;
    }

    method SetSessionsBeforeLongBreak(sessions: int)
      requires Valid()
      modifies this
      ensures Valid() && Model() == M.SetSessionsBeforeLongBreak(old(Model()), sessions)
    {
      sessionsBeforeLongBreak := sessions;
    }
  }
}
