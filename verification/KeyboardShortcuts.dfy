/**
 * The global key handler: the pressed key, lower-cased, selects at most one
 * timer action.
 */
module KeyboardShortcuts {
  import opened Js
  import Timer = TimerMachine

  datatype Action = StartStop | Reset | ToBreak | ToSession | NoAction

  datatype KeyResult = KeyResult(action: Action, preventDefault: bool)

  /** `handleKeyPress` */
  function HandleKeyPress(key: string): (r: KeyResult)
    ensures r.action == StartStop <==> key == " "
    ensures r.action == Reset <==> key == "r" || key == "R"
    ensures r.action == ToBreak <==> key == "b" || key == "B"
    ensures r.action == ToSession <==> key == "s" || key == "S"
    ensures r.preventDefault <==> r.action == StartStop
  {
    var k := ToLowerCase(key);
    LowerSingle(key);
    if k == " " then KeyResult(StartStop, true)
    else if k == "r" then KeyResult(Reset, false)
    else if k == "b" then KeyResult(ToBreak, false)
    else if k == "s" then KeyResult(ToSession, false)
    else KeyResult(NoAction, false)
  }

  /** Which keys lower-case to a given one-character key. */
  lemma LowerSingle(key: string)
    ensures ToLowerCase(key) == " " <==> key == " "
    ensures ToLowerCase(key) == "r" <==> key == "r" || key == "R"
    ensures ToLowerCase(key) == "b" <==> key == "b" || key == "B"
    ensures ToLowerCase(key) == "s" <==> key == "s" || key == "S"
  {
  }

  /** Upper- and lower-case spellings of a key do the same thing. */
  lemma CaseInsensitive(key: string)
    ensures HandleKeyPress(ToLowerCase(key)) == HandleKeyPress(key)
  {
  }

  /** A key press applied to the timer: the action it selects, or nothing. */
  function ApplyKey(m: Timer.TimerModel, key: string, now: int): (r: Timer.TimerModel)
    ensures HandleKeyPress(key).action == NoAction ==> r == m
    ensures key == " " ==> r == Timer.TimerControl(m, now)
    ensures key == "r" || key == "R" ==> r == Timer.HandleReset(m, now)
    ensures key == "b" || key == "B" ==> r == Timer.SwitchToBreak(m)
    ensures key == "s" || key == "S" ==> r == Timer.SwitchToSession(m)
  {
    match HandleKeyPress(key).action
    case StartStop => Timer.TimerControl(m, now)
    case Reset => Timer.HandleReset(m, now)
    case ToBreak => Timer.SwitchToBreak(m)
    case ToSession => Timer.SwitchToSession(m)
    case NoAction => m
  }

  /** Pressing "b" then "s" returns to a stopped work session of full length, with analytics untouched. */
  lemma BreakThenSessionKeys(m: Timer.TimerModel, t1: int, t2: int)
    ensures var r := ApplyKey(ApplyKey(m, "b", t1), "s", t2);
            && r.timerType == Timer.Session && r.timerState == Timer.Stopped
            && r.timer == m.sessionLength * 60 && r.analytics == m.analytics
  {
  }
}
