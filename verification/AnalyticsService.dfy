/**
 * The session analytics store and its read-side aggregators.
 *
 * The store keeps an append-only history of finished sessions, at most one
 * open session, and a counter that hands out session ids. Its two
 * transitions are pure functions on `StoreState` (`AfterStart`, `AfterEnd`);
 * the class `SessionStore` performs them in place and is proved against them.
 * The aggregators read a history snapshot (`getSessionData()`) and build
 * chart series; the two that the application fills with loops are methods
 * proved equal to their specification functions.
 *
 * Timestamps are integer milliseconds since the epoch; the clock is a
 * parameter (`now`). A session's day is its UTC calendar day, and the local
 * hour of a timestamp is a given function into 0..23.
 */
module AnalyticsService {
  import opened Js

  const MsPerDay: int := 86_400_000

  /** An hour of the day, as `Date.prototype.getHours` returns it. */
  type Hour = h: int | 0 <= h < 24

  datatype Session = Session(id: int, startTime: int, endTime: Option<int>, duration: Option<int>)

  datatype DailyStats = DailyStats(date: int, count: int, totalDuration: int, averageDuration: int)

  datatype ChartData = ChartData(labels: seq<string>, values: seq<int>)

  datatype StoreState = StoreState(sessions: seq<Session>, currentSession: Option<Session>, sessionIdCounter: int)

  predicate IsOpen(s: Session) { s.endTime.None? && s.duration.None? }

  predicate IsClosed(s: Session) {
    s.endTime.Some? && s.duration == Some(s.endTime.value - s.startTime)
  }

  // ---------------------------------------------------------------------
  // The store

  function MaxId(h: seq<Session>): (m: int)
    requires |h| > 0
    ensures exists i :: 0 <= i < |h| && h[i].id == m
    ensures forall i :: 0 <= i < |h| ==> h[i].id <= m
  {
    if |h| == 1 then h[0].id
    else
      var m' := MaxId(h[..|h| - 1]);
      assert forall i :: 0 <= i < |h| - 1 ==> h[..|h| - 1][i] == h[i];
      Max(m', h[|h| - 1].id)
  }

  /**
   * What the store holds once it has loaded `loaded` from storage (an empty
   * sequence when nothing could be loaded); only sessions appended later
   * are known to be closed and in increasing id order.
   */
  ghost predicate Consistent(st: StoreState, loaded: nat) {
    && loaded <= |st.sessions|
    && (forall i :: 0 <= i < |st.sessions| ==> st.sessions[i].id <= st.sessionIdCounter)
    && (forall i, j :: 0 <= i < j < |st.sessions| && loaded <= j ==> st.sessions[i].id < st.sessions[j].id)
    && (forall i :: loaded <= i < |st.sessions| ==> IsClosed(st.sessions[i]))
    && (st.currentSession.Some? ==>
          && IsOpen(st.currentSession.value)
          && st.currentSession.value.id == st.sessionIdCounter
          && forall i :: 0 <= i < |st.sessions| ==> st.sessions[i].id < st.sessionIdCounter)
  }

  /** The module's initial state: the loaded history, nothing open, the counter at the largest loaded id. */
  function Load(loaded: seq<Session>): (st: StoreState)
    ensures Consistent(st, |loaded|)
    ensures st.sessions == loaded && st.currentSession.None?
    ensures forall i :: 0 <= i < |loaded| ==> loaded[i].id <= st.sessionIdCounter
  {
    StoreState(loaded, None, if |loaded| > 0 then MaxId(loaded) else 0)
  }

  /** `startSession()`: the new state and the id it returns. */
  function AfterStart(st: StoreState, now: int): (r: (StoreState, int))
    ensures r.0.sessions == st.sessions
    ensures r.0.currentSession.Some? && r.0.currentSession.value.id == r.1
    ensures st.currentSession.Some? ==> r.0 == st
    ensures st.currentSession.None? ==> r.0.currentSession.value.startTime == now && r.1 == st.sessionIdCounter + 1
    ensures r.0.sessionIdCounter >= st.sessionIdCounter
    ensures forall n: nat :: Consistent(st, n) ==> Consistent(r.0, n)
    ensures forall i :: 0 <= i < |st.sessions| && st.sessions[i].id <= st.sessionIdCounter && st.currentSession.None? ==> st.sessions[i].id < r.1
  {
    if st.currentSession.Some? then (st, st.currentSession.value.id)
    else
      var id := st.sessionIdCounter + 1;
      (st.(currentSession := Some(Session(id, now, None, None)), sessionIdCounter := id), id)
  }

  /** The open session, closed at `now`. */
  function Close(s: Session, now: int): (c: Session)
    ensures IsClosed(c) && c.id == s.id && c.startTime == s.startTime && c.endTime == Some(now)
  {
    s.(endTime := Some(now), duration := Some(now - s.startTime))
  }

  /** `endSession()`. */
  function AfterEnd(st: StoreState, now: int): (r: StoreState)
    ensures st.currentSession.None? ==> r == st
    ensures st.currentSession.Some? ==>
              && r.sessions == st.sessions + [Close(st.currentSession.value, now)]
              && r.currentSession.None?
    ensures r.sessionIdCounter == st.sessionIdCounter
    ensures forall n: nat :: Consistent(st, n) ==> Consistent(r, n)
  {
    if st.currentSession.None? then st
    else StoreState(st.sessions + [Close(st.currentSession.value, now)], None, st.sessionIdCounter)
  }

  /** Calling `startSession()` again while a session is open returns the same id and changes nothing. */
  lemma StartSessionIdempotent(st: StoreState, t1: int, t2: int)
    ensures AfterStart(AfterStart(st, t1).0, t2) == AfterStart(st, t1)
  {
  }

  /** Every id handed out exceeds every id in the history, loaded or not. */
  lemma FreshIdsExceedHistory(st: StoreState, n: nat, now: int)
    requires Consistent(st, n)
    ensures forall i :: 0 <= i < |st.sessions| ==> st.sessions[i].id < AfterStart(st, now).1
  {
  }

  /** A start followed by an end appends exactly one closed session covering the interval between them. */
  lemma StartThenEndRecordsOne(st: StoreState, n: nat, t1: int, t2: int)
    requires Consistent(st, n) && st.currentSession.None?
    ensures var id := AfterStart(st, t1).1;
            && AfterEnd(AfterStart(st, t1).0, t2).sessions == st.sessions + [Session(id, t1, Some(t2), Some(t2 - t1))]
            && id == st.sessionIdCounter + 1
  {
  }

  class SessionStore {
    var sessions: seq<Session>
    var currentSession: Option<Session>
    var sessionIdCounter: int
    ghost const loadedCount: nat

    function State(): StoreState
      reads this
    {
      StoreState(sessions, currentSession, sessionIdCounter)
    }

    ghost predicate Valid()
      reads this
    {
      Consistent(State(), loadedCount)
    }

    constructor (loaded: seq<Session>)
      ensures Valid() && State() == Load(loaded) && loadedCount == |loaded|
    {
      sessions := loaded;
      currentSession := None;
      sessionIdCounter := if |loaded| > 0 then MaxId(loaded) else 0;
      loadedCount := |loaded|;
    }

    method StartSession(now: int) returns (id: int)
      requires Valid()
      modifies this
      ensures Valid()
      ensures (State(), id) == AfterStart(old(State()), now)
    {
      if currentSession.Some? {
        return currentSession.value.id;
      }
      sessionIdCounter := sessionIdCounter + 1;
      id := sessionIdCounter;
      currentSession := Some(Session(id, now, None, None));
    }

    method EndSession(now: int)
      requires Valid()
      modifies this
      ensures Valid()
      ensures State() == AfterEnd(old(State()), now)
    {
      if currentSession.None? {
        return;
      }
      var s := currentSession.value;
      s := s.(endTime := Some(now));
      s := s.(duration := Some(now - s.startTime));
      sessions := sessions + [s];
      currentSession := None;
    }

    /** `getSessionData()`: the history, which never holds the open session. */
    method GetSessionData() returns (h: seq<Session>)
      requires Valid()
      ensures h == sessions
      ensures currentSession.Some? ==> forall i :: 0 <= i < |h| ==> h[i].id != currentSession.value.id
    {
      h := sessions;
    }
  }

  // ---------------------------------------------------------------------
  // Filters over a history

  /** `h.filter(s => s.duration !== undefined)` */
  function Completed(h: seq<Session>): (c: seq<Session>)
    ensures |c| <= |h|
    ensures forall s :: s in c <==> s in h && s.duration.Some?
    ensures forall i :: 0 <= i < |c| ==> c[i].duration.Some?
  {
    if h == [] then []
    else
      var last := h[|h| - 1];
      var rest := Completed(h[..|h| - 1]);
      assert h == h[..|h| - 1] + [last];
      if last.duration.Some? then rest + [last] else rest
  }

  /** `h.filter(s => s.endTime !== undefined)` */
  function Ended(h: seq<Session>): (e: seq<Session>)
    ensures |e| <= |h|
    ensures forall s :: s in e <==> s in h && s.endTime.Some?
    ensures forall i :: 0 <= i < |e| ==> e[i].endTime.Some?
  {
    if h == [] then []
    else
      var last := h[|h| - 1];
      var rest := Ended(h[..|h| - 1]);
      assert h == h[..|h| - 1] + [last];
      if last.endTime.Some? then rest + [last] else rest
  }

  /**
   * The filters keep the order and the multiplicity of the history: the
   * filter of a concatenation is the concatenation of the filters, and a
   * single entry is kept exactly when it has the field.
   */
  lemma {:induction false} CompletedDistributes(a: seq<Session>, b: seq<Session>)
    ensures Completed(a + b) == Completed(a) + Completed(b)
    decreases |b|
  {
    if b == [] {
      assert a + b == a;
    } else {
      var b', last := b[..|b| - 1], b[|b| - 1];
      var ab := a + b;
      assert ab[..|ab| - 1] == a + b' && ab[|ab| - 1] == last;
      CompletedDistributes(a, b');
      var tail := if last.duration.Some? then [last] else [];
      assert Completed(ab) == Completed(a + b') + tail;
      assert Completed(b) == Completed(b') + tail;
      assert (Completed(a) + Completed(b')) + tail == Completed(a) + (Completed(b') + tail);
    }
  }

  lemma {:induction false} EndedDistributes(a: seq<Session>, b: seq<Session>)
    ensures Ended(a + b) == Ended(a) + Ended(b)
    decreases |b|
  {
    if b == [] {
      assert a + b == a;
    } else {
      var b', last := b[..|b| - 1], b[|b| - 1];
      var ab := a + b;
      assert ab[..|ab| - 1] == a + b' && ab[|ab| - 1] == last;
      EndedDistributes(a, b');
      var tail := if last.endTime.Some? then [last] else [];
      assert Ended(ab) == Ended(a + b') + tail;
      assert Ended(b) == Ended(b') + tail;
      assert (Ended(a) + Ended(b')) + tail == Ended(a) + (Ended(b') + tail);
    }
  }

  lemma FiltersOfOne(x: Session)
    ensures Completed([x]) == if x.duration.Some? then [x] else []
    ensures Ended([x]) == if x.endTime.Some? then [x] else []
  {
  }

  /** Closing the open session adds it at the end of the completed sessions. */
  lemma EndSessionExtendsCompleted(st: StoreState, now: int)
    requires st.currentSession.Some?
    ensures Completed(AfterEnd(st, now).sessions) == Completed(st.sessions) + [Close(st.currentSession.value, now)]
    ensures Ended(AfterEnd(st, now).sessions) == Ended(st.sessions) + [Close(st.currentSession.value, now)]
  {
  }

  /** Sum of the durations, reading a missing duration as 0. */
  function TotalDuration(c: seq<Session>): int {
    if c == [] then 0 else TotalDuration(c[..|c| - 1]) + c[|c| - 1].duration.GetOr(0)
  }

  /** The total of a concatenation is the sum of the totals: every duration is added exactly once. */
  lemma {:induction false} TotalDurationAppend(a: seq<Session>, b: seq<Session>)
    ensures TotalDuration(a + b) == TotalDuration(a) + TotalDuration(b)
    ensures TotalDuration([]) == 0
    decreases |b|
  {
    if b != [] {
      var b' := b[..|b| - 1];
      assert (a + b)[..|a + b| - 1] == a + b';
      TotalDurationAppend(a, b');
    } else {
      assert a + b == a;
    }
  }

  // ---------------------------------------------------------------------
  // Daily statistics

  /** `formatDate(session.startTime)`: the UTC calendar day of a timestamp. */
  function DayOf(t: int): (d: int)
    ensures d * MsPerDay <= t < d * MsPerDay + MsPerDay
  {
    t / MsPerDay
  }

  function CountOn(c: seq<Session>, day: int): nat {
    if c == [] then 0
    else CountOn(c[..|c| - 1], day) + (if DayOf(c[|c| - 1].startTime) == day then 1 else 0)
  }

  function TotalOn(c: seq<Session>, day: int): int {
    if c == [] then 0
    else TotalOn(c[..|c| - 1], day) + (if DayOf(c[|c| - 1].startTime) == day then c[|c| - 1].duration.GetOr(0) else 0)
  }

  /** `count > 0 ? Math.round(total / count) : 0` */
  function Average(total: int, count: int): (a: int)
    ensures count <= 0 ==> a == 0
    ensures count > 0 ==> a * (2 * count) - count <= 2 * total < a * (2 * count) + count
  {
    if count > 0 then Round(total, count) else 0
  }

  /** The bucket for `day` once every completed session has been added. */
  function DayBucket(c: seq<Session>, day: int): (b: DailyStats)
    ensures b.date == day && b.count == CountOn(c, day) && b.totalDuration == TotalOn(c, day)
  {
    DailyStats(day, CountOn(c, day), TotalOn(c, day), Average(TotalOn(c, day), CountOn(c, day)))
  }

  /**
   * `getDailyStats(days)` with today's UTC day number given: one bucket per day
   * of the window ending today, oldest first, or nothing at all while no
   * session has completed.
   */
  function DailyStatsOf(h: seq<Session>, days: int, today: int): (r: seq<DailyStats>)
    ensures Completed(h) == [] ==> r == []
    ensures Completed(h) != [] ==> |r| == Max(days, 0)
    ensures forall k :: 0 <= k < |r| ==> r[k].date == today - |r| + 1 + k
    ensures forall k :: 0 <= k < |r| ==> r[k] == DayBucket(Completed(h), r[k].date)
  {
    var c := Completed(h);
    if c == [] || days <= 0 then []
    else
      var r := seq(days, k => DayBucket(c, today - days + 1 + k));
      assert forall k :: 0 <= k < days ==> r[k] == DayBucket(c, today - days + 1 + k);
      r
  }

  /**
   * A bucket's average is its total over its count, rounded to the nearest
   * integer; an empty bucket has total and average 0.
   */
  lemma {:induction false} BucketAverage(c: seq<Session>, day: int)
    ensures var b := DayBucket(c, day);
            && (b.count == 0 ==> b.totalDuration == 0 && b.averageDuration == 0)
            && (b.count > 0 ==> b.averageDuration * (2 * b.count) - b.count <= 2 * b.totalDuration < b.averageDuration * (2 * b.count) + b.count)
  {
    if c != [] {
      BucketAverage(c[..|c| - 1], day);
    }
  }

  /** Number of sessions in `c` whose day lies in `lo..hi`. */
  function CountBetween(c: seq<Session>, lo: int, hi: int): nat {
    if c == [] then 0
    else CountBetween(c[..|c| - 1], lo, hi) + (if lo <= DayOf(c[|c| - 1].startTime) <= hi then 1 else 0)
  }

  function SumCounts(r: seq<DailyStats>): int {
    if r == [] then 0 else SumCounts(r[..|r| - 1]) + r[|r| - 1].count
  }

  lemma {:induction false} CountBetweenExtend(c: seq<Session>, lo: int, hi: int)
    requires lo <= hi + 1
    ensures CountBetween(c, lo, hi + 1) == CountBetween(c, lo, hi) + CountOn(c, hi + 1)
  {
    if c != [] {
      CountBetweenExtend(c[..|c| - 1], lo, hi);
    }
  }

  lemma {:induction false} WindowCounts(c: seq<Session>, lo: int, n: nat)
    ensures SumCounts(seq(n, k => DayBucket(c, lo + k))) == CountBetween(c, lo, lo + n - 1)
  {
    var w := seq(n, k => DayBucket(c, lo + k));
    if n == 0 {
      CountBetweenEmpty(c, lo);
    } else {
      var w' := seq(n - 1, k => DayBucket(c, lo + k));
      assert w[..n - 1] == w';
      assert w[n - 1] == DayBucket(c, lo + (n - 1));
      assert SumCounts(w) == SumCounts(w') + CountOn(c, lo + n - 1);
      WindowCounts(c, lo, n - 1);
      CountBetweenExtend(c, lo, lo + n - 2);
    }
  }

  lemma {:induction false} CountBetweenEmpty(c: seq<Session>, lo: int)
    ensures CountBetween(c, lo, lo - 1) == 0
  {
    if c != [] {
      CountBetweenEmpty(c[..|c| - 1], lo);
    }
  }

  /** Every completed session that started inside the window is counted in exactly one bucket. */
  lemma DailyCountsCoverWindow(h: seq<Session>, days: int, today: int)
    requires Completed(h) != [] && days >= 1
    ensures SumCounts(DailyStatsOf(h, days, today)) == CountBetween(Completed(h), today - days + 1, today)
  {
    var c := Completed(h);
    assert DailyStatsOf(h, days, today) == seq(days, k => DayBucket(c, (today - days + 1) + k));
    WindowCounts(c, today - days + 1, days);
  }

  /**
   * `getDailyStats(days)` as the application runs it: a list of dates, a map
   * from date to bucket, one pass over the completed sessions, then the
   * averages.
   */
  method GetDailyStats(h: seq<Session>, days: int, today: int) returns (stats: seq<DailyStats>)
    ensures stats == DailyStatsOf(h, days, today)
  {
    var completedSessions := Completed(h);
    if |completedSessions| == 0 {
      return [];
    }
    var dates := DateList(days, today);
    var statsMap := CountByDate(completedSessions, dates, today - days + 1);
    stats := AverageByDate(completedSessions, dates, today - days + 1, statsMap);
  }

  /** The `days` dates ending with `today`, oldest first. */
  method DateList(days: int, today: int) returns (dates: seq<int>)
    ensures |dates| == Max(days, 0)
    ensures forall k :: 0 <= k < |dates| ==> dates[k] == today - days + 1 + k
  {
    dates := [];
    var i := days - 1;
    while i >= 0
      invariant i <= days - 1 && (days >= 1 ==> i >= -1) && (days <= 0 ==> i == days - 1)
      invariant |dates| == days - 1 - i
      invariant forall k :: 0 <= k < |dates| ==> dates[k] == today - days + 1 + k
    {
      dates := dates + [today - i];
      i := i - 1;
    }
  }

  /** An empty bucket per date, then one pass over the sessions that adds each to its start day's bucket, if any. */
  method CountByDate(c: seq<Session>, dates: seq<int>, first: int) returns (statsMap: map<int, DailyStats>)
    requires forall k :: 0 <= k < |dates| ==> dates[k] == first + k
    ensures forall d :: d in statsMap <==> first <= d < first + |dates|
    ensures forall d :: d in statsMap ==> statsMap[d] == DailyStats(d, CountOn(c, d), TotalOn(c, d), 0)
  {
    statsMap := map[];
    var k := 0;
    while k < |dates|
      invariant 0 <= k <= |dates|
      invariant forall d :: d in statsMap <==> first <= d < first + k
      invariant forall d :: d in statsMap ==> statsMap[d] == DailyStats(d, 0, 0, 0)
    {
      statsMap := statsMap[dates[k] := DailyStats(dates[k], 0, 0, 0)];
      k := k + 1;
    }

    var j := 0;
    while j < |c|
      invariant 0 <= j <= |c|
      invariant forall d :: d in statsMap <==> first <= d < first + |dates|
      invariant forall d :: d in statsMap ==> statsMap[d] == DailyStats(d, CountOn(c[..j], d), TotalOn(c[..j], d), 0)
    {
      var session := c[j];
      var date := DayOf(session.startTime);
      assert c[..j + 1][..j] == c[..j];
      if date in statsMap {
        var stats := statsMap[date];
        statsMap := statsMap[date := stats.(count := stats.count + 1, totalDuration := stats.totalDuration + session.duration.GetOr(0))];
      }
      j := j + 1;
    }
    assert c[..j] == c;
  }

  /** The rounded average for every non-empty day, then the buckets in date order. */
  method AverageByDate(c: seq<Session>, dates: seq<int>, first: int, counted: map<int, DailyStats>)
    returns (stats: seq<DailyStats>)
    requires forall k :: 0 <= k < |dates| ==> dates[k] == first + k
    requires forall d :: d in counted <==> first <= d < first + |dates|
    requires forall d :: d in counted ==> counted[d] == DailyStats(d, CountOn(c, d), TotalOn(c, d), 0)
    ensures |stats| == |dates| && forall k :: 0 <= k < |dates| ==> stats[k] == DayBucket(c, dates[k])
  {
    var statsMap := counted;
    var k := 0;
    while k < |dates|
      invariant 0 <= k <= |dates|
      invariant forall d :: d in statsMap <==> first <= d < first + |dates|
      invariant forall m :: 0 <= m < k ==> statsMap[dates[m]] == DayBucket(c, dates[m])
      invariant forall m :: k <= m < |dates| ==>
                  statsMap[dates[m]] == DailyStats(dates[m], CountOn(c, dates[m]), TotalOn(c, dates[m]), 0)
    {
      var stats := statsMap[dates[k]];
      if stats.count > 0 {
        statsMap := statsMap[dates[k] := stats.(averageDuration := Round(stats.totalDuration, stats.count))];
      }
      k := k + 1;
    }

    stats := [];
    k := 0;
    while k < |dates|
      invariant 0 <= k <= |dates|
      invariant |stats| == k
      invariant forall m :: 0 <= m < k ==> stats[m] == DayBucket(c, dates[m])
    {
      stats := stats + [statsMap[dates[k]]];
      k := k + 1;
    }
  }

  // ---------------------------------------------------------------------
  // Charts

  function DayLabels(stats: seq<DailyStats>, dateLabel: int -> string): (labels: seq<string>)
    ensures |labels| == |stats| && forall k :: 0 <= k < |stats| ==> labels[k] == dateLabel(stats[k].date)
  {
    seq(|stats|, k requires 0 <= k < |stats| => dateLabel(stats[k].date))
  }

  /** `getDailySessionCountChart(days)`; `dateLabel` stands for the locale date text. */
  function DailySessionCountChart(h: seq<Session>, days: int, today: int, dateLabel: int -> string): (r: ChartData)
    ensures var stats := DailyStatsOf(h, days, today);
            && |r.labels| == |r.values| == |stats|
            && forall k :: 0 <= k < |stats| ==> r.values[k] == stats[k].count && r.labels[k] == dateLabel(stats[k].date)
  {
    var stats := DailyStatsOf(h, days, today);
    ChartData(DayLabels(stats, dateLabel), seq(|stats|, k requires 0 <= k < |stats| => stats[k].count))
  }

  /** `getDailyAverageDurationChart(days)` */
  function DailyAverageDurationChart(h: seq<Session>, days: int, today: int, dateLabel: int -> string): (r: ChartData)
    ensures var stats := DailyStatsOf(h, days, today);
            && |r.labels| == |r.values| == |stats|
            && forall k :: 0 <= k < |stats| ==> r.values[k] == stats[k].averageDuration && r.labels[k] == dateLabel(stats[k].date)
  {
    var stats := DailyStatsOf(h, days, today);
    ChartData(DayLabels(stats, dateLabel), seq(|stats|, k requires 0 <= k < |stats| => stats[k].averageDuration))
  }

  function SessionLabel(i: nat): string { "Session " + NatToString(i + 1) }

  /**
   * `getSessionDurationChart(limit)`: the last `limit` completed sessions in
   * history order (all of them when `limit` is 0, because `slice(-0)` is
   * `slice(0)`), labelled by position.
   */
  function SessionDurationChart(h: seq<Session>, limit: int): (r: ChartData)
    ensures |r.labels| == |r.values|
    ensures forall i :: 0 <= i < |r.labels| ==> r.labels[i] == SessionLabel(i)
    ensures |r.values| <= |Completed(h)|
    ensures var c := Completed(h);
            && (limit >= 0 ==> |r.values| == (if limit == 0 then |c| else Min(limit, |c|)))
            && forall i :: 0 <= i < |r.values| ==> r.values[i] == c[|c| - |r.values| + i].duration.value
  {
    var all := Completed(h);
    var c := Slice(all, -limit);
    assert c == all[SliceFrom(|all|, -limit)..];
    ChartData(seq(|c|, i requires 0 <= i < |c| => SessionLabel(i)), seq(|c|, i requires 0 <= i < |c| => c[i].duration.GetOr(0)))
  }

  function HourLabel(hour: nat): string { NatToString(hour) + ":00" }

  function HourLabels(): (labels: seq<string>)
    ensures |labels| == 24 && forall hour :: 0 <= hour < 24 ==> labels[hour] == HourLabel(hour)
  {
    seq(24, hour requires 0 <= hour < 24 => HourLabel(hour))
  }

  /** Number of sessions in `e` whose end falls in local hour `hour`. */
  function HourCount(e: seq<Session>, hourOf: int -> Hour, hour: int): nat {
    if e == [] then 0
    else
      var last := e[|e| - 1];
      HourCount(e[..|e| - 1], hourOf, hour) + (if last.endTime.Some? && hourOf(last.endTime.value) == hour then 1 else 0)
  }

  /** The positions in `e` of the sessions that end in local hour `hour`. */
  function EndedIn(e: seq<Session>, hourOf: int -> Hour, hour: int): set<int> {
    set i | 0 <= i < |e| && e[i].endTime.Some? && hourOf(e[i].endTime.value) == hour
  }

  /** An hour's count is the number of sessions ending in that hour. */
  lemma {:induction false} HourCountIsSessionsInHour(e: seq<Session>, hourOf: int -> Hour, hour: int)
    ensures HourCount(e, hourOf, hour) == |EndedIn(e, hourOf, hour)|
  {
    if e == [] {
      assert EndedIn(e, hourOf, hour) == {};
    } else {
      var n := |e| - 1;
      var p := e[..n];
      assert forall i :: 0 <= i < n ==> p[i] == e[i];
      HourCountIsSessionsInHour(p, hourOf, hour);
      if e[n].endTime.Some? && hourOf(e[n].endTime.value) == hour {
        assert EndedIn(e, hourOf, hour) == EndedIn(p, hourOf, hour) + {n};
      } else {
        assert EndedIn(e, hourOf, hour) == EndedIn(p, hourOf, hour);
      }
    }
  }

  /** `getSessionTimeDistribution()`: empty with no ended session, else 24 hourly counts. */
  function SessionTimeDistribution(h: seq<Session>, hourOf: int -> Hour): (r: ChartData)
    ensures Ended(h) == [] ==> r == ChartData([], [])
    ensures Ended(h) != [] ==> |r.labels| == |r.values| == 24 && r.labels == HourLabels()
    ensures Ended(h) != [] ==> forall hour :: 0 <= hour < 24 ==> r.values[hour] == HourCount(Ended(h), hourOf, hour)
  {
    var e := Ended(h);
    if e == [] then ChartData([], [])
    else ChartData(HourLabels(), seq(24, hour => HourCount(e, hourOf, hour)))
  }

  function SumBelow(values: seq<int>, n: nat): int
    requires n <= |values|
  {
    if n == 0 then 0 else SumBelow(values, n - 1) + values[n - 1]
  }

  function BucketSum(e: seq<Session>, hourOf: int -> Hour, n: nat): nat {
    if n == 0 then 0 else BucketSum(e, hourOf, n - 1) + HourCount(e, hourOf, n - 1)
  }

  lemma {:induction false} BucketSumExtend(e: seq<Session>, hourOf: int -> Hour, x: Session, n: nat)
    requires x.endTime.Some?
    ensures BucketSum(e + [x], hourOf, n) == BucketSum(e, hourOf, n) + (if hourOf(x.endTime.value) < n then 1 else 0)
  {
    assert (e + [x])[..|e + [x]| - 1] == e;
    if n > 0 {
      BucketSumExtend(e, hourOf, x, n - 1);
    }
  }

  lemma {:induction false} BucketSumAll(e: seq<Session>, hourOf: int -> Hour)
    requires forall i :: 0 <= i < |e| ==> e[i].endTime.Some?
    ensures BucketSum(e, hourOf, 24) == |e|
  {
    if e == [] {
      BucketSumZero(hourOf, 24);
    } else {
      var rest := e[..|e| - 1];
      assert e == rest + [e[|e| - 1]];
      BucketSumAll(rest, hourOf);
      BucketSumExtend(rest, hourOf, e[|e| - 1], 24);
    }
  }

  lemma {:induction false} BucketSumZero(hourOf: int -> Hour, n: nat)
    ensures BucketSum([], hourOf, n) == 0
  {
    if n > 0 {
      BucketSumZero(hourOf, n - 1);
    }
  }

  lemma {:induction false} SumBelowBuckets(values: seq<int>, e: seq<Session>, hourOf: int -> Hour, n: nat)
    requires n <= |values|
    requires forall hour :: 0 <= hour < |values| ==> values[hour] == HourCount(e, hourOf, hour)
    ensures SumBelow(values, n) == BucketSum(e, hourOf, n)
  {
    if n > 0 {
      SumBelowBuckets(values, e, hourOf, n - 1);
    }
  }

  /** The hourly counts add up to the number of ended sessions: each is counted once. */
  lemma DistributionCountsEverySession(h: seq<Session>, hourOf: int -> Hour)
    requires Ended(h) != []
    ensures var r := SessionTimeDistribution(h, hourOf);
            SumBelow(r.values, 24) == |Ended(h)|
  {
    var e := Ended(h);
    assert forall i :: 0 <= i < |e| ==> e[i] in e;
    BucketSumAll(e, hourOf);
    SumBelowBuckets(SessionTimeDistribution(h, hourOf).values, e, hourOf, 24);
  }

  /** `getSessionTimeDistribution()` as the application runs it, over a 24-slot array. */
  method GetSessionTimeDistribution(h: seq<Session>, hourOf: int -> Hour) returns (chart: ChartData)
    ensures chart == SessionTimeDistribution(h, hourOf)
  {
    var completedSessions := Ended(h);
    if |completedSessions| == 0 {
      return ChartData([], []);
    }

    var hourCounts := new int[24];
    var i := 0;
    while i < 24
      invariant 0 <= i <= 24
      invariant forall k :: 0 <= k < i ==> hourCounts[k] == 0
    {
      hourCounts[i] := 0;
      i := i + 1;
    }

    var j := 0;
    while j < |completedSessions|
      invariant 0 <= j <= |completedSessions|
      invariant forall k :: 0 <= k < 24 ==> hourCounts[k] == HourCount(completedSessions[..j], hourOf, k)
    {
      var session := completedSessions[j];
      assert completedSessions[..j + 1][..j] == completedSessions[..j];
      if session.endTime.Some? {
        var hour := hourOf(session.endTime.value);
        hourCounts[hour] := hourCounts[hour] + 1;
      }
      j := j + 1;
    }
    assert completedSessions[..j] == completedSessions;

    var labels: seq<string> := [];
    i := 0;
    while i < 24
      invariant 0 <= i <= 24
      invariant |labels| == i && forall k :: 0 <= k < i ==> labels[k] == HourLabel(k)
    {
      labels := labels + [HourLabel(i)];
      i := i + 1;
    }
    chart := ChartData(labels, hourCounts[..]);
  }
}
