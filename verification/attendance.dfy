/** The sequential logic of the attendance page: the derived figures it shows (today's
    record, the weekly window, its total and average) and the punch-in / punch-out handlers,
    with the network replies, the re-fetched list and the current date and time as inputs. */
module Attendance {
  import opened Wrappers
  import Session

  /** One attendance record as fetched: `date`, `punch_in` and `total_hours` on the wire. */
  datatype Record = Record(date: string, punchIn: Option<string>, totalHours: Option<real>)

  /** The view state: the fetched list, the punched-in flag and the remembered punch-in time. */
  datatype View = View(attendance: seq<Record>, punchedIn: bool, punchInTime: Option<string>)

  // ---------------------------------------------------------------------------------------
  // Derived figures
  // ---------------------------------------------------------------------------------------

  /** JavaScript's `a.slice(start)`: a negative start counts back from the end and is clamped
      at the front, a start past the end gives the empty sequence. */
  function SliceFrom<T>(a: seq<T>, start: int): (r: seq<T>)
    ensures start < 0 ==> |r| == if -start < |a| then -start else |a|
    ensures 0 <= start ==> |r| == if start < |a| then |a| - start else 0
    ensures r == a[|a| - |r|..]
  {
    var from := if start < 0 then (if |a| + start < 0 then 0 else |a| + start)
                else (if start < |a| then start else |a|);
    a[from..]
  }

  /** The records the weekly figures are computed over: the last seven fetched, in the order
      fetched. */
  function WeeklyWindow(records: seq<Record>): (window: seq<Record>)
    ensures |window| <= 7
    ensures |records| >= 7 ==> |window| == 7
    ensures |records| < 7 ==> window == records
    ensures |records| >= 7 ==> window == records[|records| - 7..]
  {
    SliceFrom(records, -7)
  }

  /** `a.total_hours || 0`: missing hours (and zero) count as zero. */
  function Hours(r: Record): real {
    r.totalHours.GetOr(0.0)
  }

  /** The reference sum of hours, folding from the left as `reduce` does. */
  function SumHours(records: seq<Record>): real {
    if records == [] then 0.0 else SumHours(records[..|records| - 1]) + Hours(records[|records| - 1])
  }

  /** The left-to-right reduce `(sum, a) => sum + (a.total_hours || 0)` from 0 over a list. */
  method ReduceHours(window: seq<Record>) returns (total: real)
    ensures total == SumHours(window)
  {
    total := 0.0;
    var i := 0;
    while i < |window|
      invariant 0 <= i <= |window|
      invariant total == SumHours(window[..i])
    {
      var prefix := window[..i];
      assert window[..i + 1] == prefix + [window[i]];
      SumHoursSnoc(prefix, window[i]);
      total := total + Hours(window[i]);
      i := i + 1;
    }
    assert window[..|window|] == window;
  }

  /** The weekly total as the page computes it: the reduce over the weekly window. */
  method WeeklyTotal(records: seq<Record>) returns (total: real)
    ensures total == SumHours(WeeklyWindow(records))
  {
    total := ReduceHours(WeeklyWindow(records));
  }

  /** The daily average: zero for an empty window, otherwise the total divided by the number
      of records in the window, so it never divides by zero. */
  function AverageHours(records: seq<Record>): (avg: real)
    ensures |WeeklyWindow(records)| == 0 ==> avg == 0.0
    ensures |WeeklyWindow(records)| > 0 ==>
      avg * (|WeeklyWindow(records)| as real) == SumHours(WeeklyWindow(records))
  {
    WindowAverage(WeeklyWindow(records))
  }

  /** `total / window.length` when the window is non-empty, and 0 otherwise. */
  function WindowAverage(window: seq<Record>): (avg: real)
    ensures |window| == 0 ==> avg == 0.0
    ensures |window| > 0 ==> avg * (|window| as real) == SumHours(window)
  {
    if |window| > 0 then
      DivThenMul(SumHours(window), |window| as real);
      SumHours(window) / (|window| as real)
    else 0.0
  }

  /** Weekly total and earlier records: the sum over the whole list splits into the sum over the
      records before the window and the sum over the window. */
  lemma WindowSplitsTotal(records: seq<Record>)
    ensures SumHours(records) ==
      SumHours(records[..|records| - |WeeklyWindow(records)|]) + SumHours(WeeklyWindow(records))
  {
    var window := WeeklyWindow(records);
    var k := |records| - |window|;
    assert records == records[..k] + window;
    SumHoursAppend(records[..k], window);
  }

  /** The sum of hours over a concatenation is the sum of the two sums. */
  lemma {:induction false} SumHoursAppend(a: seq<Record>, b: seq<Record>)
    ensures SumHours(a + b) == SumHours(a) + SumHours(b)
    decreases |b|
  {
    if b == [] {
      assert a + b == a;
    } else {
      var b' := b[..|b| - 1];
      assert (a + b)[..|a + b| - 1] == a + b';
      SumHoursAppend(a, b');
    }
  }

  /** When every record's hours lie in `[lo, hi]`, the sum lies between `n * lo` and `n * hi`. */
  lemma {:induction false} SumHoursBounds(records: seq<Record>, lo: real, hi: real)
    requires forall i :: 0 <= i < |records| ==> lo <= Hours(records[i]) <= hi
    ensures (|records| as real) * lo <= SumHours(records) <= (|records| as real) * hi
  {
    if records != [] {
      var init := records[..|records| - 1];
      assert forall i :: 0 <= i < |init| ==> init[i] == records[i];
      SumHoursBounds(init, lo, hi);
      var h := Hours(records[|records| - 1]);
      assert lo <= h <= hi;
      assert SumHours(records) == SumHours(init) + h;
      var m := |init| as real;
      assert |records| as real == m + 1.0;
      MulSucc(m, lo);
      MulSucc(m, hi);
    }
  }

  /** Appending one record adds its hours to the sum. */
  lemma SumHoursSnoc(records: seq<Record>, r: Record)
    ensures SumHours(records + [r]) == SumHours(records) + Hours(r)
  {
    assert (records + [r])[..|records|] == records;
  }

  lemma MulSucc(m: real, x: real)
    ensures (m + 1.0) * x == m * x + x
  {
  }

  lemma MulNonneg(a: real, b: real)
    requires 0.0 <= a && 0.0 <= b
    ensures 0.0 <= a * b
  {
  }

  lemma DivThenMul(s: real, n: real)
    requires n != 0.0
    ensures (s / n) * n == s
  {
  }

  /** An average of `n > 0` values whose sum lies in `[0, n * cap]` lies in `[0, cap]`. */
  lemma MeanWithin(sum: real, n: real, cap: real)
    requires 0.0 < n && 0.0 <= sum <= n * cap
    ensures 0.0 <= sum / n <= cap
  {
    DivThenMul(sum, n);
  }

  /** Hours of at most seven records, each in `[0, cap]`, sum to at most `7 * cap`, and their
      mean lies in `[0, cap]`. */
  lemma WindowBounds(window: seq<Record>, cap: real)
    requires 0.0 <= cap && |window| <= 7
    requires forall i :: 0 <= i < |window| ==> 0.0 <= Hours(window[i]) <= cap
    ensures 0.0 <= SumHours(window) <= 7.0 * cap
    ensures |window| > 0 ==> 0.0 <= SumHours(window) / (|window| as real) <= cap
  {
    SumHoursBounds(window, 0.0, cap);
    var n, sum := |window| as real, SumHours(window);
    assert n * 0.0 == 0.0;
    assert n <= 7.0;
    MulNonneg(7.0 - n, cap);
    if |window| > 0 {
      MeanWithin(sum, n, cap);
    }
  }

  /** With every window record's hours in `[0, cap]`, the weekly total is at most seven times
      the cap and the average lies in `[0, cap]`. */
  lemma AverageWithinBounds(records: seq<Record>, cap: real)
    requires 0.0 <= cap
    requires forall r :: r in WeeklyWindow(records) ==> 0.0 <= Hours(r) <= cap
    ensures 0.0 <= SumHours(WeeklyWindow(records)) <= 7.0 * cap
    ensures 0.0 <= AverageHours(records) <= cap
  {
    var window := WeeklyWindow(records);
    forall i | 0 <= i < |window| ensures 0.0 <= Hours(window[i]) <= cap {
      assert window[i] in window;
    }
    WindowBounds(window, cap);
  }

  /** An example week on day `d`: hours 8, 8, 7.5, 8, 0, missing, 8. */
  function ExampleWeek(d: string): seq<Record> {
    [Record(d, None, Some(8.0)), Record(d, None, Some(8.0)), Record(d, None, Some(7.5)),
     Record(d, None, Some(8.0)), Record(d, None, Some(0.0)), Record(d, None, None),
     Record(d, None, Some(8.0))]
  }

  lemma ExampleWeekSum(d: string)
    ensures SumHours(ExampleWeek(d)) == 39.5
  {
    var eight, half, zero, none := Record(d, None, Some(8.0)), Record(d, None, Some(7.5)),
      Record(d, None, Some(0.0)), Record(d, None, None);
    var s1 := [eight];
    var s2 := s1 + [eight];
    var s3 := s2 + [half];
    var s4 := s3 + [eight];
    var s5 := s4 + [zero];
    var s6 := s5 + [none];
    var week := s6 + [eight];
    assert s1 == [] + [eight];
    SumHoursSnoc([], eight);
    SumHoursSnoc(s1, eight);
    SumHoursSnoc(s2, half);
    SumHoursSnoc(s3, eight);
    SumHoursSnoc(s4, zero);
    SumHoursSnoc(s5, none);
    SumHoursSnoc(s6, eight);
    assert week == ExampleWeek(d);
  }

  /** The example week: the window is the whole week, its total is 39.5 and its average is
      39.5 / 7; an empty list averages to zero. */
  lemma WeeklyExample(d: string)
    ensures SumHours(WeeklyWindow(ExampleWeek(d))) == 39.5
    ensures AverageHours(ExampleWeek(d)) * 7.0 == 39.5
    ensures AverageHours([]) == 0.0
  {
    var week := ExampleWeek(d);
    assert WeeklyWindow(week) == week;
    ExampleWeekSum(d);
  }

  /** The position of the first record dated `today`, if any. */
  function FirstIndexOn(records: seq<Record>, today: string): (k: Option<nat>)
    ensures k.None? <==> forall i :: 0 <= i < |records| ==> records[i].date != today
    ensures k.Some? ==> k.value < |records| && records[k.value].date == today
    ensures k.Some? ==> forall i :: 0 <= i < k.value ==> records[i].date != today
  {
    if records == [] then None
    else if records[0].date == today then Some(0)
    else
      match FirstIndexOn(records[1..], today)
      case None => None
      case Some(j) => Some(j + 1)
  }

  /** `attendance.find(a => a.date === today)`: the first record of the day, if any. */
  function TodayRecord(records: seq<Record>, today: string): (found: Option<Record>)
    ensures found.None? <==> forall r :: r in records ==> r.date != today
    ensures found.Some? ==> found.value in records && found.value.date == today
    ensures found.Some? ==> exists k :: 0 <= k < |records| && records[k] == found.value &&
                                        (forall i :: 0 <= i < k ==> records[i].date != today)
  {
    match FirstIndexOn(records, today)
    case None => None
    case Some(k) => Some(records[k])
  }

  // ---------------------------------------------------------------------------------------
  // Punch handlers
  // ---------------------------------------------------------------------------------------

  const Present: string := "present"
  const DefaultPunchIn: string := "09:00"

  /** The body posted by either handler: `{date, punch_in, punch_out, status}`. */
  datatype PunchBody = PunchBody(date: string, punchIn: string, punchOut: Option<string>, status: string)

  /** How the POST ended: the request failed outright, or a reply came with its `ok` flag and
      whether its body parsed as JSON (the body is parsed before `ok` is tested). */
  datatype PostReply = NetworkError | Reply(ok: bool, jsonBody: bool)

  /** The reply reaches the line after the `ok` test. */
  predicate Accepted(reply: PostReply) {
    reply.Reply? && reply.ok && reply.jsonBody
  }

  /** What one click does: the new view, the body posted (none when no request went out) and
      whether the list was re-fetched. */
  datatype Step = Step(view: View, request: Option<PunchBody>, refreshed: bool)

  /** The punch-out's `punch_in`: today's record's punch-in if non-empty, else the remembered
      punch-in time if non-empty, else `09:00`. */
  function PunchOutPunchIn(existing: Option<Record>, remembered: Option<string>): (p: string)
    ensures p != ""
    ensures p == DefaultPunchIn || remembered == Some(p) || (existing.Some? && existing.value.punchIn == Some(p))
    ensures existing.Some? && Truthy(existing.value.punchIn) ==> p == existing.value.punchIn.value
    ensures !(existing.Some? && Truthy(existing.value.punchIn)) && Truthy(remembered) ==> p == remembered.value
  {
    var fromRecord := if existing.Some? then existing.value.punchIn else None;
    OrElse(fromRecord, OrElse(remembered, DefaultPunchIn))
  }

  /** The attendance fetch: it does nothing unless the user has an id and a token; then a
      successful fetch replaces the list wholesale and a failed one (`None`) leaves it. */
  function Refresh(view: View, user: Option<Session.User>, fetched: Option<seq<Record>>): (view': View)
    ensures view'.punchedIn == view.punchedIn && view'.punchInTime == view.punchInTime
    ensures view'.attendance ==
      if user.Some? && Truthy(user.value.id) && Truthy(user.value.token) && fetched.Some?
      then fetched.value else view.attendance
  {
    if user.None? || !Truthy(user.value.id) || !Truthy(user.value.token) then view
    else if fetched.Some? then view.(attendance := fetched.value)
    else view
  }

  /** What follows the POST, as the handlers evidently intend it: re-fetch after an accepted
      reply, only log otherwise. */
  function Settle(view: View, user: Option<Session.User>, body: PunchBody, reply: PostReply,
                  fetched: Option<seq<Record>>): (step: Step)
    ensures step.request == Some(body)
    ensures step.refreshed <==> Accepted(reply)
    ensures step.view.punchedIn == view.punchedIn && step.view.punchInTime == view.punchInTime
    ensures Accepted(reply) ==> step.view == Refresh(view, user, fetched)
    ensures !Accepted(reply) ==> step.view == view
  {
    if Accepted(reply) then Step(Refresh(view, user, fetched), Some(body), true)
    else Step(view, Some(body), false)
  }

  /** What follows the POST as written: the re-fetch names a function declared inside the
      page's effect, which is out of scope in the handlers, so calling it throws and the
      handler's catch logs the punch as failed. The handler itself issues no re-fetch. */
  function SettleAsWritten(view: View, body: PunchBody, reply: PostReply): (step: Step)
    ensures step.request == Some(body)
    ensures !step.refreshed && step.view == view
  {
    Step(view, Some(body), false)
  }

  /** As written, the handler issues no re-fetch after an accepted punch and leaves the list as
      it was, whereas the intended handler installs the fetched list. */
  lemma AsWrittenNeverRefreshes(view: View, user: Session.User, body: PunchBody, newList: seq<Record>)
    requires Truthy(user.id) && Truthy(user.token)
    requires newList != view.attendance
    ensures SettleAsWritten(view, body, Reply(true, true)).view.attendance == view.attendance
    ensures Settle(view, Some(user), body, Reply(true, true), Some(newList)).view.attendance == newList
  {
  }

  /** Punch-in: remember the time and set the flag first, then post
      `{date: today, punch_in: now, punch_out: null, status: 'present'}`. Without a user,
      reading its token throws before the request goes out; the flag stays set. */
  function PunchIn(view: View, user: Option<Session.User>, today: string, now: string,
                   reply: PostReply, fetched: Option<seq<Record>>): (step: Step)
    ensures step.view.punchedIn && step.view.punchInTime == Some(now)
    ensures step.request.Some? <==> user.Some?
    ensures step.request.Some? ==> step.request.value == PunchBody(today, now, None, Present)
    ensures step.refreshed <==> user.Some? && Accepted(reply)
    ensures step.refreshed ==>
      step.view.attendance ==
        if Truthy(user.value.id) && Truthy(user.value.token) && fetched.Some? then fetched.value else view.attendance
    ensures !step.refreshed ==> step.view.attendance == view.attendance
  {
    var flipped := view.(punchedIn := true, punchInTime := Some(now));
    if user.None? then Step(flipped, None, false)
    else Settle(flipped, user, PunchBody(today, now, None, Present), reply, fetched)
  }

  /** Punch-out: clear the flag first, then post today's date, the punch-in chosen by
      `PunchOutPunchIn` from the list as currently shown, `now` as punch-out and status
      `present`. The remembered punch-in time is kept. */
  function PunchOut(view: View, user: Option<Session.User>, today: string, now: string,
                    reply: PostReply, fetched: Option<seq<Record>>): (step: Step)
    ensures !step.view.punchedIn && step.view.punchInTime == view.punchInTime
    ensures step.request.Some? <==> user.Some?
    ensures step.request.Some? ==>
      step.request.value == PunchBody(today, PunchOutPunchIn(TodayRecord(view.attendance, today), view.punchInTime), Some(now), Present)
    ensures step.refreshed <==> user.Some? && Accepted(reply)
    ensures step.refreshed ==>
      step.view.attendance ==
        if Truthy(user.value.id) && Truthy(user.value.token) && fetched.Some? then fetched.value else view.attendance
    ensures !step.refreshed ==> step.view.attendance == view.attendance
  {
    var flipped := view.(punchedIn := false);
    if user.None? then Step(flipped, None, false)
    else
      var existing := TodayRecord(view.attendance, today);
      Settle(flipped, user, PunchBody(today, PunchOutPunchIn(existing, view.punchInTime), Some(now), Present), reply, fetched)
  }

  /** Punch-in as written: the same flag flip and request as `PunchIn`, followed by the
      out-of-scope re-fetch, so the handler never re-fetches and never changes the list. */
  function PunchInAsWritten(view: View, user: Option<Session.User>, today: string, now: string,
                            reply: PostReply): (step: Step)
    ensures step.view.punchedIn && step.view.punchInTime == Some(now)
    ensures step.request.Some? <==> user.Some?
    ensures step.request.Some? ==> step.request.value == PunchBody(today, now, None, Present)
    ensures !step.refreshed && step.view.attendance == view.attendance
  {
    var flipped := view.(punchedIn := true, punchInTime := Some(now));
    if user.None? then Step(flipped, None, false)
    else SettleAsWritten(flipped, PunchBody(today, now, None, Present), reply)
  }

  /** Punch-out as written: the same flag flip and request as `PunchOut`, followed by the
      out-of-scope re-fetch, so the handler never re-fetches and never changes the list. */
  function PunchOutAsWritten(view: View, user: Option<Session.User>, today: string, now: string,
                             reply: PostReply): (step: Step)
    ensures !step.view.punchedIn && step.view.punchInTime == view.punchInTime
    ensures step.request.Some? <==> user.Some?
    ensures step.request.Some? ==> step.request.value ==
                                   PunchBody(today, PunchOutPunchIn(TodayRecord(view.attendance, today), view.punchInTime),
                                             Some(now), Present)
    ensures !step.refreshed && step.view.attendance == view.attendance
  {
    var flipped := view.(punchedIn := false);
    if user.None? then Step(flipped, None, false)
    else
      var existing := TodayRecord(view.attendance, today);
      SettleAsWritten(flipped, PunchBody(today, PunchOutPunchIn(existing, view.punchInTime), Some(now), Present), reply)
  }

  /** The handlers as written and as intended post the same request and leave the same flag
      and remembered time; they differ only after an accepted reply, and only in the list. */
  lemma AsWrittenDiffersOnlyInRefresh(view: View, user: Option<Session.User>, today: string, now: string,
                                      reply: PostReply, fetched: Option<seq<Record>>)
    ensures PunchInAsWritten(view, user, today, now, reply).request == PunchIn(view, user, today, now, reply, fetched).request
    ensures PunchOutAsWritten(view, user, today, now, reply).request == PunchOut(view, user, today, now, reply, fetched).request
    ensures PunchInAsWritten(view, user, today, now, reply).view ==
      PunchIn(view, user, today, now, reply, fetched).view.(attendance := view.attendance)
    ensures PunchOutAsWritten(view, user, today, now, reply).view ==
      PunchOut(view, user, today, now, reply, fetched).view.(attendance := view.attendance)
    ensures !(user.Some? && Accepted(reply)) ==>
      PunchInAsWritten(view, user, today, now, reply) == PunchIn(view, user, today, now, reply, fetched) &&
      PunchOutAsWritten(view, user, today, now, reply) == PunchOut(view, user, today, now, reply, fetched)
  {
  }

  /** A user entry that parses to a falsy non-null value (`0`, `false`) reaches the handlers
      as a user without `id` or `token`: reading its token does not throw, so the request still
      goes out (with an undefined bearer token), and even an accepted reply leaves the list,
      because the fetch turns a user without id and token away. */
  lemma TokenlessUserStillPosts(view: View, today: string, now: string, reply: PostReply,
                                fetched: Option<seq<Record>>)
    ensures var step := PunchIn(view, Some(Session.User(None, None, None)), today, now, reply, fetched);
      step.request == Some(PunchBody(today, now, None, Present)) && step.view.attendance == view.attendance
    ensures var step := PunchOut(view, Some(Session.User(None, None, None)), today, now, reply, fetched);
      step.request.Some? && step.view.attendance == view.attendance
  {
  }

  /** The punch button runs punch-out when punched in and punch-in otherwise. */
  function Click(view: View, user: Option<Session.User>, today: string, now: string,
                 reply: PostReply, fetched: Option<seq<Record>>): (step: Step)
    ensures step.view.punchedIn == !view.punchedIn
  {
    if view.punchedIn then PunchOut(view, user, today, now, reply, fetched)
    else PunchIn(view, user, today, now, reply, fetched)
  }

  /** The flag is optimistic and never rolled back: a failed punch changes nothing but the
      flag (and, for a punch-in, the remembered time). */
  lemma FlagFlipsRegardlessOfReply(view: View, user: Option<Session.User>, today: string, now: string,
                                   fetched: Option<seq<Record>>)
    ensures PunchIn(view, user, today, now, NetworkError, fetched).view ==
      view.(punchedIn := true, punchInTime := Some(now))
    ensures PunchOut(view, user, today, now, Reply(false, true), fetched).view == view.(punchedIn := false)
  {
  }

  /** Punching in at `t` and later out: the posted punch-out keeps `t` as its punch-in,
      provided the list shown at punch-out has no record for today with a different non-empty
      punch-in (for instance, no record for today at all, or the stored one). */
  lemma PunchInThenOutKeepsTime(view: View, user: Session.User, today: string, t: string, t': string,
                                reply: PostReply, fetched: Option<seq<Record>>,
                                reply': PostReply, fetched': Option<seq<Record>>)
    requires t != ""
    requires var shown := PunchIn(view, Some(user), today, t, reply, fetched).view.attendance;
      forall r :: r in shown && r.date == today && Truthy(r.punchIn) ==> r.punchIn == Some(t)
    ensures var after := PunchIn(view, Some(user), today, t, reply, fetched).view;
      PunchOut(after, Some(user), today, t', reply', fetched').request.value.punchIn == t
  {
  }
}
