/** `createWeekendGroup` from the command-line program: sessions grouped by weekday. */
module Pitwall {
  import opened Domain

  /** The sessions of `sessions` whose day key is `day`, in input order. */
  function OnDay(sessions: seq<Session>, day: string, dayOf: Time -> string): (r: seq<Session>)
    ensures |r| <= |sessions|
  {
    if sessions == [] then []
    else
      var last := sessions[|sessions| - 1];
      OnDay(sessions[..|sessions| - 1], day, dayOf) + (if dayOf(last.dateStart) == day then [last] else [])
  }

  /** The day keys that occur in `sessions`. */
  function Days(sessions: seq<Session>, dayOf: Time -> string): set<string> {
    set s | s in sessions :: dayOf(s.dateStart)
  }

  /**
   * `createWeekendGroup`: one group per day key that occurs, holding that
   * day's sessions in input order. `dayOf(t)` stands for `t.Format("Mon")`.
   */
  method CreateWeekendGroup(sessions: seq<Session>, dayOf: Time -> string)
    returns (sessionsByDay: map<string, seq<Session>>)
    ensures sessionsByDay.Keys == Days(sessions, dayOf)
    ensures forall day :: day in sessionsByDay ==> sessionsByDay[day] == OnDay(sessions, day, dayOf)
  {
    sessionsByDay := map[];
    for i := 0 to |sessions|
      invariant sessionsByDay.Keys == Days(sessions[..i], dayOf)
      invariant forall day :: day in sessionsByDay ==> sessionsByDay[day] == OnDay(sessions[..i], day, dayOf)
      invariant forall day :: day !in sessionsByDay ==> OnDay(sessions[..i], day, dayOf) == []
    {
      var s := sessions[i];
      GroupStep(sessions, i, dayOf);
      var dayKey := dayOf(s.dateStart);
      var group := if dayKey in sessionsByDay then sessionsByDay[dayKey] else [];
      sessionsByDay := sessionsByDay[dayKey := group + [s]];
    }
    assert sessions[..|sessions|] == sessions;
  }

  /** One more session joins the group of its own day and no other. */
  lemma GroupStep(sessions: seq<Session>, i: nat, dayOf: Time -> string)
    requires i < |sessions|
    ensures Days(sessions[..i + 1], dayOf) == Days(sessions[..i], dayOf) + {dayOf(sessions[i].dateStart)}
    ensures forall day ::
              OnDay(sessions[..i + 1], day, dayOf)
              == OnDay(sessions[..i], day, dayOf) + (if dayOf(sessions[i].dateStart) == day then [sessions[i]] else [])
  {
    assert sessions[..i + 1] == sessions[..i] + [sessions[i]];
    assert sessions[..i + 1][..i] == sessions[..i];
  }

  /** A session is in the group of a day exactly when it occurs and falls on that day. */
  lemma {:induction false} OnDayMembers(sessions: seq<Session>, day: string, dayOf: Time -> string, x: Session)
    ensures x in OnDay(sessions, day, dayOf) <==> x in sessions && dayOf(x.dateStart) == day
  {
    if sessions != [] {
      var init := sessions[..|sessions| - 1];
      OnDayMembers(init, day, dayOf, x);
      assert sessions == init + [sessions[|sessions| - 1]];
    }
  }

  /** Grouping a concatenation groups each part: a group keeps the input's order. */
  lemma {:induction false} OnDayAppend(a: seq<Session>, b: seq<Session>, day: string, dayOf: Time -> string)
    ensures OnDay(a + b, day, dayOf) == OnDay(a, day, dayOf) + OnDay(b, day, dayOf)
    decreases |b|
  {
    if b == [] {
      assert a + b == a;
    } else {
      var init := b[..|b| - 1];
      assert (a + b)[..|a + b| - 1] == a + init;
      OnDayAppend(a, init, day, dayOf);
    }
  }

  /** Every input session is in the group of its own day key. */
  lemma EachSessionInItsOwnGroup(sessions: seq<Session>, dayOf: Time -> string,
                                 sessionsByDay: map<string, seq<Session>>)
    requires sessionsByDay.Keys == Days(sessions, dayOf)
    requires forall day :: day in sessionsByDay ==> sessionsByDay[day] == OnDay(sessions, day, dayOf)
    ensures forall i :: 0 <= i < |sessions| ==>
      dayOf(sessions[i].dateStart) in sessionsByDay && sessions[i] in sessionsByDay[dayOf(sessions[i].dateStart)]
  {
    forall i | 0 <= i < |sessions|
      ensures dayOf(sessions[i].dateStart) in sessionsByDay
      ensures sessions[i] in sessionsByDay[dayOf(sessions[i].dateStart)]
    {
      var x := sessions[i];
      assert x in sessions;
      assert dayOf(x.dateStart) in Days(sessions, dayOf);
      OnDayMembers(sessions, dayOf(x.dateStart), dayOf, x);
    }
  }

  /** A group holds only input sessions of its own day; an empty input gives no groups. */
  lemma GroupsHoldOnlyTheirDay(sessions: seq<Session>, dayOf: Time -> string,
                               sessionsByDay: map<string, seq<Session>>)
    requires sessionsByDay.Keys == Days(sessions, dayOf)
    requires forall day :: day in sessionsByDay ==> sessionsByDay[day] == OnDay(sessions, day, dayOf)
    ensures forall day, x :: day in sessionsByDay && x in sessionsByDay[day] ==> x in sessions && dayOf(x.dateStart) == day
    ensures sessions == [] ==> sessionsByDay == map[]
  {
    forall day, x | day in sessionsByDay && x in sessionsByDay[day]
      ensures x in sessions && dayOf(x.dateStart) == day
    {
      OnDayMembers(sessions, day, dayOf, x);
    }
  }

  /** The total size of the groups named by `days`. */
  function GroupSizes(sessionsByDay: map<string, seq<Session>>, days: seq<string>): nat
    requires forall i :: 0 <= i < |days| ==> days[i] in sessionsByDay
  {
    if days == [] then 0 else |sessionsByDay[days[0]]| + GroupSizes(sessionsByDay, days[1..])
  }

  /** The total size of the day groups of `sessions` for the days `days`. */
  function OnDaySizes(sessions: seq<Session>, days: seq<string>, dayOf: Time -> string): nat {
    if days == [] then 0 else |OnDay(sessions, days[0], dayOf)| + OnDaySizes(sessions, days[1..], dayOf)
  }

  /** How many times `day` occurs in `days`. */
  function Occurrences(days: seq<string>, day: string): nat {
    if days == [] then 0 else (if days[0] == day then 1 else 0) + Occurrences(days[1..], day)
  }

  predicate Distinct(days: seq<string>) {
    forall i, j :: 0 <= i < j < |days| ==> days[i] != days[j]
  }

  lemma {:induction false} OccursOnce(days: seq<string>, day: string)
    requires Distinct(days) && day in days
    ensures Occurrences(days, day) == 1
  {
    if days[0] != day {
      assert day in days[1..];
      OccursOnce(days[1..], day);
    } else {
      NotOccurring(days[1..], day);
    }
  }

  lemma {:induction false} NotOccurring(days: seq<string>, day: string)
    requires day !in days
    ensures Occurrences(days, day) == 0
  {
    if days != [] {
      assert day !in days[1..];
      NotOccurring(days[1..], day);
    }
  }

  /** Appending one session adds one to the sizes of exactly the groups of its day. */
  lemma {:induction false} OnDaySizesStep(sessions: seq<Session>, x: Session, days: seq<string>, dayOf: Time -> string)
    ensures OnDaySizes(sessions + [x], days, dayOf) == OnDaySizes(sessions, days, dayOf) + Occurrences(days, dayOf(x.dateStart))
  {
    if days != [] {
      assert (sessions + [x])[..|sessions + [x]| - 1] == sessions;
      OnDaySizesStep(sessions, x, days[1..], dayOf);
    }
  }

  /** Over distinct days that cover the input, the day groups add up to the input. */
  lemma {:induction false} OnDaySizesAddUp(sessions: seq<Session>, days: seq<string>, dayOf: Time -> string)
    requires Distinct(days)
    requires Days(sessions, dayOf) <= set d | d in days
    ensures OnDaySizes(sessions, days, dayOf) == |sessions|
    decreases |sessions|
  {
    if sessions == [] {
      ZeroSizes(days, dayOf);
    } else {
      var init := sessions[..|sessions| - 1];
      var x := sessions[|sessions| - 1];
      assert sessions == init + [x];
      assert Days(init, dayOf) <= Days(sessions, dayOf);
      OnDaySizesAddUp(init, days, dayOf);
      OnDaySizesStep(init, x, days, dayOf);
      assert dayOf(x.dateStart) in Days(sessions, dayOf);
      OccursOnce(days, dayOf(x.dateStart));
    }
  }

  lemma {:induction false} ZeroSizes(days: seq<string>, dayOf: Time -> string)
    ensures OnDaySizes([], days, dayOf) == 0
  {
    if days != [] {
      ZeroSizes(days[1..], dayOf);
    }
  }

  lemma {:induction false} GroupSizesAreOnDaySizes(sessions: seq<Session>, dayOf: Time -> string,
                                                   sessionsByDay: map<string, seq<Session>>, days: seq<string>)
    requires forall day :: day in sessionsByDay ==> sessionsByDay[day] == OnDay(sessions, day, dayOf)
    requires forall i :: 0 <= i < |days| ==> days[i] in sessionsByDay
    ensures GroupSizes(sessionsByDay, days) == OnDaySizes(sessions, days, dayOf)
  {
    if days != [] {
      GroupSizesAreOnDaySizes(sessions, dayOf, sessionsByDay, days[1..]);
    }
  }

  /**
   * The group sizes add up to the number of input sessions: listing the
   * groups' days once each, no session is lost or counted twice.
   */
  lemma GroupSizesSumToInput(sessions: seq<Session>, dayOf: Time -> string,
                             sessionsByDay: map<string, seq<Session>>, days: seq<string>)
    requires sessionsByDay.Keys == Days(sessions, dayOf)
    requires forall day :: day in sessionsByDay ==> sessionsByDay[day] == OnDay(sessions, day, dayOf)
    requires Distinct(days) && (set d | d in days) == sessionsByDay.Keys
    ensures forall i :: 0 <= i < |days| ==> days[i] in sessionsByDay
    ensures GroupSizes(sessionsByDay, days) == |sessions|
  {
    GroupSizesAreOnDaySizes(sessions, dayOf, sessionsByDay, days);
    OnDaySizesAddUp(sessions, days, dayOf);
  }
}
