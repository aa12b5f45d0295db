/** The availability engine of the calendar service: free slots of one day
    on a 30-minute grid, and the scan over the following days. Instants are
    whole minutes on the clinic's local time axis; day `d` starts at minute
    `d * 1440`, and day 0 (1970-01-01) is a Thursday. */
module Calendar {
  import opened Common

  /** Minutes between two candidate starts. */
  const SlotStep := 30

  /** Minutes in a day. */
  const DayMinutes := 1440

  /** Days with free slots after which the multi-day scan stops. */
  const MaxDaysWithSlots := 5

  /** Default length of the multi-day scan. */
  const DefaultDaysAhead := 14

  /** A busy period reported by the free/busy query. */
  datatype Interval = Interval(start: int, end: int)

  /** A bookable slot. */
  datatype Slot = Slot(start: int, end: int)

  /** One day's working window, from its opening to its closing instant. */
  datatype Window = Window(open: int, close: int)

  /** The free/busy query failed; the source rethrows it so that the agent
      can tell the patient. */
  datatype CalendarError = FreeBusyFailed

  /** The slot overlaps the busy period (half-open: touching ends do not). */
  predicate Conflicts(s: Slot, b: Interval) {
    s.start < b.end && s.end > b.start
  }

  /** `busyPeriods.some(...)`: the slot overlaps some busy period. */
  predicate HasConflict(s: Slot, busy: seq<Interval>) {
    exists i :: 0 <= i < |busy| && Conflicts(s, busy[i])
  }

  /** The candidate starting at `t` is offered: it starts after `now` and is free. */
  predicate Offered(t: int, dur: int, now: int, busy: seq<Interval>) {
    t > now && !HasConflict(Slot(t, t + dur), busy)
  }

  /** The offered slots among the candidates `from`, `from + 30`, … whose end
      does not pass `close`. */
  function GridSlots(from: int, close: int, dur: int, now: int, busy: seq<Interval>): seq<Slot>
    decreases close - dur - from
  {
    if from + dur > close then []
    else
      (if Offered(from, dur, now, busy) then [Slot(from, from + dur)] else [])
      + GridSlots(from + SlotStep, close, dur, now, busy)
  }

  /** The free slots of a working window. */
  function AvailableSlots(w: Window, dur: int, now: int, busy: seq<Interval>): seq<Slot> {
    GridSlots(w.open, w.close, dur, now, busy)
  }

  /** Every slot produced is well formed, inside the window, on the grid,
      in the future and free. */
  lemma {:induction false} GridSlotsSound(from: int, close: int, dur: int, now: int, busy: seq<Interval>)
    ensures forall s :: s in GridSlots(from, close, dur, now, busy) ==>
      && s.end == s.start + dur
      && from <= s.start && s.end <= close
      && (s.start - from) % SlotStep == 0
      && s.start > now
      && !HasConflict(s, busy)
    decreases close - dur - from
  {
    if from + dur <= close {
      GridSlotsSound(from + SlotStep, close, dur, now, busy);
      forall s | s in GridSlots(from + SlotStep, close, dur, now, busy)
        ensures (s.start - from) % SlotStep == 0
      {
        assert s.start - from == (s.start - (from + SlotStep)) + SlotStep;
      }
    }
  }

  /** Every free future candidate on the grid that fits the window is produced. */
  lemma {:induction false} GridSlotsComplete(from: int, close: int, dur: int, now: int, busy: seq<Interval>, t: int)
    requires from <= t && (t - from) % SlotStep == 0 && t + dur <= close
    requires Offered(t, dur, now, busy)
    ensures Slot(t, t + dur) in GridSlots(from, close, dur, now, busy)
    decreases close - dur - from
  {
    if t != from {
      assert t - (from + SlotStep) == (t - from) - SlotStep;
      GridSlotsComplete(from + SlotStep, close, dur, now, busy, t);
    }
  }

  /** Slot starts strictly increase along the sequence. */
  predicate Ascending(r: seq<Slot>) {
    forall i, j :: 0 <= i < j < |r| ==> r[i].start < r[j].start
  }

  /** The slots come out in strictly ascending order of start. */
  lemma {:induction false} GridSlotsAscending(from: int, close: int, dur: int, now: int, busy: seq<Interval>)
    ensures Ascending(GridSlots(from, close, dur, now, busy))
    decreases close - dur - from
  {
    if from + dur <= close {
      var rest := GridSlots(from + SlotStep, close, dur, now, busy);
      GridSlotsAscending(from + SlotStep, close, dur, now, busy);
      if !Offered(from, dur, now, busy) {
        assert GridSlots(from, close, dur, now, busy) == [] + rest == rest;
      } else {
        GridSlotsSound(from + SlotStep, close, dur, now, busy);
        var r := [Slot(from, from + dur)] + rest;
        assert GridSlots(from, close, dur, now, busy) == r;
        forall i, j | 0 <= i < j < |r|
          ensures r[i].start < r[j].start
        {
          assert r[j] == rest[j - 1];
          if i > 0 {
            assert r[i] == rest[i - 1];
          } else {
            assert rest[j - 1] in rest;
          }
        }
        assert Ascending(r);
      }
    }
  }

  /** `getAvailableSlots`: no working hours give no slots and no query; a
      failed free/busy query is an error; otherwise the loop walks the
      30-minute grid from the opening instant while a slot still fits and
      pushes each candidate that is in the future and free. `queried` tells
      whether the free/busy service was asked. */
  method GetAvailableSlots(window: Option<Window>, dur: int, now: int, freeBusy: Option<seq<Interval>>)
    returns (r: Result<seq<Slot>, CalendarError>, queried: bool)
    ensures queried <==> window.Some?
    ensures window.None? ==> r == Ok([])
    ensures window.Some? && freeBusy.None? ==> r == Err(FreeBusyFailed)
    ensures window.Some? && freeBusy.Some? ==>
      r == Ok(AvailableSlots(window.value, dur, now, freeBusy.value))
  {
    if window.None? {
      return Ok([]), false;
    }
    var w := window.value;
    queried := true;
    if freeBusy.None? {
      return Err(FreeBusyFailed), queried;
    }
    var busy := freeBusy.value;

    var slots: seq<Slot> := [];
    var current := w.open;
    while current + dur <= w.close
      invariant slots + GridSlots(current, w.close, dur, now, busy) == GridSlots(w.open, w.close, dur, now, busy)
      decreases w.close - dur - current
    {
      var slotEnd := current + dur;
      var slotStart := current;
      ghost var rest := GridSlots(current + SlotStep, w.close, dur, now, busy);
      if !(slotStart > now) {
        assert GridSlots(current, w.close, dur, now, busy) == [] + rest == rest;
        current := current + SlotStep;
        continue;
      }
      var hasConflict := HasConflict(Slot(slotStart, slotEnd), busy);
      if !hasConflict {
        assert GridSlots(current, w.close, dur, now, busy) == [Slot(slotStart, slotEnd)] + rest;
        slots := slots + [Slot(slotStart, slotEnd)];
      } else {
        assert GridSlots(current, w.close, dur, now, busy) == [] + rest == rest;
      }
      current := current + SlotStep;
    }
    assert slots + [] == slots;
    return Ok(slots), queried;
  }

  /** With a 60-minute procedure in an 08:00–10:00 window and 09:00–09:30
      busy, only 08:00 is offered: 08:30 and 09:00 overlap the busy period,
      while 08:00–09:00 merely touches it. */
  lemma BusyPeriodExample()
    ensures AvailableSlots(Window(480, 600), 60, 0, [Interval(540, 570)]) == [Slot(480, 540)]
  {
    var busy := [Interval(540, 570)];
    assert !HasConflict(Slot(480, 540), busy);
    assert Conflicts(Slot(510, 570), busy[0]);
    assert Conflicts(Slot(540, 600), busy[0]);
    assert GridSlots(570, 600, 60, 0, busy) == [];
    assert GridSlots(540, 600, 60, 0, busy) == [];
    assert GridSlots(510, 600, 60, 0, busy) == [];
  }

  /** A candidate is among a window's free slots exactly when it is on the
      grid from the opening instant, fits before the closing instant, starts
      after `now` and overlaps no busy period. */
  lemma AvailableSlotsIff(w: Window, dur: int, now: int, busy: seq<Interval>, t: int)
    ensures Slot(t, t + dur) in AvailableSlots(w, dur, now, busy) <==>
      w.open <= t && (t - w.open) % SlotStep == 0 && t + dur <= w.close && Offered(t, dur, now, busy)
  {
    GridSlotsSound(w.open, w.close, dur, now, busy);
    if w.open <= t && (t - w.open) % SlotStep == 0 && t + dur <= w.close && Offered(t, dur, now, busy) {
      GridSlotsComplete(w.open, w.close, dur, now, busy, t);
    }
  }

  /** With nothing busy and a window opening after `now`, every candidate
      that fits is offered: one slot per 30 minutes. */
  lemma {:induction false} FreeGridLength(from: int, close: int, dur: int, now: int)
    requires now < from && from + dur <= close
    ensures |GridSlots(from, close, dur, now, [])| == (close - dur - from) / SlotStep + 1
    decreases close - dur - from
  {
    assert Offered(from, dur, now, []);
    if from + SlotStep + dur <= close {
      FreeGridLength(from + SlotStep, close, dur, now);
    } else {
      assert GridSlots(from + SlotStep, close, dur, now, []) == [];
    }
  }

  /** Monday 08:00–12:00, a 30-minute procedure, asked at 07:00 with nothing
      busy: eight slots, 08:00 to 11:30 (day 4, 1970-01-05, is a Monday). */
  lemma MondayMorningScenario()
    ensures Weekday(4) == 1
    ensures |AvailableSlots(Window(4 * DayMinutes + 480, 4 * DayMinutes + 720), 30, 4 * DayMinutes + 420, [])| == 8
  {
    FreeGridLength(4 * DayMinutes + 480, 4 * DayMinutes + 720, 30, 4 * DayMinutes + 420);
  }

  /** The same Monday with 09:00–09:30 busy: exactly the 09:00 slot is
      missing; 08:30–09:00 and 09:30–10:00 only touch the busy period. */
  lemma BusyNineScenario(t: int)
    ensures var d := 4 * DayMinutes;
      Slot(t, t + 30) in AvailableSlots(Window(d + 480, d + 720), 30, d + 420, [Interval(d + 540, d + 570)]) <==>
        d + 480 <= t <= d + 690 && (t - (d + 480)) % SlotStep == 0 && t != d + 540
  {
    var d := 4 * DayMinutes;
    var busy := [Interval(d + 540, d + 570)];
    AvailableSlotsIff(Window(d + 480, d + 720), 30, d + 420, busy, t);
    assert HasConflict(Slot(t, t + 30), busy) <==> Conflicts(Slot(t, t + 30), busy[0]);
    if d + 480 <= t && (t - (d + 480)) % SlotStep == 0 {
      var k := (t - (d + 480)) / SlotStep;
      assert t == d + 480 + SlotStep * k;
    }
  }

  /** A start equal to `now` is not offered: only starts strictly after it are. */
  lemma NowIsNotOffered(w: Window, dur: int, busy: seq<Interval>)
    ensures forall s :: s in AvailableSlots(w, dur, w.open, busy) ==> s.start > w.open
  {
    GridSlotsSound(w.open, w.close, dur, w.open, busy);
  }

  // ----- the multi-day scan -----

  /** A working-hours entry: a weekday (0 = Sunday) and its opening and
      closing times in minutes after midnight. */
  datatype DayHours = DayHours(dayOfWeek: int, startTime: int, endTime: int)

  /** The free slots of one day, for the day numbered `day`. */
  datatype DaySlots = DaySlots(day: int, slots: seq<Slot>)

  /** The weekday of a day number, 0 = Sunday. */
  function Weekday(day: int): (w: int)
    ensures 0 <= w < 7
  {
    (day + 4) % 7
  }

  /** `workingHoursByDay.find(h => h.dayOfWeek === dow)`: the first entry
      for the weekday. */
  function FindHours(hours: seq<DayHours>, dow: int): (r: Option<DayHours>)
    ensures r.Some? ==> r.value in hours && r.value.dayOfWeek == dow
    ensures r.None? <==> forall h :: h in hours ==> h.dayOfWeek != dow
  {
    if hours == [] then None
    else if hours[0].dayOfWeek == dow then Some(hours[0])
    else FindHours(hours[1..], dow)
  }

  /** The working window of a day under an entry. */
  function DayWindow(day: int, h: DayHours): Window {
    Window(day * DayMinutes + h.startTime, day * DayMinutes + h.endTime)
  }

  /** What the scan returns from day offset `i` on, having gathered `acc`:
      days without an entry are skipped, a failed query aborts the scan, a
      day with slots is appended, and the scan stops once five days with
      slots are gathered. `freeBusy(d)` is the free/busy answer for day `d`. */
  function ScanDays(dur: int, hours: seq<DayHours>, daysAhead: int, today: int, now: int,
                    freeBusy: int -> Option<seq<Interval>>, i: int, acc: seq<DaySlots>)
    : Result<seq<DaySlots>, CalendarError>
    decreases daysAhead - i
  {
    if i >= daysAhead then Ok(acc)
    else
      var day := today + i;
      match FindHours(hours, Weekday(day))
      case None => ScanDays(dur, hours, daysAhead, today, now, freeBusy, i + 1, acc)
      case Some(h) =>
        match freeBusy(day)
        case None => Err(FreeBusyFailed)
        case Some(busy) =>
          var slots := AvailableSlots(DayWindow(day, h), dur, now, busy);
          var acc' := if |slots| > 0 then acc + [DaySlots(day, slots)] else acc;
          if |acc'| >= MaxDaysWithSlots then Ok(acc')
          else ScanDays(dur, hours, daysAhead, today, now, freeBusy, i + 1, acc')
  }

  /** `getAvailableSlotsForDays`: the `for` loop over the next `daysAhead`
      days from `today`, pushing each day that has slots and breaking once
      five are gathered. */
  method GetAvailableSlotsForDays(dur: int, hours: seq<DayHours>, daysAhead: int, today: int, now: int,
                                  freeBusy: int -> Option<seq<Interval>>)
    returns (r: Result<seq<DaySlots>, CalendarError>)
    ensures r == ScanDays(dur, hours, daysAhead, today, now, freeBusy, 0, [])
  {
    var results: seq<DaySlots> := [];
    var i := 0;
    while i < daysAhead
      invariant |results| < MaxDaysWithSlots
      invariant ScanDays(dur, hours, daysAhead, today, now, freeBusy, i, results)
             == ScanDays(dur, hours, daysAhead, today, now, freeBusy, 0, [])
      decreases daysAhead - i
    {
      var date := today + i;
      var wh := FindHours(hours, Weekday(date));
      if wh.None? {
        i := i + 1;
        continue;
      }
      var slots, _ := GetAvailableSlots(Some(DayWindow(date, wh.value)), dur, now, freeBusy(date));
      if slots.Err? {
        return Err(slots.error);
      }
      if |slots.value| > 0 {
        results := results + [DaySlots(date, slots.value)];
      }
      if |results| >= MaxDaysWithSlots {
        return Ok(results);
      }
      i := i + 1;
    }
    return Ok(results);
  }

  /** The entries a scan may gather from offset `i` on: days in
      `[today + i, today + daysAhead)`, after the days already gathered, each
      holding exactly that day's non-empty free slots under its entry. */
  ghost predicate ScanEntries(dur: int, hours: seq<DayHours>, daysAhead: int, today: int, now: int,
                              freeBusy: int -> Option<seq<Interval>>, i: int, acc: seq<DaySlots>)
  {
    && |acc| <= MaxDaysWithSlots
    && (forall k :: 0 <= k < |acc| ==> acc[k].day < today + i)
    && (forall k, m :: 0 <= k < m < |acc| ==> acc[k].day < acc[m].day)
    && (forall k :: 0 <= k < |acc| ==>
          && today <= acc[k].day < today + daysAhead
          && acc[k].slots != []
          && FindHours(hours, Weekday(acc[k].day)).Some?
          && freeBusy(acc[k].day).Some?
          && acc[k].slots == AvailableSlots(DayWindow(acc[k].day, FindHours(hours, Weekday(acc[k].day)).value),
                                            dur, now, freeBusy(acc[k].day).value))
  }

  /** The scan keeps the entry properties: at most five days, strictly
      increasing, inside the scanned range, each with its day's non-empty
      free slots. */
  lemma {:induction false} ScanDaysEntries(dur: int, hours: seq<DayHours>, daysAhead: int, today: int, now: int,
                                           freeBusy: int -> Option<seq<Interval>>, i: int, acc: seq<DaySlots>)
    requires 0 <= i
    requires ScanEntries(dur, hours, daysAhead, today, now, freeBusy, i, acc)
    requires |acc| < MaxDaysWithSlots
    ensures var r := ScanDays(dur, hours, daysAhead, today, now, freeBusy, i, acc);
      r.Ok? ==> ScanEntries(dur, hours, daysAhead, today, now, freeBusy, daysAhead, r.value)
    decreases daysAhead - i
  {
    if i < daysAhead {
      var day := today + i;
      match FindHours(hours, Weekday(day))
      case None =>
        ScanDaysEntries(dur, hours, daysAhead, today, now, freeBusy, i + 1, acc);
      case Some(h) =>
        match freeBusy(day)
        case None =>
        case Some(busy) =>
          var slots := AvailableSlots(DayWindow(day, h), dur, now, busy);
          var acc' := if |slots| > 0 then acc + [DaySlots(day, slots)] else acc;
          assert ScanEntries(dur, hours, daysAhead, today, now, freeBusy, i + 1, acc');
          if |acc'| < MaxDaysWithSlots {
            ScanDaysEntries(dur, hours, daysAhead, today, now, freeBusy, i + 1, acc');
          }
    }
  }

  /** The multi-day scan returns at most five days, in increasing order,
      within the next `daysAhead` days, each carrying that day's non-empty
      free slots. */
  lemma ForDaysResult(dur: int, hours: seq<DayHours>, daysAhead: int, today: int, now: int,
                      freeBusy: int -> Option<seq<Interval>>)
    ensures var r := ScanDays(dur, hours, daysAhead, today, now, freeBusy, 0, []);
      r.Ok? ==> ScanEntries(dur, hours, daysAhead, today, now, freeBusy, daysAhead, r.value)
  {
    ScanDaysEntries(dur, hours, daysAhead, today, now, freeBusy, 0, []);
  }

  /** A scan that gathers fewer than five days has missed none: every day in
      range with an entry and free slots is in the result. */
  lemma {:induction false} ScanDaysComplete(dur: int, hours: seq<DayHours>, daysAhead: int, today: int, now: int,
                                            freeBusy: int -> Option<seq<Interval>>, i: int, acc: seq<DaySlots>, d: int)
    requires today + i <= d < today + daysAhead
    requires FindHours(hours, Weekday(d)).Some? && freeBusy(d).Some?
    requires AvailableSlots(DayWindow(d, FindHours(hours, Weekday(d)).value), dur, now, freeBusy(d).value) != []
    requires |acc| < MaxDaysWithSlots
    ensures var r := ScanDays(dur, hours, daysAhead, today, now, freeBusy, i, acc);
      r.Ok? && |r.value| < MaxDaysWithSlots ==> exists k :: 0 <= k < |r.value| && r.value[k].day == d
    decreases daysAhead - i
  {
    var day := today + i;
    var r := ScanDays(dur, hours, daysAhead, today, now, freeBusy, i, acc);
    match FindHours(hours, Weekday(day))
    case None =>
      ScanDaysComplete(dur, hours, daysAhead, today, now, freeBusy, i + 1, acc, d);
    case Some(h) =>
      match freeBusy(day)
      case None =>
      case Some(busy) =>
        var slots := AvailableSlots(DayWindow(day, h), dur, now, busy);
        var acc' := if |slots| > 0 then acc + [DaySlots(day, slots)] else acc;
        if |acc'| < MaxDaysWithSlots {
          if d == day {
            ScanKeepsPrefix(dur, hours, daysAhead, today, now, freeBusy, i + 1, acc');
            assert acc'[|acc'| - 1].day == d;
            assert r.Ok? ==> r.value[..|acc'|] == acc';
            if r.Ok? {
              assert r.value[|acc'| - 1] == acc'[|acc'| - 1];
            }
          } else {
            ScanDaysComplete(dur, hours, daysAhead, today, now, freeBusy, i + 1, acc', d);
          }
        }
  }

  /** The scan only ever appends to what it has gathered. */
  lemma {:induction false} ScanKeepsPrefix(dur: int, hours: seq<DayHours>, daysAhead: int, today: int, now: int,
                                           freeBusy: int -> Option<seq<Interval>>, i: int, acc: seq<DaySlots>)
    ensures var r := ScanDays(dur, hours, daysAhead, today, now, freeBusy, i, acc);
      r.Ok? ==> |acc| <= |r.value| && r.value[..|acc|] == acc
    decreases daysAhead - i
  {
    if i < daysAhead {
      var day := today + i;
      match FindHours(hours, Weekday(day))
      case None =>
        ScanKeepsPrefix(dur, hours, daysAhead, today, now, freeBusy, i + 1, acc);
      case Some(h) =>
        match freeBusy(day)
        case None =>
        case Some(busy) =>
          var slots := AvailableSlots(DayWindow(day, h), dur, now, busy);
          var acc' := if |slots| > 0 then acc + [DaySlots(day, slots)] else acc;
          if |acc'| < MaxDaysWithSlots {
            ScanKeepsPrefix(dur, hours, daysAhead, today, now, freeBusy, i + 1, acc');
            var r := ScanDays(dur, hours, daysAhead, today, now, freeBusy, i + 1, acc');
            if r.Ok? {
              assert r.value[..|acc|] == r.value[..|acc'|][..|acc|];
            }
          }
    }
  }

  /** A scan over no days returns no days and queries nothing. */
  lemma NoDaysNoResults(dur: int, hours: seq<DayHours>, daysAhead: int, today: int, now: int,
                        freeBusy: int -> Option<seq<Interval>>)
    requires daysAhead <= 0
    ensures ScanDays(dur, hours, daysAhead, today, now, freeBusy, 0, []) == Ok([])
  {
  }

  // ----- calendar events -----

  /** A request the booking code sends to the calendar. */
  datatype CalendarCall =
    | CreateEvent(calendarId: string, start: int, end: int)
    | PatchEvent(calendarId: string, eventId: string, start: int, end: int)
    | DeleteEvent(calendarId: string, eventId: string)

  /** `response.data.id || null`: the id an event insertion yields; an empty
      id and a failed insertion (`None`) both yield no id. */
  function EventIdOf(response: Option<string>): (r: Option<string>)
    ensures r.Some? <==> response.Some? && response.value != ""
    ensures r.Some? ==> r.value == response.value
  {
    if response.Some? && response.value != "" then response else None
  }
}
