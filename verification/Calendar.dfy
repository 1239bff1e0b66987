/** Calendar events and the conflict check in front of creation and update. */
module Calendar {
  import opened Database

  type Instant = int

  datatype EventStatus = Scheduled | Done | CalledOff

  datatype Event = Event(assignedTo: Option<Uuid>, start: Instant, end: Option<Instant>, status: EventStatus)

  /** A field of a partial update: absent, explicitly null, or given. */
  datatype Field<+T> = Unset | Null | Given(value: T)

  datatype EventUpdate = EventUpdate(assignedTo: Field<Uuid>, start: Field<Instant>, end: Field<Instant>,
                                     status: Field<EventStatus>)

  datatype Error = NotFound | ScheduleConflict | IntegrityError

  type Events = map<Uuid, Event>

  datatype Call =
    | Create(newId: Uuid, event: Event)
    | Update(id: Uuid, data: EventUpdate)
    | Delete(id: Uuid)
    | Generate(newId: Uuid, start: Instant)

  /** The overlap test of the conflict query. */
  predicate Overlaps(e: Event, start: Instant, end: Instant) {
    e.end.Some? && e.start < end && e.end.value > start
  }

  /** The rows check_conflicts returns. */
  function Conflicts(es: Events, assignedTo: Uuid, start: Instant, end: Instant, excluded: Option<Uuid>): set<Uuid> {
    set i | i in es && es[i].assignedTo == Some(assignedTo) && es[i].status == Scheduled
            && Overlaps(es[i], start, end) && Some(i) != excluded
  }

  /** The check both endpoints make with the values they look at. */
  predicate Clashes(es: Events, assignedTo: Option<Uuid>, start: Instant, end: Option<Instant>,
                    excluded: Option<Uuid>)
  {
    assignedTo.Some? && end.Some? && Conflicts(es, assignedTo.value, start, end.value, excluded) != {}
  }

  /** `data.field or event.field` */
  function Checked<T>(f: Field<T>, stored: Option<T>): Option<T> {
    if f.Given? then Some(f.value) else stored
  }

  /** What setattr stores for a nullable column. */
  function Stored<T>(f: Field<T>, before: Option<T>): Option<T> {
    match f
    case Unset => before
    case Null => None
    case Given(v) => Some(v)
  }

  function Updated(e: Event, d: EventUpdate): Event
    requires !d.start.Null? && !d.status.Null?
  {
    Event(Stored(d.assignedTo, e.assignedTo), if d.start.Given? then d.start.value else e.start,
          Stored(d.end, e.end), if d.status.Given? then d.status.value else e.status)
  }

  /** The event an update is checked as: a field that is unset or null falls back on the stored one, and the status
      is not looked at. */
  function CheckedAs(e: Event, d: EventUpdate): Event {
    Event(Checked(d.assignedTo, e.assignedTo), if d.start.Given? then d.start.value else e.start,
          Checked(d.end, e.end), Scheduled)
  }

  function Serve(es: Events, c: Call): (Events, Outcome<Error>) {
    match c
    case Create(id, e) =>
      if Clashes(es, e.assignedTo, e.start, e.end, None) then (es, Raised(ScheduleConflict))
      else if id in es then (es, Raised(IntegrityError))
      else (es[id := e], Committed)
    case Update(id, d) =>
      if id !in es then (es, Raised(NotFound))
      else if Clashes(es, CheckedAs(es[id], d).assignedTo, CheckedAs(es[id], d).start, CheckedAs(es[id], d).end,
                      Some(id)) then
        (es, Raised(ScheduleConflict))
      else if d.start.Null? || d.status.Null? then (es, Raised(IntegrityError))
      else (es[id := Updated(es[id], d)], Committed)
    case Delete(id) =>
      if id !in es then (es, Raised(NotFound)) else (es - {id}, Committed)
    case Generate(id, start) =>
      if id in es then (es, Raised(IntegrityError)) else (es[id := Event(None, start, None, Scheduled)], Committed)
  }

  ghost function Run(es: Events, calls: seq<Call>): Events {
    if calls == [] then es else Serve(Run(es, calls[..|calls| - 1]), calls[|calls| - 1]).0
  }

  /** Of two scheduled events of the same person, both with an end, one ends before the other starts. */
  ghost predicate Apart(e: Event, f: Event) {
    e.status == Scheduled && f.status == Scheduled && e.assignedTo.Some? && e.assignedTo == f.assignedTo
    && e.end.Some? && f.end.Some? ==>
      e.end.value <= f.start || f.end.value <= e.start
  }

  ghost predicate NoDoubleBooking(es: Events) {
    forall i, j :: i in es && j in es && i != j ==> Apart(es[i], es[j])
  }

  lemma NoClashIsApart(es: Events, e: Event, excluded: Option<Uuid>, i: Uuid)
    requires !Clashes(es, e.assignedTo, e.start, e.end, excluded) && i in es && Some(i) != excluded
    ensures Apart(es[i], e)
  {
    if e.assignedTo.Some? && e.end.Some? {
      assert i !in Conflicts(es, e.assignedTo.value, e.start, e.end.value, excluded);
    }
  }

  lemma StepKeeps(es: Events, c: Call)
    requires NoDoubleBooking(es)
    ensures NoDoubleBooking(Serve(es, c).0)
  {
    var after := Serve(es, c).0;
    if Serve(es, c).1.Committed? {
      match c
      case Create(id, e) =>
        forall i | i in es ensures Apart(es[i], e) { NoClashIsApart(es, e, None, i); }
      case Update(id, d) =>
        forall i | i in es && i != id ensures Apart(es[i], after[id]) {
          NoClashIsApart(es, CheckedAs(es[id], d), Some(id), i);
        }
      case _ =>
    }
  }

  /** Over every run of creations, partial updates, deletions and generated deadlines nobody is double-booked. */
  lemma {:induction false} RunKeeps(es: Events, calls: seq<Call>)
    requires NoDoubleBooking(es)
    ensures NoDoubleBooking(Run(es, calls))
  {
    if calls != [] {
      RunKeeps(es, calls[..|calls| - 1]);
      StepKeeps(Run(es, calls[..|calls| - 1]), calls[|calls| - 1]);
    }
  }

  // Told in instants

  /** The assignee is taken up by e at this instant. */
  predicate Busy(e: Event, who: Uuid, at: Instant) {
    e.status == Scheduled && e.assignedTo == Some(who) && e.end.Some? && e.start <= at < e.end.value
  }

  /** An event that ends, ends after it starts; nothing in the program demands it. */
  predicate Proper(e: Event) { e.end.Some? ==> e.start < e.end.value }

  /** No instant lies inside two scheduled events of one assignee. */
  ghost predicate NobodyTwice(es: Events) {
    forall i, j, who: Uuid, at :: i in es && j in es && Busy(es[i], who, at) && Busy(es[j], who, at) ==> i == j
  }

  lemma ApartIffNeverBoth(e: Event, f: Event)
    requires Proper(e) && Proper(f)
    ensures Apart(e, f) <==> forall who: Uuid, at :: !(Busy(e, who, at) && Busy(f, who, at))
  {
    if !Apart(e, f) {
      var at := if e.start < f.start then f.start else e.start;
      assert Busy(e, e.assignedTo.value, at) && Busy(f, e.assignedTo.value, at);
    }
  }

  /** Being booked once means never being at two events; for events that end after they start it is the same. */
  lemma NobodyTwiceIff(es: Events)
    ensures NoDoubleBooking(es) ==> NobodyTwice(es)
    ensures (forall i :: i in es ==> Proper(es[i])) && NobodyTwice(es) ==> NoDoubleBooking(es)
  {
    if NoDoubleBooking(es) {
      assert forall i, j :: i in es && j in es && i != j ==> Apart(es[i], es[j]);
    }
    if (forall i :: i in es ==> Proper(es[i])) && NobodyTwice(es) {
      forall i, j | i in es && j in es && i != j ensures Apart(es[i], es[j]) {
        ApartIffNeverBoth(es[i], es[j]);
      }
    }
  }

  /** Whatever was called before, no instant lies inside two scheduled events of one assignee. */
  lemma RunNobodyTwice(calls: seq<Call>)
    ensures NobodyTwice(Run(map[], calls))
  {
    RunKeeps(map[], calls);
    NobodyTwiceIff(Run(map[], calls));
  }

  /** The check finds the events that share an instant with the slot. */
  lemma ConflictsShare(es: Events, who: Uuid, start: Instant, end: Instant, excluded: Option<Uuid>, i: Uuid)
    requires start < end && (i in es ==> Proper(es[i]))
    ensures i in Conflicts(es, who, start, end, excluded) <==>
              i in es && Some(i) != excluded && exists at :: start <= at < end && Busy(es[i], who, at)
  {
    if i in Conflicts(es, who, start, end, excluded) {
      var at := if es[i].start < start then start else es[i].start;
      assert start <= at < end && Busy(es[i], who, at);
    }
  }

  // What each call does

  /** A creation is refused exactly for a slot that overlaps a scheduled event of the assignee, whatever the status of
      the new event; otherwise it is stored under its key. */
  lemma CreateOutcome(es: Events, id: Uuid, e: Event)
    ensures var (after, r) := Serve(es, Create(id, e));
            var refused := exists i :: i in es && !Apart(es[i], e.(status := Scheduled));
            && (r == Raised(ScheduleConflict) <==> refused)
            && (r.Committed? <==> !refused && id !in es)
            && after == if r.Committed? then es[id := e] else es
  {
    var x := e.(status := Scheduled);
    if Clashes(es, e.assignedTo, e.start, e.end, None) {
      var i :| i in Conflicts(es, e.assignedTo.value, e.start, e.end.value, None);
      assert i in es && !Apart(es[i], x);
    } else {
      forall i | i in es ensures Apart(es[i], x) { NoClashIsApart(es, x, None, i); }
    }
  }

  /** Absent keeps the column, null empties it, a value is stored. */
  ghost predicate Sets<T(!new)>(f: Field<T>, before: Option<T>, after: Option<T>) {
    (f.Unset? ==> after == before) && (f.Null? ==> after == None) && forall v :: f == Given(v) ==> after == Some(v)
  }

  /** Only a value counts: absent and null alike fall back on the column. */
  ghost predicate LooksAt<T(!new)>(f: Field<T>, before: Option<T>, looked: Option<T>) {
    (f.Unset? || f.Null? ==> looked == before) && forall v :: f == Given(v) ==> looked == Some(v)
  }

  lemma CheckedAsIs(e: Event, d: EventUpdate)
    ensures var x := CheckedAs(e, d);
            && LooksAt(d.assignedTo, e.assignedTo, x.assignedTo) && LooksAt(d.start, Some(e.start), Some(x.start))
            && LooksAt(d.end, e.end, x.end) && x.status == Scheduled
  {
  }

  /** A committed update sets the given columns of that event, and nothing else anywhere. */
  lemma UpdateOutcome(es: Events, id: Uuid, d: EventUpdate)
    ensures var (after, r) := Serve(es, Update(id, d));
            && (r == Raised(NotFound) <==> id !in es)
            && (r.Committed? <==> id in es && !CheckClashes(es, id, d) && !d.start.Null? && !d.status.Null?)
            && (r.Raised? ==> after == es)
            && (r.Committed? ==>
                  && after.Keys == es.Keys && (forall i :: i in es && i != id ==> after[i] == es[i])
                  && Sets(d.assignedTo, es[id].assignedTo, after[id].assignedTo)
                  && Sets(d.start, Some(es[id].start), Some(after[id].start))
                  && Sets(d.end, es[id].end, after[id].end)
                  && Sets(d.status, Some(es[id].status), Some(after[id].status)))
  {
    UpdateRefusedIff(es, id, d);
  }

  lemma DeleteOutcome(es: Events, id: Uuid)
    ensures var (after, r) := Serve(es, Delete(id));
            && (r.Committed? <==> id in es)
            && (forall i :: i in after <==> i in es && i != id) && forall i :: i in after ==> after[i] == es[i]
  {
  }

  /** A new scheduled event with an assignee and an end is refused exactly when storing it would double-book. */
  lemma RefusedIffDoubleBooked(es: Events, id: Uuid, e: Event)
    requires NoDoubleBooking(es) && id !in es && e.status == Scheduled && e.assignedTo.Some? && e.end.Some?
    ensures Serve(es, Create(id, e)).1 == Raised(ScheduleConflict) <==> !NoDoubleBooking(es[id := e])
  {
    var all := es[id := e];
    if Clashes(es, e.assignedTo, e.start, e.end, None) {
      var i :| i in Conflicts(es, e.assignedTo.value, e.start, e.end.value, None);
      assert i in all && id in all && !Apart(all[i], all[id]);
    } else {
      StepKeeps(es, Create(id, e));
    }
  }

  /** An update is refused exactly when the event it is checked as would clash with another one. */
  lemma UpdateRefusedIff(es: Events, id: Uuid, d: EventUpdate)
    ensures Serve(es, Update(id, d)).1 == Raised(ScheduleConflict) <==>
              id in es && exists i :: i in es && i != id && !Apart(es[i], CheckedAs(es[id], d))
  {
    if id in es {
      var e := CheckedAs(es[id], d);
      if Clashes(es, e.assignedTo, e.start, e.end, Some(id)) {
        var i :| i in Conflicts(es, e.assignedTo.value, e.start, e.end.value, Some(id));
        assert i in es && i != id && !Apart(es[i], e);
      } else {
        forall i | i in es && i != id ensures Apart(es[i], e) { NoClashIsApart(es, e, Some(id), i); }
      }
    }
  }

  ghost predicate CheckClashes(es: Events, id: Uuid, d: EventUpdate)
    requires id in es
  {
    exists i :: i in es && i != id && !Apart(es[i], CheckedAs(es[id], d))
  }

  /** Stored, the update leaves an event the check is not about: unscheduled, or without assignee or end. */
  ghost predicate Unchecked(e: Event, d: EventUpdate)
    requires !d.start.Null? && !d.status.Null?
  {
    Updated(e, d).status != Scheduled || d.assignedTo.Null? || d.end.Null?
  }

  /** An update is refused although storing it would not double-book exactly when the event it is checked as clashes and
      the one it stores cannot. */
  lemma RefusedNeedlesslyIff(es: Events, id: Uuid, d: EventUpdate)
    requires NoDoubleBooking(es) && id in es && !d.start.Null? && !d.status.Null?
    ensures Serve(es, Update(id, d)).1 == Raised(ScheduleConflict) && NoDoubleBooking(es[id := Updated(es[id], d)])
       <==> CheckClashes(es, id, d) && Unchecked(es[id], d)
  {
    var e, all := Updated(es[id], d), es[id := Updated(es[id], d)];
    UpdateRefusedIff(es, id, d);
    if CheckClashes(es, id, d) {
      var i :| i in es && i != id && !Apart(es[i], CheckedAs(es[id], d));
      if Unchecked(es[id], d) {
        forall j, k | j in all && k in all && j != k ensures Apart(all[j], all[k]) {
          if j != id && k != id { assert Apart(es[j], es[k]); }
        }
      } else {
        assert e == CheckedAs(es[id], d);
        assert all[i] == es[i] && all[id] == e && !Apart(all[i], all[id]);
      }
    }
  }

  /** The update leaves who, from when and until when alone. */
  predicate InPlace(d: EventUpdate) { d.assignedTo.Unset? && d.start.Unset? && d.end.Unset? }

  /** A change of status alone is refused only for an event that is off the schedule while its slot is taken. */
  lemma InPlaceRefusedIff(es: Events, id: Uuid, d: EventUpdate)
    requires NoDoubleBooking(es) && id in es && InPlace(d)
    ensures Serve(es, Update(id, d)).1 == Raised(ScheduleConflict) <==>
              es[id].status != Scheduled
              && exists i :: i in es && i != id && !Apart(es[i], es[id].(status := Scheduled))
  {
    UpdateRefusedIff(es, id, d);
    assert CheckedAs(es[id], d) == es[id].(status := Scheduled);
    if es[id].status == Scheduled {
      forall i | i in es && i != id ensures Apart(es[i], CheckedAs(es[id], d)) {
        assert CheckedAs(es[id], d) == es[id];
      }
    }
  }

  /** Event 1 was called off and event 2 took its slot: marking event 1 as done is refused, and would do no harm. */
  lemma DoneIsRefusedNeedlessly()
    ensures var es: Events := map[1 := Event(Some(7), 0, Some(10), CalledOff),
                                  2 := Event(Some(7), 0, Some(10), Scheduled)];
            var d := EventUpdate(Unset, Unset, Unset, Given(Done));
            && NoDoubleBooking(es) && Serve(es, Update(1, d)).1 == Raised(ScheduleConflict)
            && NoDoubleBooking(es[1 := Updated(es[1], d)])
  {
    var es: Events := map[1 := Event(Some(7), 0, Some(10), CalledOff), 2 := Event(Some(7), 0, Some(10), Scheduled)];
    var d := EventUpdate(Unset, Unset, Unset, Given(Done));
    assert 2 in es && !Apart(es[2], CheckedAs(es[1], d));
    RefusedNeedlesslyIff(es, 1, d);
  }

  class CalendarService {
    var events: Events

    constructor ()
      ensures events == map[]
    {
      events := map[];
    }

    method CheckConflicts(assignedTo: Uuid, start: Instant, end: Option<Instant>, excluded: Option<Uuid>)
      returns (found: set<Uuid>)
      ensures found == if end.Some? then Conflicts(events, assignedTo, start, end.value, excluded) else {}
      ensures end.None? ==> found == {}
      ensures forall i :: i in found <==>
                i in events && end.Some? && Some(i) != excluded
                && !Apart(events[i], Event(Some(assignedTo), start, end, Scheduled))
    {
      if end.None? { return {}; }
      found := set i | i in events && events[i].assignedTo == Some(assignedTo) && events[i].status == Scheduled
                       && Overlaps(events[i], start, end.value) && Some(i) != excluded;
    }

    method CreateNewEvent(id: Uuid, e: Event) returns (r: Outcome<Error>)
      requires NoDoubleBooking(events)
      modifies this
      ensures (events, r) == Serve(old(events), Create(id, e)) && NoDoubleBooking(events)
    {
      StepKeeps(events, Create(id, e));
      if e.assignedTo.Some? && e.end.Some? {
        var conflicts := CheckConflicts(e.assignedTo.value, e.start, e.end, None);
        if conflicts != {} { return Raised(ScheduleConflict); }
      }
      if id in events { return Raised(IntegrityError); }
      events := events[id := e];
      return Committed;
    }

    method UpdateExistingEvent(id: Uuid, d: EventUpdate) returns (r: Outcome<Error>)
      requires NoDoubleBooking(events)
      modifies this
      ensures (events, r) == Serve(old(events), Update(id, d)) && NoDoubleBooking(events)
    {
      StepKeeps(events, Update(id, d));
      if id !in events { return Raised(NotFound); }
      var e := events[id];
      var assignee, start, end := Checked(d.assignedTo, e.assignedTo), e.start, Checked(d.end, e.end);
      if d.start.Given? { start := d.start.value; }
      if assignee.Some? && end.Some? {
        var conflicts := CheckConflicts(assignee.value, start, end, Some(id));
        if conflicts != {} { return Raised(ScheduleConflict); }
      }
      // setattr field by field; the flush refuses null in a column that must have a value.
      if d.start.Null? || d.status.Null? { return Raised(IntegrityError); }
      if !d.assignedTo.Unset? { e := e.(assignedTo := if d.assignedTo.Given? then Some(d.assignedTo.value) else None); }
      if d.start.Given? { e := e.(start := d.start.value); }
      if !d.end.Unset? { e := e.(end := if d.end.Given? then Some(d.end.value) else None); }
      if d.status.Given? { e := e.(status := d.status.value); }
      events := events[id := e];
      return Committed;
    }

    method DeleteExistingEvent(id: Uuid) returns (r: Outcome<Error>)
      requires NoDoubleBooking(events)
      modifies this
      ensures (events, r) == Serve(old(events), Delete(id)) && NoDoubleBooking(events)
    {
      if id !in events { return Raised(NotFound); }
      events := events - {id};
      return Committed;
    }
  }
}
