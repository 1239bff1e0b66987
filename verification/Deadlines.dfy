/** Trigger events and the deadlines generated from them: the regeneration protocol over five tables. */
module Deadlines {
  import opened Database
  import opened BusinessDays

  datatype RuleSet = RuleSet(isActive: bool)

  datatype DeadlineRule = DeadlineRule(ruleSetId: Uuid, name: string, triggerEvent: string, offsetDays: int,
                                       offsetType: OffsetType, createsEventType: string, isActive: bool,
                                       sortOrder: int)

  /** A rule set linked to a matter. */
  datatype Config = Config(matterId: Uuid, ruleSetId: Uuid)

  datatype TriggerEvent = TriggerEvent(matterId: Uuid, triggerName: string, triggerDate: Date, notes: Option<string>)

  datatype EventType = CourtDate | DeadlineEvent | Filing | Meeting | Reminder

  datatype CalendarEvent = CalendarEvent(matterId: Option<Uuid>, title: string, description: string,
                                         eventType: EventType, start: Date, allDay: bool)

  /** The texts of generated events: the title for a rule's name, the description for a rule's name with the trigger's
      name and date, and the event type a name stands for, if any. */
  datatype Texts = Texts(titleFor: string -> string, descriptionFor: (string, string, Date) -> string,
                         eventTypeNamed: string -> Option<EventType>)

  datatype GeneratedDeadline = GeneratedDeadline(calendarEventId: Uuid, triggerEventId: Uuid, deadlineRuleId: Uuid,
                                                 matterId: Uuid, computedDate: Date)

  datatype Store = Store(ruleSets: map<Uuid, RuleSet>, rules: map<Uuid, DeadlineRule>, configs: map<Uuid, Config>,
                         triggers: map<Uuid, TriggerEvent>, generated: map<Uuid, GeneratedDeadline>,
                         events: map<Uuid, CalendarEvent>)

  datatype Error = TriggerNotFound | RuleNotFound | IntegrityError

  // What a trigger should have generated

  /** Rule and link row meet in the joined SELECT of _get_rules_for_trigger. */
  predicate Joins(s: Store, matterId: Uuid, triggerName: string, configId: Uuid, ruleId: Uuid) {
    configId in s.configs && s.configs[configId].matterId == matterId
    && ruleId in s.rules && s.rules[ruleId].isActive && s.rules[ruleId].triggerEvent == triggerName
    && s.rules[ruleId].ruleSetId == s.configs[configId].ruleSetId
    && s.rules[ruleId].ruleSetId in s.ruleSets && s.ruleSets[s.rules[ruleId].ruleSetId].isActive
  }

  /** The rule applies to triggers of this name in this matter. */
  ghost predicate Matches(s: Store, matterId: Uuid, triggerName: string, ruleId: Uuid) {
    exists c: Uuid :: Joins(s, matterId, triggerName, c, ruleId)
  }

  function DueDate(rule: DeadlineRule, t: TriggerEvent): Date {
    Deadline(t.triggerDate, rule.offsetDays, rule.offsetType)
  }

  /** A name that is no event type stands for a deadline. */
  function EventTypeOf(rule: DeadlineRule, texts: Texts): EventType {
    var named := texts.eventTypeNamed(rule.createsEventType);
    if named.Some? then named.value else DeadlineEvent
  }

  /** The all-day event for a rule. */
  function EventFor(rule: DeadlineRule, t: TriggerEvent, texts: Texts): CalendarEvent {
    CalendarEvent(Some(t.matterId), texts.titleFor(rule.name),
                  texts.descriptionFor(rule.name, t.triggerName, t.triggerDate), EventTypeOf(rule, texts),
                  DueDate(rule, t), true)
  }

  /** Row g is the deadline of its rule for trigger id, with its own event. */
  ghost predicate IsDeadlineOf(s: Store, id: Uuid, texts: Texts, g: Uuid)
    requires g in s.generated
  {
    var row := s.generated[g];
    row.triggerEventId == id && id in s.triggers && row.deadlineRuleId in s.rules
    && row.matterId == s.triggers[id].matterId
    && row.computedDate == DueDate(s.rules[row.deadlineRuleId], s.triggers[id])
    && row.calendarEventId in s.events
    && s.events[row.calendarEventId] == EventFor(s.rules[row.deadlineRuleId], s.triggers[id], texts)
  }

  /** Nothing of base is lost, and only deadlines and events are added. */
  ghost predicate Extends(base: Store, s: Store) {
    s == base.(generated := s.generated, events := s.events)
    && (forall g :: g in base.generated ==> g in s.generated && s.generated[g] == base.generated[g])
    && (forall e :: e in base.events ==> e in s.events && s.events[e] == base.events[e])
  }

  /** Every added row is the deadline of a rule of `due`, with a fresh event. */
  ghost predicate AddedAreDue(base: Store, s: Store, id: Uuid, texts: Texts, due: set<Uuid>) {
    forall g :: g in s.generated && g !in base.generated ==>
                  IsDeadlineOf(s, id, texts, g) && s.generated[g].deadlineRuleId in due
                  && s.generated[g].calendarEventId !in base.events
  }

  /** Added rows share neither rule nor event. */
  ghost predicate AddedAreDistinct(base: Store, s: Store) {
    forall g, h :: g in s.generated && h in s.generated && g !in base.generated && h !in base.generated && g != h ==>
                     s.generated[g].deadlineRuleId != s.generated[h].deadlineRuleId
                     && s.generated[g].calendarEventId != s.generated[h].calendarEventId
  }

  /** Every rule of `due` has its row, and every added event its row. */
  ghost predicate AddedAreAll(base: Store, s: Store, due: set<Uuid>) {
    (forall r :: r in due ==> HasDeadline(base, s, r))
    && (forall e :: e in s.events && e !in base.events ==> HasRow(base, s, e))
  }

  /** Beyond base, s holds exactly one deadline with a fresh event for each rule of `due`, and nothing else. */
  ghost predicate GeneratedBeyond(base: Store, s: Store, id: Uuid, texts: Texts, due: set<Uuid>) {
    Extends(base, s) && AddedAreDue(base, s, id, texts, due) && AddedAreDistinct(base, s) && AddedAreAll(base, s, due)
  }

  ghost predicate HasDeadline(base: Store, s: Store, ruleId: Uuid) {
    exists g :: g in s.generated && g !in base.generated && s.generated[g].deadlineRuleId == ruleId
  }

  ghost predicate HasRow(base: Store, s: Store, eventId: Uuid) {
    exists g :: g in s.generated && g !in base.generated && s.generated[g].calendarEventId == eventId
  }

  /** The state without what trigger id had generated. */
  ghost function Cleared(s: Store, id: Uuid): Store {
    s.(generated := map g | g in s.generated && s.generated[g].triggerEventId != id :: s.generated[g],
       events := s.events - OwnEvents(s, id))
  }

  ghost function OwnEvents(s: Store, id: Uuid): set<Uuid> {
    set g | g in s.generated && s.generated[g].triggerEventId == id :: s.generated[g].calendarEventId
  }

  ghost function DueRules(s: Store, id: Uuid): set<Uuid>
    requires id in s.triggers
  {
    set r | r in s.rules && Matches(s, s.triggers[id].matterId, s.triggers[id].triggerName, r)
  }

  /** The outcome of regenerating trigger id, whose row is now t. */
  ghost predicate Regenerated(before: Store, after: Store, id: Uuid, t: TriggerEvent, texts: Texts) {
    var base := Cleared(before, id).(triggers := before.triggers[id := t]);
    GeneratedBeyond(base, after, id, texts, DueRules(base, id))
  }

  // Invariant

  predicate SameSlot(t: TriggerEvent, u: TriggerEvent) {
    t.matterId == u.matterId && t.triggerName == u.triggerName
  }

  /** Rows resolve, no two deadlines share an event, one trigger for each matter and name, no duplicate links. */
  ghost predicate Consistent(s: Store) {
    (forall g :: g in s.generated ==>
       s.generated[g].triggerEventId in s.triggers && s.generated[g].calendarEventId in s.events)
    && (forall g, h :: g in s.generated && h in s.generated && g != h ==>
          s.generated[g].calendarEventId != s.generated[h].calendarEventId)
    && (forall i, j :: i in s.triggers && j in s.triggers && SameSlot(s.triggers[i], s.triggers[j]) ==> i == j)
    && UniqueLinks(s)
  }

  /** No rule set is linked twice to a matter; no constraint of the table says so. */
  ghost predicate UniqueLinks(s: Store) {
    forall i, j :: i in s.configs && j in s.configs && s.configs[i] == s.configs[j] ==> i == j
  }

  // The join, and when it repeats a rule

  /** joined lists the matching pairs of link row and rule, each once, by the rule's sort order. */
  ghost predicate IsJoin(s: Store, matterId: Uuid, triggerName: string, joined: seq<(Uuid, Uuid)>) {
    Distinct(joined) && (forall p :: p in joined <==> Joins(s, matterId, triggerName, p.0, p.1))
    && forall i, j :: 0 <= i < j < |joined| ==> s.rules[joined[i].1].sortOrder <= s.rules[joined[j].1].sortOrder
  }

  ghost predicate IsColumn(joined: seq<(Uuid, Uuid)>, rows: seq<Uuid>) {
    |rows| == |joined| && forall i :: 0 <= i < |rows| ==> rows[i] == joined[i].1
  }

  lemma ColumnMatches(s: Store, matterId: Uuid, triggerName: string, joined: seq<(Uuid, Uuid)>, rows: seq<Uuid>,
                      r: Uuid)
    requires IsJoin(s, matterId, triggerName, joined) && IsColumn(joined, rows)
    ensures r in rows <==> Matches(s, matterId, triggerName, r)
  {
    if r in rows {
      var i :| 0 <= i < |rows| && rows[i] == r;
      assert joined[i] in joined;
    }
    if c: Uuid :| Joins(s, matterId, triggerName, c, r) {
      assert (c, r) in joined;
      var i :| 0 <= i < |joined| && joined[i] == (c, r);
      assert rows[i] == r;
    }
  }

  /** The query has no DISTINCT: a rule comes once exactly when no two matching link rows lead to it. */
  lemma RowsDistinctIff(s: Store, matterId: Uuid, triggerName: string, joined: seq<(Uuid, Uuid)>, rows: seq<Uuid>)
    requires IsJoin(s, matterId, triggerName, joined) && IsColumn(joined, rows)
    ensures Distinct(rows) <==>
              forall c: Uuid, d: Uuid, r: Uuid ::
                  Joins(s, matterId, triggerName, c, r) && Joins(s, matterId, triggerName, d, r) ==> c == d
  {
    if Distinct(rows) {
      forall c: Uuid, d: Uuid, r: Uuid | Joins(s, matterId, triggerName, c, r) && Joins(s, matterId, triggerName, d, r)
        ensures c == d
      {
        assert (c, r) in joined && (d, r) in joined;
        var i :| 0 <= i < |joined| && joined[i] == (c, r);
        var j :| 0 <= j < |joined| && joined[j] == (d, r);
        assert rows[i] == rows[j];
      }
    } else {
      var i, j :| 0 <= i < j < |rows| && rows[i] == rows[j];
      assert joined[i] in joined && joined[j] in joined && joined[i] != joined[j];
      assert Joins(s, matterId, triggerName, joined[i].0, rows[i])
          && Joins(s, matterId, triggerName, joined[j].0, rows[i]);
    }
  }

  lemma UniqueLinksDistinctRows(s: Store, matterId: Uuid, triggerName: string, joined: seq<(Uuid, Uuid)>,
                                rows: seq<Uuid>)
    requires UniqueLinks(s) && IsJoin(s, matterId, triggerName, joined) && IsColumn(joined, rows)
    ensures Distinct(rows)
  {
    RowsDistinctIff(s, matterId, triggerName, joined, rows);
  }

  lemma ClearedConsistent(s: Store, id: Uuid)
    requires Consistent(s)
    ensures Consistent(Cleared(s, id))
  {
    var c := Cleared(s, id);
    forall g | g in c.generated ensures c.generated[g].calendarEventId !in OwnEvents(s, id) {
      assert s.generated[g].triggerEventId != id;
    }
  }

  lemma BeyondConsistent(base: Store, s: Store, id: Uuid, texts: Texts, due: set<Uuid>)
    requires Consistent(base) && GeneratedBeyond(base, s, id, texts, due)
    ensures Consistent(s)
  {
  }

  /** Setting or updating a trigger keeps the tables consistent. */
  lemma RegenerationConsistent(before: Store, after: Store, id: Uuid, t: TriggerEvent, texts: Texts)
    requires Consistent(before) && Regenerated(before, after, id, t, texts)
    requires forall i :: i in before.triggers && SameSlot(before.triggers[i], t) ==> i == id
    ensures Consistent(after)
  {
    var base := Cleared(before, id).(triggers := before.triggers[id := t]);
    BaseConsistent(before, id, t);
    BeyondConsistent(base, after, id, texts, DueRules(base, id));
  }

  lemma BaseConsistent(before: Store, id: Uuid, t: TriggerEvent)
    requires Consistent(before) && forall i :: i in before.triggers && SameSlot(before.triggers[i], t) ==> i == id
    ensures Consistent(Cleared(before, id).(triggers := before.triggers[id := t]))
  {
    ClearedConsistent(before, id);
  }

  // What regeneration means for readers of the tables

  ghost predicate Shown(s: Store, id: Uuid, g: Uuid) {
    g in s.generated && s.generated[g].triggerEventId == id && s.generated[g].calendarEventId in s.events
  }

  ghost function ContentOf(s: Store, g: Uuid): (Uuid, Date, CalendarEvent)
    requires g in s.generated && s.generated[g].calendarEventId in s.events
  {
    (s.generated[g].deadlineRuleId, s.generated[g].computedDate, s.events[s.generated[g].calendarEventId])
  }

  /** The deadlines of trigger id without their keys: rule, date and event. */
  ghost function Contents(s: Store, id: Uuid): set<(Uuid, Date, CalendarEvent)> {
    set g | g in s.generated && Shown(s, id, g) :: ContentOf(s, g)
  }

  ghost function ExpectedOf(s: Store, id: Uuid, texts: Texts, r: Uuid): (Uuid, Date, CalendarEvent)
    requires id in s.triggers && r in s.rules
  {
    (r, DueDate(s.rules[r], s.triggers[id]), EventFor(s.rules[r], s.triggers[id], texts))
  }

  ghost function Expected(s: Store, id: Uuid, texts: Texts): set<(Uuid, Date, CalendarEvent)>
    requires id in s.triggers
  {
    set r | r in DueRules(s, id) :: ExpectedOf(s, id, texts, r)
  }

  /** An active rule for this trigger name, of an active rule set that is linked to the matter. */
  ghost predicate Applies(s: Store, matterId: Uuid, triggerName: string, r: Uuid) {
    r in s.rules && s.rules[r].isActive && s.rules[r].triggerEvent == triggerName
    && s.rules[r].ruleSetId in s.ruleSets && s.ruleSets[s.rules[r].ruleSetId].isActive
    && exists c :: c in s.configs && s.configs[c] == Config(matterId, s.rules[r].ruleSetId)
  }

  lemma MatchesIffApplies(s: Store, matterId: Uuid, triggerName: string, r: Uuid)
    ensures Matches(s, matterId, triggerName, r) <==> Applies(s, matterId, triggerName, r)
  {
    if Matches(s, matterId, triggerName, r) {
      var c: Uuid :| Joins(s, matterId, triggerName, c, r);
      assert c in s.configs && s.configs[c] == Config(matterId, s.rules[r].ruleSetId);
    }
    if Applies(s, matterId, triggerName, r) {
      var c :| c in s.configs && s.configs[c] == Config(matterId, s.rules[r].ruleSetId);
      assert Joins(s, matterId, triggerName, c, r);
    }
  }

  /** The all-day event of a rule on its date, with the texts for both; an unknown type name makes it a deadline. */
  ghost predicate Announces(e: CalendarEvent, rule: DeadlineRule, t: TriggerEvent, date: Date, texts: Texts) {
    e.start == date && e.allDay && e.matterId == Some(t.matterId) && e.title == texts.titleFor(rule.name)
    && e.description == texts.descriptionFor(rule.name, t.triggerName, t.triggerDate)
    && match texts.eventTypeNamed(rule.createsEventType)
       case Some(eventType) => e.eventType == eventType
       case None => e.eventType == DeadlineEvent
  }

  /** Rule, date and event of a deadline that trigger t is to have. */
  ghost predicate IsDue(s: Store, t: TriggerEvent, texts: Texts, x: (Uuid, Date, CalendarEvent)) {
    Applies(s, t.matterId, t.triggerName, x.0)
    && Falls(t.triggerDate, s.rules[x.0].offsetDays, s.rules[x.0].offsetType, x.1)
    && Announces(x.2, s.rules[x.0], t, x.1, texts)
  }

  lemma ExpectedAreDue(s: Store, id: Uuid, texts: Texts, x: (Uuid, Date, CalendarEvent))
    requires id in s.triggers
    ensures x in Expected(s, id, texts) <==> IsDue(s, s.triggers[id], texts, x)
  {
    var t := s.triggers[id];
    MatchesIffApplies(s, t.matterId, t.triggerName, x.0);
    if x.0 in s.rules {
      DeadlineIff(t.triggerDate, s.rules[x.0].offsetDays, s.rules[x.0].offsetType, x.1);
    }
    if IsDue(s, t, texts, x) {
      assert x.0 in DueRules(s, id) && x == ExpectedOf(s, id, texts, x.0);
    }
  }

  lemma SameDueRules(s1: Store, s2: Store, id: Uuid)
    requires id in s1.triggers && id in s2.triggers && s2.triggers[id] == s1.triggers[id]
    requires s2.ruleSets == s1.ruleSets && s2.rules == s1.rules && s2.configs == s1.configs
    ensures DueRules(s2, id) == DueRules(s1, id)
  {
    var t := s1.triggers[id];
    assert forall c, r :: Joins(s2, t.matterId, t.triggerName, c, r) <==> Joins(s1, t.matterId, t.triggerName, c, r);
    forall r ensures Matches(s2, t.matterId, t.triggerName, r) <==> Matches(s1, t.matterId, t.triggerName, r) {
      if c: Uuid :| Joins(s1, t.matterId, t.triggerName, c, r) { assert Joins(s2, t.matterId, t.triggerName, c, r); }
      if c: Uuid :| Joins(s2, t.matterId, t.triggerName, c, r) { assert Joins(s1, t.matterId, t.triggerName, c, r); }
    }
  }

  lemma BeyondContents(base: Store, s: Store, id: Uuid, texts: Texts, due: set<Uuid>)
    requires GeneratedBeyond(base, s, id, texts, due) && id in s.triggers && due <= s.rules.Keys
    requires forall g :: g in base.generated ==> base.generated[g].triggerEventId != id
    ensures Contents(s, id) == set r | r in due :: ExpectedOf(s, id, texts, r)
  {
    forall r | r in due ensures ExpectedOf(s, id, texts, r) in Contents(s, id) {
      assert HasDeadline(base, s, r);
      var g :| g in s.generated && g !in base.generated && s.generated[g].deadlineRuleId == r;
      assert IsDeadlineOf(s, id, texts, g);
      assert Shown(s, id, g) && ContentOf(s, g) == ExpectedOf(s, id, texts, r);
    }
    forall g | Shown(s, id, g) ensures s.generated[g].deadlineRuleId in due
                                       && ContentOf(s, g) == ExpectedOf(s, id, texts, s.generated[g].deadlineRuleId) {
      assert g !in base.generated;
      assert IsDeadlineOf(s, id, texts, g);
    }
  }

  /** Afterwards the trigger's deadlines are exactly one for each matching rule, with the computed date and event. */
  lemma RegeneratedContents(before: Store, after: Store, id: Uuid, t: TriggerEvent, texts: Texts)
    requires Regenerated(before, after, id, t, texts)
    ensures id in after.triggers && after.triggers[id] == t && Contents(after, id) == Expected(after, id, texts)
    ensures forall x :: x in Contents(after, id) <==> IsDue(after, t, texts, x)
  {
    var base := Cleared(before, id).(triggers := before.triggers[id := t]);
    SameDueRules(base, after, id);
    BeyondContents(base, after, id, texts, DueRules(base, id));
    forall x ensures x in Expected(after, id, texts) <==> IsDue(after, t, texts, x) {
      ExpectedAreDue(after, id, texts, x);
    }
  }

  /** Every row of the trigger resolves to its event, and the two hold the date and the event of its rule. */
  lemma RegeneratedRow(before: Store, after: Store, id: Uuid, t: TriggerEvent, texts: Texts, g: Uuid)
    requires Regenerated(before, after, id, t, texts)
    requires g in after.generated && after.generated[g].triggerEventId == id
    ensures var row := after.generated[g];
            && row.matterId == t.matterId && Applies(before, t.matterId, t.triggerName, row.deadlineRuleId)
            && Falls(t.triggerDate, before.rules[row.deadlineRuleId].offsetDays,
                     before.rules[row.deadlineRuleId].offsetType, row.computedDate)
            && row.calendarEventId in after.events
            && Announces(after.events[row.calendarEventId], before.rules[row.deadlineRuleId], t, row.computedDate,
                         texts)
  {
    var row := after.generated[g];
    assert g !in Cleared(before, id).generated;
    assert IsDeadlineOf(after, id, texts, g);
    var rule := after.rules[row.deadlineRuleId];
    DeadlineFalls(t.triggerDate, rule.offsetDays, rule.offsetType);
    var base := Cleared(before, id).(triggers := before.triggers[id := t]);
    MatchesIffApplies(base, t.matterId, t.triggerName, row.deadlineRuleId);
  }

  /** And every rule that applies has a row. */
  lemma RegeneratedRules(before: Store, after: Store, id: Uuid, t: TriggerEvent, texts: Texts, r: Uuid)
    requires Regenerated(before, after, id, t, texts) && Applies(before, t.matterId, t.triggerName, r)
    ensures exists g :: g in after.generated && after.generated[g].triggerEventId == id
                        && after.generated[g].deadlineRuleId == r
  {
    var base := Cleared(before, id).(triggers := before.triggers[id := t]);
    assert Applies(base, t.matterId, t.triggerName, r);
    MatchesIffApplies(base, t.matterId, t.triggerName, r);
    assert HasDeadline(base, after, r);
    var g :| g in after.generated && g !in base.generated && after.generated[g].deadlineRuleId == r;
    assert IsDeadlineOf(after, id, texts, g);
  }

  /** No rule has two deadlines for the trigger. */
  lemma OneDeadlinePerRule(before: Store, after: Store, id: Uuid, t: TriggerEvent, texts: Texts, g: Uuid, h: Uuid)
    requires Regenerated(before, after, id, t, texts)
    requires g in after.generated && h in after.generated && g != h
    requires after.generated[g].triggerEventId == id && after.generated[h].triggerEventId == id
    ensures after.generated[g].deadlineRuleId != after.generated[h].deadlineRuleId
    ensures after.generated[g].calendarEventId != after.generated[h].calendarEventId
  {
    assert g !in Cleared(before, id).generated && h !in Cleared(before, id).generated;
  }

  ghost predicate OwnsEvent(s: Store, id: Uuid, e: Uuid) {
    exists g :: g in s.generated && s.generated[g].triggerEventId == id && s.generated[g].calendarEventId == e
  }

  /** Other triggers, their rows and other events are untouched. */
  lemma RegeneratedElsewhere(before: Store, after: Store, id: Uuid, t: TriggerEvent, texts: Texts)
    requires Consistent(before) && Regenerated(before, after, id, t, texts)
    ensures forall i :: i != id ==> (i in after.triggers <==> i in before.triggers)
                                    && (i in before.triggers ==> after.triggers[i] == before.triggers[i])
    ensures forall g :: g in before.generated && before.generated[g].triggerEventId != id ==>
                          g in after.generated && after.generated[g] == before.generated[g]
    ensures forall g :: g in after.generated && after.generated[g].triggerEventId != id ==> g in before.generated
    ensures forall e :: e in before.events && !OwnsEvent(before, id, e) ==>
                          e in after.events && after.events[e] == before.events[e]
    ensures after.rules == before.rules && after.ruleSets == before.ruleSets && after.configs == before.configs
  {
  }

  /** Nothing of the trigger's past remains: an event afterwards is either an earlier one that was not the trigger's,
      or one of its new deadlines', and never both. */
  lemma RegeneratedNothingElse(before: Store, after: Store, id: Uuid, t: TriggerEvent, texts: Texts, e: Uuid)
    requires Consistent(before) && Regenerated(before, after, id, t, texts)
    ensures e in after.events <==> (e in before.events && !OwnsEvent(before, id, e)) || OwnsEvent(after, id, e)
    ensures !(e in before.events && !OwnsEvent(before, id, e) && OwnsEvent(after, id, e))
  {
    var base := Cleared(before, id).(triggers := before.triggers[id := t]);
    forall g | g in after.generated && after.generated[g].triggerEventId == id
      ensures IsDeadlineOf(after, id, texts, g) && after.generated[g].calendarEventId !in base.events
    {
      assert g !in base.generated;
    }
    if e in after.events && e !in base.events {
      assert HasRow(base, after, e);
      var g :| g in after.generated && g !in base.generated && after.generated[g].calendarEventId == e;
      assert IsDeadlineOf(after, id, texts, g);
    }
  }

  /** A deleted trigger takes its rows and their events along, and nothing else. */
  lemma TriggerDeletedOutcome(before: Store, id: Uuid)
    ensures var after := Cleared(before, id).(triggers := before.triggers - {id});
            && after.rules == before.rules && after.ruleSets == before.ruleSets && after.configs == before.configs
            && (forall i :: i in after.triggers <==> i in before.triggers && i != id)
            && (forall i :: i in after.triggers ==> after.triggers[i] == before.triggers[i])
            && (forall g :: g in after.generated <==> g in before.generated && before.generated[g].triggerEventId != id)
            && (forall g :: g in after.generated ==> after.generated[g] == before.generated[g])
            && (forall e :: e in after.events <==> e in before.events && !OwnsEvent(before, id, e))
            && forall e :: e in after.events ==> after.events[e] == before.events[e]
  {
  }

  /** A deleted rule takes its rows along, and no event. */
  lemma RuleDeletedOutcome(before: Store, r: Uuid)
    ensures var after := RuleDeleted(before, r);
            && after == before.(rules := after.rules, generated := after.generated)
            && (forall i :: i in after.rules <==> i in before.rules && i != r)
            && (forall i :: i in after.rules ==> after.rules[i] == before.rules[i])
            && (forall g :: g in after.generated <==> g in before.generated && before.generated[g].deadlineRuleId != r)
            && forall g :: g in after.generated ==> after.generated[g] == before.generated[g]
  {
  }

  /** A deleted event takes its row along, and the trigger and the rule stay. */
  lemma EventDeletedOutcome(before: Store, e: Uuid)
    ensures var after := EventDeleted(before, e);
            && after == before.(events := after.events, generated := after.generated)
            && (forall i :: i in after.events <==> i in before.events && i != e)
            && (forall i :: i in after.events ==> after.events[i] == before.events[i])
            && (forall g :: g in after.generated <==> g in before.generated && before.generated[g].calendarEventId != e)
            && forall g :: g in after.generated ==> after.generated[g] == before.generated[g]
  {
  }

  lemma RepeatingKeepsOwn(s0: Store, s1: Store, s2: Store, id: Uuid, t: TriggerEvent, texts: Texts)
    requires Regenerated(s0, s1, id, t, texts) && Regenerated(s1, s2, id, t, texts)
    ensures Contents(s2, id) == Contents(s1, id)
  {
    RegeneratedContents(s0, s1, id, t, texts);
    RegeneratedContents(s1, s2, id, t, texts);
    SameExpected(s1, s2, id, texts);
  }

  lemma SameExpected(s1: Store, s2: Store, id: Uuid, texts: Texts)
    requires id in s1.triggers && s2 == s1.(triggers := s2.triggers, generated := s2.generated, events := s2.events)
    requires id in s2.triggers && s2.triggers[id] == s1.triggers[id]
    ensures Expected(s2, id, texts) == Expected(s1, id, texts)
  {
    SameDueRules(s1, s2, id);
    assert forall r :: r in DueRules(s1, id) ==> ExpectedOf(s2, id, texts, r) == ExpectedOf(s1, id, texts, r);
  }

  /** Setting the same trigger again changes nothing but keys. */
  lemma RepeatingChangesOnlyIds(s0: Store, s1: Store, s2: Store, id: Uuid, t: TriggerEvent, texts: Texts)
    requires Consistent(s1)
    requires Regenerated(s0, s1, id, t, texts) && Regenerated(s1, s2, id, t, texts)
    ensures Contents(s2, id) == Contents(s1, id)
    ensures s2.triggers == s1.triggers && s2.rules == s1.rules && s2.ruleSets == s1.ruleSets && s2.configs == s1.configs
    ensures forall i :: i != id ==> Contents(s2, i) == Contents(s1, i)
  {
    RepeatingKeepsOwn(s0, s1, s2, id, t, texts);
    forall i | i != id ensures Contents(s2, i) == Contents(s1, i) {
      OtherContents(s1, s2, id, t, texts, i);
    }
  }

  lemma OtherContents(before: Store, after: Store, id: Uuid, t: TriggerEvent, texts: Texts, i: Uuid)
    requires Consistent(before) && Regenerated(before, after, id, t, texts) && i != id
    ensures Contents(after, i) == Contents(before, i)
  {
    var base := Cleared(before, id).(triggers := before.triggers[id := t]);
    ClearedConsistent(before, id);
    ClearedContents(before, base, id, i);
    BeyondOtherContents(base, after, id, texts, DueRules(base, id), i);
  }

  lemma ClearedContents(s: Store, base: Store, id: Uuid, i: Uuid)
    requires Consistent(s) && i != id
    requires base.generated == Cleared(s, id).generated && base.events == Cleared(s, id).events
    ensures Contents(base, i) == Contents(s, i)
  {
    forall g ensures Shown(base, i, g) <==> Shown(s, i, g) {
      if Shown(s, i, g) { assert s.generated[g].calendarEventId !in OwnEvents(s, id); }
    }
    assert forall g :: Shown(base, i, g) ==> ContentOf(base, g) == ContentOf(s, g);
  }

  lemma BeyondOtherContents(base: Store, s: Store, id: Uuid, texts: Texts, due: set<Uuid>, i: Uuid)
    requires GeneratedBeyond(base, s, id, texts, due) && i != id
    requires forall g :: g in base.generated ==> base.generated[g].calendarEventId in base.events
    ensures Contents(s, i) == Contents(base, i)
  {
    forall g | g in s.generated && g !in base.generated ensures s.generated[g].triggerEventId == id {
      assert IsDeadlineOf(s, id, texts, g);
    }
    assert forall g :: Shown(base, i, g) <==> Shown(s, i, g);
    assert forall g :: Shown(base, i, g) ==> ContentOf(base, g) == ContentOf(s, g);
  }

  /** A calendar event is deleted: its deadline row goes with it. */
  ghost function EventDeleted(s: Store, eventId: Uuid): Store {
    s.(events := s.events - {eventId},
       generated := map g | g in s.generated && s.generated[g].calendarEventId != eventId :: s.generated[g])
  }

  lemma EventDeletedConsistent(s: Store, eventId: Uuid)
    requires Consistent(s)
    ensures Consistent(EventDeleted(s, eventId))
  {
  }

  /** The keys a request draws for rows and events are new. */
  ghost predicate FreshRows(s: Store, uuid4: nat -> Uuid) {
    (forall i :: uuid4(i) !in s.generated && uuid4(i) !in s.events)
    && forall i, j :: uuid4(i) == uuid4(j) ==> i == j
  }

  ghost predicate FreshDraws(s: Store, uuid4: nat -> Uuid) {
    uuid4(0) !in s.triggers && FreshRows(s, uuid4)
  }

  ghost function FirstOf(rows: seq<Uuid>, k: nat): set<Uuid>
    requires k <= |rows|
  {
    set r | r in rows[..k]
  }

  lemma FirstOfNext(rows: seq<Uuid>, k: nat)
    requires k < |rows| && Distinct(rows)
    ensures rows[k] in rows && rows[k] !in FirstOf(rows, k) && FirstOf(rows, k + 1) == FirstOf(rows, k) + {rows[k]}
  {
  }

  lemma AllOf(rows: seq<Uuid>, all: set<Uuid>)
    requires forall r :: r in rows <==> r in all
    ensures FirstOf(rows, |rows|) == all
  {
    assert rows[..|rows|] == rows;
  }

  lemma BeyondNothing(base: Store, id: Uuid, texts: Texts)
    ensures GeneratedBeyond(base, base, id, texts, {})
  {
  }

  /** One turn of the generation loop. */
  ghost function Added(s: Store, id: Uuid, texts: Texts, r: Uuid, e: Uuid, g: Uuid): Store
    requires id in s.triggers && r in s.rules
  {
    var t := s.triggers[id];
    s.(events := s.events[e := EventFor(s.rules[r], t, texts)],
       generated := s.generated[g := GeneratedDeadline(e, id, r, t.matterId, DueDate(s.rules[r], t))])
  }

  /** The first k turns of the loop drew the keys 1 to 2k. */
  ghost predicate DrawnBefore(uuid4: nat -> Uuid, k: nat, x: Uuid) {
    exists j :: 0 <= j <= 2 * k && x == uuid4(j)
  }

  /** Keys beyond base were drawn in the first k turns. */
  ghost predicate OnlyDrawn(base: Store, s: Store, uuid4: nat -> Uuid, k: nat) {
    (forall e :: e in s.events && e !in base.events ==> DrawnBefore(uuid4, k, e))
    && (forall g :: g in s.generated && g !in base.generated ==> DrawnBefore(uuid4, k, g))
  }

  lemma NextDrawIsFree(base: Store, s: Store, uuid4: nat -> Uuid, k: nat)
    requires FreshRows(base, uuid4) && OnlyDrawn(base, s, uuid4, k)
    ensures uuid4(2 * k + 1) !in s.events && uuid4(2 * k + 2) !in s.generated
  {
  }

  lemma DrawnBeforeGrows(uuid4: nat -> Uuid, k: nat, x: Uuid)
    requires DrawnBefore(uuid4, k, x)
    ensures DrawnBefore(uuid4, k + 1, x)
  {
    var j :| 0 <= j <= 2 * k && x == uuid4(j);
    assert j <= 2 * (k + 1);
  }

  lemma DrawOnce(base: Store, s: Store, uuid4: nat -> Uuid, k: nat, id: Uuid, texts: Texts, r: Uuid)
    requires OnlyDrawn(base, s, uuid4, k) && id in s.triggers && r in s.rules
    ensures OnlyDrawn(base, Added(s, id, texts, r, uuid4(2 * k + 1), uuid4(2 * k + 2)), uuid4, k + 1)
  {
    forall x | DrawnBefore(uuid4, k, x) ensures DrawnBefore(uuid4, k + 1, x) { DrawnBeforeGrows(uuid4, k, x); }
    assert DrawnBefore(uuid4, k + 1, uuid4(2 * k + 1)) && DrawnBefore(uuid4, k + 1, uuid4(2 * k + 2));
  }

  lemma AddDeadline(base: Store, s: Store, id: Uuid, texts: Texts, done: set<Uuid>, r: Uuid, e: Uuid, g: Uuid)
    requires GeneratedBeyond(base, s, id, texts, done) && id in s.triggers && r in s.rules && r !in done
    requires e !in s.events && g !in s.generated
    ensures GeneratedBeyond(base, Added(s, id, texts, r, e, g), id, texts, done + {r})
  {
    AddDeadlineDue(base, s, id, texts, done, r, e, g);
    AddDeadlineDistinct(base, s, id, texts, done, r, e, g);
    AddDeadlineAll(base, s, id, texts, done, r, e, g);
  }

  lemma AddDeadlineDue(base: Store, s: Store, id: Uuid, texts: Texts, done: set<Uuid>, r: Uuid, e: Uuid, g: Uuid)
    requires Extends(base, s) && AddedAreDue(base, s, id, texts, done) && id in s.triggers && r in s.rules
    requires e !in s.events && g !in s.generated
    ensures AddedAreDue(base, Added(s, id, texts, r, e, g), id, texts, done + {r})
  {
    var after := Added(s, id, texts, r, e, g);
    forall x | x in after.generated && x !in base.generated ensures IsDeadlineOf(after, id, texts, x) {
      if x != g { assert IsDeadlineOf(s, id, texts, x); }
    }
  }

  lemma AddDeadlineDistinct(base: Store, s: Store, id: Uuid, texts: Texts, done: set<Uuid>, r: Uuid, e: Uuid, g: Uuid)
    requires AddedAreDue(base, s, id, texts, done) && AddedAreDistinct(base, s)
    requires id in s.triggers && r in s.rules && r !in done && e !in s.events && g !in s.generated
    ensures AddedAreDistinct(base, Added(s, id, texts, r, e, g))
  {
    forall x | x in s.generated && x !in base.generated
      ensures s.generated[x].deadlineRuleId != r && s.generated[x].calendarEventId != e
    {
      assert IsDeadlineOf(s, id, texts, x);
    }
  }

  lemma AddDeadlineAll(base: Store, s: Store, id: Uuid, texts: Texts, done: set<Uuid>, r: Uuid, e: Uuid, g: Uuid)
    requires Extends(base, s) && AddedAreAll(base, s, done)
    requires id in s.triggers && r in s.rules && e !in s.events && g !in s.generated
    ensures AddedAreAll(base, Added(s, id, texts, r, e, g), done + {r})
  {
    var after := Added(s, id, texts, r, e, g);
    assert g in after.generated && g !in base.generated;
    forall x | x in done ensures HasDeadline(base, after, x) {
      assert HasDeadline(base, s, x);
      var y :| y in s.generated && y !in base.generated && s.generated[y].deadlineRuleId == x;
      assert y in after.generated && after.generated[y].deadlineRuleId == x;
    }
    forall x | x in s.events && x !in base.events ensures HasRow(base, after, x) {
      assert HasRow(base, s, x);
      var y :| y in s.generated && y !in base.generated && s.generated[y].calendarEventId == x;
      assert y in after.generated && after.generated[y].calendarEventId == x;
    }
    assert after.generated[g].deadlineRuleId == r && after.generated[g].calendarEventId == e;
  }

  lemma SmallestExists(rules: map<Uuid, DeadlineRule>, left: set<(Uuid, Uuid)>)
    requires left != {} && forall p :: p in left ==> p.1 in rules
    ensures exists p :: p in left && IsSmallest(rules, left, p)
    decreases left
  {
    var x :| x in left;
    if left == {x} {
      assert IsSmallest(rules, left, x);
    } else {
      SmallestExists(rules, left - {x});
      var p :| p in left - {x} && IsSmallest(rules, left - {x}, p);
      assert IsSmallest(rules, left, if rules[x.1].sortOrder <= rules[p.1].sortOrder then x else p);
    }
  }

  predicate IsSmallest(rules: map<Uuid, DeadlineRule>, left: set<(Uuid, Uuid)>, p: (Uuid, Uuid)) {
    p.1 in rules && forall q :: q in left && q.1 in rules ==> rules[p.1].sortOrder <= rules[q.1].sortOrder
  }

  /** taken lists, by sort order, the pairs that are not left. */
  ghost predicate Taken(rules: map<Uuid, DeadlineRule>, all: set<(Uuid, Uuid)>, left: set<(Uuid, Uuid)>,
                        taken: seq<(Uuid, Uuid)>)
    requires forall p :: p in all ==> p.1 in rules
  {
    left <= all && Distinct(taken) && (forall p :: p in taken <==> p in all && p !in left)
    && (forall i, j :: 0 <= i < j < |taken| ==> rules[taken[i].1].sortOrder <= rules[taken[j].1].sortOrder)
    && forall p, q :: p in taken && q in left ==> rules[p.1].sortOrder <= rules[q.1].sortOrder
  }

  lemma TakeSmallest(rules: map<Uuid, DeadlineRule>, all: set<(Uuid, Uuid)>, left: set<(Uuid, Uuid)>,
                     taken: seq<(Uuid, Uuid)>, p: (Uuid, Uuid))
    requires (forall q :: q in all ==> q.1 in rules) && Taken(rules, all, left, taken)
    requires p in left && IsSmallest(rules, left, p)
    ensures Taken(rules, all, left - {p}, taken + [p])
  {
    assert forall i :: 0 <= i < |taken| ==> taken[i] in taken;
    assert forall q :: q in taken + [p] <==> q in taken || q == p;
  }

  /** The trigger row after an update: fields that are None stay as they are. */
  function Edited(t: TriggerEvent, triggerDate: Option<Date>, notes: Option<string>): TriggerEvent {
    t.(triggerDate := if triggerDate.Some? then triggerDate.value else t.triggerDate,
       notes := if notes.Some? then notes else t.notes)
  }

  // Runs of the service and of the calendar it shares its events with

  datatype Call =
    | CreateRuleSet(ruleSetId: Uuid, ruleSet: RuleSet)
    | CreateRule(ruleId: Uuid, rule: DeadlineRule)
    | UpdateRule(ruleId: Uuid, rule: DeadlineRule)
    | DeleteRule(ruleId: Uuid)
    | Link(matterId: Uuid, ruleSetId: Uuid)
    | SetTrigger(trigger: TriggerEvent, texts: Texts)
    | UpdateTrigger(triggerId: Uuid, triggerDate: Option<Date>, notes: Option<string>, texts: Texts)
    | DeleteTrigger(triggerId: Uuid)
    | StoreEvent(eventId: Uuid, event: CalendarEvent)
    | DeleteEvent(eventId: Uuid)

  /** Trigger id is the one of t's matter and name, or a new one, and is regenerated as t. */
  ghost predicate SetsTrigger(before: Store, after: Store, id: Uuid, t: TriggerEvent, texts: Texts) {
    Regenerated(before, after, id, t, texts)
    && (forall i :: i in before.triggers && SameSlot(before.triggers[i], t) ==> i == id)
    && (id in before.triggers ==> SameSlot(before.triggers[id], t))
  }

  ghost predicate LinksTo(before: Store, after: Store, c: Config) {
    exists id: Uuid :: LinkedAs(before, after, id, c)
  }

  ghost predicate LinkedAs(before: Store, after: Store, id: Uuid, c: Config) {
    id !in before.configs && after == before.(configs := before.configs[id := c])
  }

  /** A rule is deleted: its generated rows go with it, their events stay. */
  ghost function RuleDeleted(s: Store, ruleId: Uuid): Store {
    s.(rules := s.rules - {ruleId},
       generated := map g | g in s.generated && s.generated[g].deadlineRuleId != ruleId :: s.generated[g])
  }

  /** What a call may do; one that raises changes nothing. */
  ghost predicate Steps(before: Store, after: Store, c: Call) {
    after == before ||
    match c
    case CreateRuleSet(id, ruleSet) =>
      id !in before.ruleSets && after == before.(ruleSets := before.ruleSets[id := ruleSet])
    case CreateRule(id, rule) =>
      id !in before.rules && rule.ruleSetId in before.ruleSets && after == before.(rules := before.rules[id := rule])
    case UpdateRule(id, rule) => id in before.rules && after == before.(rules := before.rules[id := rule])
    case DeleteRule(id) => after == RuleDeleted(before, id)
    case Link(matterId, ruleSetId) =>
      Config(matterId, ruleSetId) !in before.configs.Values && LinksTo(before, after, Config(matterId, ruleSetId))
    case SetTrigger(t, texts) => exists id :: SetsTrigger(before, after, id, t, texts)
    case UpdateTrigger(id, triggerDate, notes, texts) =>
      id in before.triggers && Regenerated(before, after, id, Edited(before.triggers[id], triggerDate, notes), texts)
    case DeleteTrigger(id) => after == Cleared(before, id).(triggers := before.triggers - {id})
    case StoreEvent(id, event) => after == before.(events := before.events[id := event])
    case DeleteEvent(id) => after == EventDeleted(before, id)
  }

  /** No trigger has two deadlines of one rule. */
  ghost predicate OnePerRule(s: Store) {
    forall g, h :: g in s.generated && h in s.generated && g != h
                   && s.generated[g].triggerEventId == s.generated[h].triggerEventId ==>
      s.generated[g].deadlineRuleId != s.generated[h].deadlineRuleId
  }

  /** A deadline is one of a stored rule, in the matter of its trigger. */
  ghost predicate RowsFit(s: Store) {
    forall g :: g in s.generated ==>
      s.generated[g].deadlineRuleId in s.rules && s.generated[g].triggerEventId in s.triggers
      && s.generated[g].matterId == s.triggers[s.generated[g].triggerEventId].matterId
  }

  ghost predicate Sound(s: Store) {
    Consistent(s) && OnePerRule(s) && RowsFit(s)
  }

  /** after keeps a part of the rows, with all they point at, a part of the triggers, and the links. */
  ghost predicate KeepsPart(s: Store, after: Store) {
    (forall g :: g in after.generated ==>
       g in s.generated && after.generated[g] == s.generated[g]
       && after.generated[g].deadlineRuleId in after.rules && after.generated[g].calendarEventId in after.events
       && after.generated[g].triggerEventId in after.triggers)
    && (forall i :: i in after.triggers ==> i in s.triggers && after.triggers[i] == s.triggers[i])
    && after.configs == s.configs
  }

  lemma PartSound(s: Store, after: Store)
    requires Sound(s) && KeepsPart(s, after)
    ensures Sound(after)
  {
    PartConsistent(s, after);
  }

  lemma PartConsistent(s: Store, after: Store)
    requires Consistent(s) && KeepsPart(s, after)
    ensures Consistent(after)
  {
  }

  lemma ClearedFits(before: Store, id: Uuid, t: TriggerEvent)
    requires OnePerRule(before) && RowsFit(before)
    ensures var base := Cleared(before, id).(triggers := before.triggers[id := t]);
            && OnePerRule(base) && RowsFit(base)
            && forall g :: g in base.generated ==> base.generated[g].triggerEventId != id
  {
  }

  lemma BeyondFits(base: Store, s: Store, id: Uuid, texts: Texts, due: set<Uuid>)
    requires OnePerRule(base) && RowsFit(base) && GeneratedBeyond(base, s, id, texts, due)
    requires forall g :: g in base.generated ==> base.generated[g].triggerEventId != id
    ensures OnePerRule(s) && RowsFit(s)
  {
    forall g | g in s.generated && g !in base.generated ensures IsDeadlineOf(s, id, texts, g) {
    }
  }

  lemma RegeneratedFits(before: Store, after: Store, id: Uuid, t: TriggerEvent, texts: Texts)
    requires OnePerRule(before) && RowsFit(before) && Regenerated(before, after, id, t, texts)
    ensures OnePerRule(after) && RowsFit(after)
  {
    var base := Cleared(before, id).(triggers := before.triggers[id := t]);
    ClearedFits(before, id, t);
    BeyondFits(base, after, id, texts, DueRules(base, id));
  }

  lemma RegeneratedSound(before: Store, after: Store, id: Uuid, t: TriggerEvent, texts: Texts)
    requires Sound(before) && Regenerated(before, after, id, t, texts)
    requires forall i :: i in before.triggers && SameSlot(before.triggers[i], t) ==> i == id
    ensures Sound(after)
  {
    RegenerationConsistent(before, after, id, t, texts);
    RegeneratedFits(before, after, id, t, texts);
  }

  lemma DeletedTriggerSound(s: Store, id: Uuid)
    requires Sound(s)
    ensures Sound(Cleared(s, id).(triggers := s.triggers - {id}))
  {
    ClearedConsistent(s, id);
    PartSound(s, Cleared(s, id).(triggers := s.triggers - {id}));
  }

  lemma LinkedSound(s: Store, after: Store, c: Config)
    requires Sound(s) && c !in s.configs.Values && LinksTo(s, after, c)
    ensures Sound(after)
  {
    var id: Uuid :| LinkedAs(s, after, id, c);
    assert forall i :: i in s.configs ==> s.configs[i] in s.configs.Values;
  }

  lemma RulesSound(s: Store, after: Store)
    requires Sound(s) && s.rules.Keys <= after.rules.Keys
    requires after == s.(ruleSets := after.ruleSets, rules := after.rules)
    ensures Sound(after)
  {
    PartSound(s, after);
  }

  lemma StoredEventSound(s: Store, id: Uuid, event: CalendarEvent)
    requires Sound(s)
    ensures Sound(s.(events := s.events[id := event]))
  {
    PartSound(s, s.(events := s.events[id := event]));
  }

  lemma DeletedEventSound(s: Store, id: Uuid)
    requires Sound(s)
    ensures Sound(EventDeleted(s, id))
  {
    PartSound(s, EventDeleted(s, id));
  }

  lemma DeletedRuleSound(s: Store, id: Uuid)
    requires Sound(s)
    ensures Sound(RuleDeleted(s, id))
  {
    PartSound(s, RuleDeleted(s, id));
  }

  lemma StepSound(before: Store, after: Store, c: Call)
    requires Sound(before) && Steps(before, after, c)
    ensures Sound(after)
  {
    if after != before {
      match c
      case CreateRuleSet(_, _) => RulesSound(before, after);
      case CreateRule(_, _) => RulesSound(before, after);
      case UpdateRule(_, _) => RulesSound(before, after);
      case DeleteRule(id) => DeletedRuleSound(before, id);
      case Link(matterId, ruleSetId) => LinkedSound(before, after, Config(matterId, ruleSetId));
      case SetTrigger(t, texts) =>
        var id :| SetsTrigger(before, after, id, t, texts);
        RegeneratedSound(before, after, id, t, texts);
      case UpdateTrigger(id, triggerDate, notes, texts) =>
        RegeneratedSound(before, after, id, Edited(before.triggers[id], triggerDate, notes), texts);
      case DeleteTrigger(id) => DeletedTriggerSound(before, id);
      case StoreEvent(id, event) => StoredEventSound(before, id, event);
      case DeleteEvent(id) => DeletedEventSound(before, id);
    }
  }

  ghost predicate HasOwner(s: Store, e: Uuid) {
    exists g :: g in s.generated && s.generated[g].calendarEventId == e
  }

  /** Deleting a rule leaves in the calendar, without a row that leads to them, exactly the events of its deadlines. */
  lemma RuleDeletionOrphans(s: Store, r: Uuid, e: Uuid)
    requires Consistent(s) && e in s.events && HasOwner(s, e)
    ensures e in RuleDeleted(s, r).events
    ensures !HasOwner(RuleDeleted(s, r), e) <==>
              exists g :: g in s.generated && s.generated[g].deadlineRuleId == r && s.generated[g].calendarEventId == e
  {
    var after := RuleDeleted(s, r);
    var g :| g in s.generated && s.generated[g].calendarEventId == e;
    if s.generated[g].deadlineRuleId != r {
      assert g in after.generated && after.generated[g] == s.generated[g];
    }
  }

  /** A committed set_trigger_event is a step and leaves sound tables. */
  lemma SetTriggerSteps(before: Store, after: Store, id: Uuid, t: TriggerEvent, texts: Texts)
    requires Sound(before) && SetsTrigger(before, after, id, t, texts)
    ensures Sound(after) && Steps(before, after, SetTrigger(t, texts))
  {
    RegeneratedSound(before, after, id, t, texts);
  }

  lemma UpdateTriggerSteps(before: Store, after: Store, id: Uuid, triggerDate: Option<Date>, notes: Option<string>,
                           texts: Texts)
    requires Sound(before) && id in before.triggers
    requires Regenerated(before, after, id, Edited(before.triggers[id], triggerDate, notes), texts)
    ensures Sound(after) && Steps(before, after, UpdateTrigger(id, triggerDate, notes, texts))
  {
    RegeneratedSound(before, after, id, Edited(before.triggers[id], triggerDate, notes), texts);
  }

  lemma AddedValue(configs: map<Uuid, Config>, id: Uuid, c: Config)
    requires id !in configs
    ensures configs[id := c].Values == configs.Values + {c}
  {
    var after := configs[id := c];
    assert id in after && after[id] == c;
    forall d ensures d in after.Values <==> d in configs.Values + {c} {
      if d in configs.Values {
        var i :| i in configs && configs[i] == d;
        assert i in after && after[i] == d;
      }
    }
  }

  const NOTHING := Store(map[], map[], map[], map[], map[], map[])

  /** ls[k] is the state before call k. */
  ghost predicate IsRun(ls: seq<Store>, cs: seq<Call>) {
    |ls| == |cs| + 1 && ls[0] == NOTHING && forall k, m :: 0 <= k < |cs| && m == k + 1 ==> Steps(ls[k], ls[m], cs[k])
  }

  /** Over every run the tables are consistent and no trigger has two deadlines of one rule. */
  lemma {:induction false} RunSound(ls: seq<Store>, cs: seq<Call>, n: nat)
    requires IsRun(ls, cs) && n <= |cs|
    ensures Sound(ls[n])
  {
    if n > 0 {
      RunSound(ls, cs, n - 1);
      assert Steps(ls[n - 1], ls[n], cs[n - 1]);
      StepSound(ls[n - 1], ls[n], cs[n - 1]);
    }
  }

  /** The call is about trigger id, or about a rule or an event of one of its deadlines. */
  ghost predicate Addresses(s: Store, c: Call, id: Uuid) {
    match c
    case SetTrigger(t, _) => id in s.triggers && SameSlot(s.triggers[id], t)
    case UpdateTrigger(i, _, _, _) => i == id
    case DeleteTrigger(i) => i == id
    case DeleteRule(r) =>
      exists g :: g in s.generated && s.generated[g].triggerEventId == id && s.generated[g].deadlineRuleId == r
    case StoreEvent(e, _) => OwnsEvent(s, id, e)
    case DeleteEvent(e) => OwnsEvent(s, id, e)
    case _ => false
  }

  /** The same trigger with the same deadlines, up to keys. */
  ghost predicate Same(before: Store, after: Store, id: Uuid) {
    id in before.triggers && id in after.triggers && after.triggers[id] == before.triggers[id]
    && Contents(after, id) == Contents(before, id)
  }

  lemma SameRowsSame(before: Store, after: Store, id: Uuid)
    requires id in before.triggers && id in after.triggers && after.triggers[id] == before.triggers[id]
    requires forall g :: Shown(after, id, g) ==> Shown(before, id, g)
    requires forall g :: Shown(before, id, g) ==> Shown(after, id, g) && ContentOf(after, g) == ContentOf(before, g)
    ensures Same(before, after, id)
  {
  }

  lemma RegeneratedOtherSame(before: Store, after: Store, i: Uuid, t: TriggerEvent, texts: Texts, id: Uuid)
    requires Sound(before) && Regenerated(before, after, i, t, texts) && id != i && id in before.triggers
    ensures Same(before, after, id)
  {
    RegeneratedElsewhere(before, after, i, t, texts);
    OtherContents(before, after, i, t, texts, id);
  }

  lemma ClearedOtherSame(before: Store, i: Uuid, id: Uuid)
    requires Sound(before) && id != i && id in before.triggers
    ensures Same(before, Cleared(before, i).(triggers := before.triggers - {i}), id)
  {
    ClearedContents(before, Cleared(before, i).(triggers := before.triggers - {i}), i, id);
  }

  lemma RuleDeletedOtherSame(s: Store, r: Uuid, id: Uuid)
    requires id in s.triggers && !Addresses(s, DeleteRule(r), id)
    ensures Same(s, RuleDeleted(s, r), id)
  {
    SameRowsSame(s, RuleDeleted(s, r), id);
  }

  lemma EventOtherSame(s: Store, after: Store, e: Uuid, id: Uuid)
    requires Sound(s) && id in s.triggers && !OwnsEvent(s, id, e)
    requires after == EventDeleted(s, e) || (e in after.events && after == s.(events := s.events[e := after.events[e]]))
    ensures Same(s, after, id)
  {
    forall g | g in s.generated && s.generated[g].triggerEventId == id ensures s.generated[g].calendarEventId != e {
    }
    SameRowsSame(s, after, id);
  }

  /** A call that does not address a trigger leaves it and its deadlines as they are, later rule edits included. */
  lemma UnaddressedSame(before: Store, after: Store, c: Call, id: Uuid)
    requires Sound(before) && Steps(before, after, c) && id in before.triggers && !Addresses(before, c, id)
    ensures Same(before, after, id)
  {
    if after != before {
      match c
      case SetTrigger(t, texts) =>
        var i :| SetsTrigger(before, after, i, t, texts);
        RegeneratedOtherSame(before, after, i, t, texts, id);
      case UpdateTrigger(i, triggerDate, notes, texts) =>
        RegeneratedOtherSame(before, after, i, Edited(before.triggers[i], triggerDate, notes), texts, id);
      case DeleteTrigger(i) => ClearedOtherSame(before, i, id);
      case DeleteRule(r) => RuleDeletedOtherSame(before, r, id);
      case StoreEvent(e, event) => EventOtherSame(before, after, e, id);
      case DeleteEvent(e) => EventOtherSame(before, after, e, id);
      case Link(_, _) => SameRowsSame(before, after, id);
      case _ => SameRowsSame(before, after, id);
    }
  }

  /** None of the calls k, ..., n - 1 addresses trigger id. */
  ghost predicate LeftAlone(ls: seq<Store>, cs: seq<Call>, k: nat, n: nat, id: Uuid)
    requires |ls| > |cs| && k <= n <= |cs|
  {
    k == n || (!Addresses(ls[n - 1], cs[n - 1], id) && LeftAlone(ls, cs, k, n - 1, id))
  }

  lemma {:induction false} LeftAloneIff(ls: seq<Store>, cs: seq<Call>, k: nat, n: nat, id: Uuid)
    requires |ls| > |cs| && k <= n <= |cs|
    ensures LeftAlone(ls, cs, k, n, id) <==> forall j :: k <= j < n ==> !Addresses(ls[j], cs[j], id)
    decreases n
  {
    if k < n { LeftAloneIff(ls, cs, k, n - 1, id); }
  }

  /** In each of the steps k, ..., n - 1 trigger id, if stored, stays the same. */
  ghost predicate StaysSame(ls: seq<Store>, k: nat, n: nat, id: Uuid)
    requires k <= n < |ls|
  {
    k == n || ((id in ls[n - 1].triggers ==> Same(ls[n - 1], ls[n], id)) && StaysSame(ls, k, n - 1, id))
  }

  lemma {:induction false} StaysSameThroughout(ls: seq<Store>, k: nat, n: nat, id: Uuid)
    requires k <= n < |ls| && id in ls[k].triggers && StaysSame(ls, k, n, id)
    ensures Same(ls[k], ls[n], id)
    decreases n
  {
    if k < n {
      StaysSameThroughout(ls, k, n - 1, id);
      SameTransitive(ls[k], ls[n - 1], ls[n], id);
    }
  }

  /** If call j does not address trigger id, step j leaves it the same. */
  ghost predicate StepRespects(ls: seq<Store>, cs: seq<Call>, j: nat, id: Uuid)
    requires j + 1 < |ls| && j < |cs|
  {
    id in ls[j].triggers && !Addresses(ls[j], cs[j], id) ==> Same(ls[j], ls[j + 1], id)
  }

  lemma {:induction false} LeftAloneStaysSame(ls: seq<Store>, cs: seq<Call>, k: nat, n: nat, id: Uuid)
    requires |ls| == |cs| + 1 && k <= n <= |cs| && LeftAlone(ls, cs, k, n, id)
    requires forall j :: 0 <= j < |cs| ==> StepRespects(ls, cs, j, id)
    ensures StaysSame(ls, k, n, id)
    decreases n
  {
    if k < n {
      LeftAloneStaysSame(ls, cs, k, n - 1, id);
      assert StepRespects(ls, cs, n - 1, id);
    }
  }

  lemma StepsRespect(ls: seq<Store>, cs: seq<Call>, j: nat, id: Uuid)
    requires IsRun(ls, cs) && j < |cs|
    ensures StepRespects(ls, cs, j, id)
  {
    RunSound(ls, cs, j);
    if id in ls[j].triggers && !Addresses(ls[j], cs[j], id) { UnaddressedSame(ls[j], ls[j + 1], cs[j], id); }
  }

  lemma SameTransitive(a: Store, b: Store, c: Store, id: Uuid)
    requires Same(a, b, id) && Same(b, c, id)
    ensures Same(a, c, id)
  {
  }

  /** At any point of a run a trigger shows what its last regeneration computed, unless a later call addressed it. */
  lemma ShowsLastRegeneration(ls: seq<Store>, cs: seq<Call>, k: nat, n: nat, id: Uuid, t: TriggerEvent, texts: Texts)
    requires IsRun(ls, cs) && k < n <= |cs| && Regenerated(ls[k], ls[k + 1], id, t, texts)
    requires LeftAlone(ls, cs, k + 1, n, id)
    ensures id in ls[k + 1].triggers && id in ls[n].triggers && ls[n].triggers[id] == t
    ensures forall x :: x in Contents(ls[n], id) <==> IsDue(ls[k + 1], t, texts, x)
  {
    RegeneratedContents(ls[k], ls[k + 1], id, t, texts);
    forall j | 0 <= j < |cs| ensures StepRespects(ls, cs, j, id) { StepsRespect(ls, cs, j, id); }
    LeftAloneStaysSame(ls, cs, k + 1, n, id);
    StaysSameThroughout(ls, k + 1, n, id);
  }

  /** The service over its tables; each public method is one request with its commit or rollback. */
  class DeadlineService {
    var ruleSets: map<Uuid, RuleSet>
    var rules: map<Uuid, DeadlineRule>
    var configs: map<Uuid, Config>
    var triggers: map<Uuid, TriggerEvent>
    var generated: map<Uuid, GeneratedDeadline>
    var events: map<Uuid, CalendarEvent>

    function Tables(): Store
      reads this
    {
      Store(ruleSets, rules, configs, triggers, generated, events)
    }

    ghost predicate Valid()
      reads this
    {
      Sound(Tables())
    }

    constructor ()
      ensures Valid() && Tables() == NOTHING
    {
      ruleSets, rules, configs, triggers, generated, events := map[], map[], map[], map[], map[], map[];
    }

    method CreateRuleSet(id: Uuid, ruleSet: RuleSet) returns (r: Outcome<Error>)
      requires Valid()
      modifies this`ruleSets
      ensures Valid() && Steps(old(Tables()), Tables(), Call.CreateRuleSet(id, ruleSet))
      ensures r.Committed? <==> id !in old(ruleSets) && id in ruleSets
    {
      if id in ruleSets { return Raised(IntegrityError); }
      ruleSets := ruleSets[id := ruleSet];
      StepSound(old(Tables()), Tables(), Call.CreateRuleSet(id, ruleSet));
      return Committed;
    }

    method CreateDeadlineRule(id: Uuid, rule: DeadlineRule) returns (r: Outcome<Error>)
      requires Valid()
      modifies this`rules
      ensures Valid() && Steps(old(Tables()), Tables(), CreateRule(id, rule))
      ensures r.Committed? <==> id !in old(rules) && rule.ruleSetId in ruleSets && id in rules
    {
      if id in rules || rule.ruleSetId !in ruleSets { return Raised(IntegrityError); }
      rules := rules[id := rule];
      StepSound(old(Tables()), Tables(), CreateRule(id, rule));
      return Committed;
    }

    /** rule is the row with the given fields set. */
    method UpdateDeadlineRule(id: Uuid, rule: DeadlineRule) returns (r: Outcome<Error>)
      requires Valid()
      modifies this`rules
      ensures Valid() && Steps(old(Tables()), Tables(), UpdateRule(id, rule))
      ensures r.Committed? <==> id in old(rules)
      ensures r.Committed? ==> rules == old(rules)[id := rule]
    {
      if id !in rules { return Raised(RuleNotFound); }
      rules := rules[id := rule];
      StepSound(old(Tables()), Tables(), UpdateRule(id, rule));
      return Committed;
    }

    method DeleteDeadlineRule(id: Uuid)
      requires Valid()
      modifies this`rules, this`generated
      ensures Valid() && Tables() == RuleDeleted(old(Tables()), id)
    {
      rules := rules - {id};
      generated := map g | g in generated && generated[g].deadlineRuleId != id :: generated[g];
      StepSound(old(Tables()), Tables(), DeleteRule(id));
    }

    method ApplyRuleSetToMatter(matterId: Uuid, ruleSetId: Uuid, newId: Uuid) returns (r: Outcome<Error>)
      requires Valid()
      modifies this`configs
      ensures Valid() && Steps(old(Tables()), Tables(), Link(matterId, ruleSetId))
      ensures r.Committed? ==> configs.Values == old(configs.Values) + {Config(matterId, ruleSetId)}
      ensures r.Raised? ==> configs == old(configs) && newId in configs
    {
      var c := Config(matterId, ruleSetId);
      if c in configs.Values {
        assert configs.Values == configs.Values + {c};
        return Committed;
      }
      if newId in configs { return Raised(IntegrityError); }
      AddedValue(configs, newId, c);
      configs := configs[newId := c];
      assert LinkedAs(old(Tables()), Tables(), newId, c);
      StepSound(old(Tables()), Tables(), Link(matterId, ruleSetId));
      return Committed;
    }

    /** The joined SELECT of _get_rules_for_trigger, ORDER BY sort_order: one row for each matching link row and
        rule. */
    method JoinedRows(matterId: Uuid, triggerName: string) returns (joined: seq<(Uuid, Uuid)>)
      ensures IsJoin(Tables(), matterId, triggerName, joined)
    {
      var left := set c, r | c in configs && r in rules && Joins(Tables(), matterId, triggerName, c, r) :: (c, r);
      ghost var all := left;
      joined := [];
      while left != {}
        invariant Taken(rules, all, left, joined)
        decreases left
      {
        SmallestExists(rules, left);
        var p :| p in left && IsSmallest(rules, left, p);
        TakeSmallest(rules, all, left, joined, p);
        left := left - {p};
        joined := joined + [p];
      }
    }

    /** The rules of the joined rows; a rule occurs once for each link row that leads to it. */
    method GetRulesForTrigger(matterId: Uuid, triggerName: string) returns (rows: seq<Uuid>)
      ensures exists joined :: IsJoin(Tables(), matterId, triggerName, joined) && IsColumn(joined, rows)
    {
      var pairs := JoinedRows(matterId, triggerName);
      rows := seq(|pairs|, i requires 0 <= i < |pairs| => pairs[i].1);
      assert IsColumn(pairs, rows);
    }

    method DeleteGeneratedDeadlines(id: Uuid)
      requires Valid()
      modifies this`generated, this`events
      ensures Tables() == Cleared(old(Tables()), id)
    {
      var eventIds := set g | g in generated && generated[g].triggerEventId == id :: generated[g].calendarEventId;
      if eventIds != {} {
        generated := map g | g in generated && generated[g].triggerEventId != id :: generated[g];
        events := events - eventIds;
        // Deleting an event cascades to rows that still point at it.
        generated := map g | g in generated && generated[g].calendarEventId !in eventIds :: generated[g];
        forall g | g in old(generated) && old(generated)[g].triggerEventId != id
          ensures old(generated)[g].calendarEventId !in eventIds
        {
        }
      } else {
        NothingToClear(Tables(), id);
      }
    }

    /** The body of the generation loop: compute the date, insert the event, insert the row. */
    method InsertDeadline(id: Uuid, ruleId: Uuid, texts: Texts, eventId: Uuid, rowId: Uuid)
      requires id in triggers && ruleId in rules
      modifies this`generated, this`events
      ensures Tables() == Added(old(Tables()), id, texts, ruleId, eventId, rowId)
    {
      var t, rule := triggers[id], rules[ruleId];
      var computed := ComputeDeadlineDate(t.triggerDate, rule.offsetDays, rule.offsetType);
      var named := texts.eventTypeNamed(rule.createsEventType);
      var eventType := DeadlineEvent;
      if named.Some? { eventType := named.value; }
      var description := texts.descriptionFor(rule.name, t.triggerName, t.triggerDate);
      events := events[eventId := CalendarEvent(Some(t.matterId), texts.titleFor(rule.name), description, eventType,
                                                computed, true)];
      generated := generated[rowId := GeneratedDeadline(eventId, id, ruleId, t.matterId, computed)];
    }

    /** With unique links the rows are the matching rules, each once. */
    method DueRows(id: Uuid) returns (rows: seq<Uuid>)
      requires id in triggers && UniqueLinks(Tables())
      ensures Distinct(rows) && forall r :: r in rows <==> r in DueRules(Tables(), id)
    {
      var t := triggers[id];
      rows := GetRulesForTrigger(t.matterId, t.triggerName);
      ghost var joined :| IsJoin(Tables(), t.matterId, t.triggerName, joined) && IsColumn(joined, rows);
      UniqueLinksDistinctRows(Tables(), t.matterId, t.triggerName, joined, rows);
      forall r ensures r in rows <==> Matches(Tables(), t.matterId, t.triggerName, r) {
        ColumnMatches(Tables(), t.matterId, t.triggerName, joined, rows, r);
      }
      forall r | r in rows ensures r in rules {
        assert Matches(Tables(), t.matterId, t.triggerName, r);
      }
    }

    /** One turn of the loop, with the k-th pair of drawn keys; a taken key raises. */
    method GenerateOne(id: Uuid, ruleId: Uuid, texts: Texts, uuid4: nat -> Uuid, k: nat, ghost base: Store,
                       ghost done: set<Uuid>)
      returns (ok: bool)
      requires GeneratedBeyond(base, Tables(), id, texts, done) && OnlyDrawn(base, Tables(), uuid4, k)
      requires id in triggers && ruleId in rules && ruleId !in done
      modifies this`generated, this`events
      ensures ok ==> GeneratedBeyond(base, Tables(), id, texts, done + {ruleId})
      ensures ok ==> OnlyDrawn(base, Tables(), uuid4, k + 1)
      ensures FreshRows(base, uuid4) ==> ok
    {
      var eventId, rowId := uuid4(2 * k + 1), uuid4(2 * k + 2);
      if FreshRows(base, uuid4) { NextDrawIsFree(base, Tables(), uuid4, k); }
      if eventId in events || rowId in generated { return false; }
      AddDeadline(base, Tables(), id, texts, done, ruleId, eventId, rowId);
      DrawOnce(base, Tables(), uuid4, k, id, texts, ruleId);
      InsertDeadline(id, ruleId, texts, eventId, rowId);
      return true;
    }

    method GenerateDeadlines(id: Uuid, texts: Texts, uuid4: nat -> Uuid) returns (ok: bool)
      requires id in triggers && UniqueLinks(Tables())
      modifies this`generated, this`events
      ensures ok ==> GeneratedBeyond(old(Tables()), Tables(), id, texts, DueRules(old(Tables()), id))
      ensures FreshRows(old(Tables()), uuid4) ==> ok
    {
      ghost var base := Tables();
      var rows := DueRows(id);
      BeyondNothing(base, id, texts);
      for k := 0 to |rows|
        invariant GeneratedBeyond(base, Tables(), id, texts, FirstOf(rows, k)) && OnlyDrawn(base, Tables(), uuid4, k)
      {
        FirstOfNext(rows, k);
        ok := GenerateOne(id, rows[k], texts, uuid4, k, base, FirstOf(rows, k));
        if !ok { return; }
      }
      AllOf(rows, DueRules(base, id));
      return true;
    }

    /** Store the trigger row and generate its deadlines; when a key is taken, roll back to saved. */
    method StoreAndGenerate(id: Uuid, t: TriggerEvent, texts: Texts, uuid4: nat -> Uuid, saved: Store)
      returns (ok: bool)
      requires UniqueLinks(saved) && Tables() == Cleared(saved, id)
      modifies this`triggers, this`generated, this`events
      ensures if ok then Regenerated(saved, Tables(), id, t, texts) else Tables() == saved
      ensures FreshRows(saved, uuid4) ==> ok
    {
      triggers := triggers[id := t];
      ok := GenerateDeadlines(id, texts, uuid4);
      if !ok { triggers, generated, events := saved.triggers, saved.generated, saved.events; }
    }

    method SetTriggerEvent(matterId: Uuid, triggerName: string, triggerDate: Date, notes: Option<string>,
                           texts: Texts, uuid4: nat -> Uuid)
      returns (r: Outcome<Error>, id: Uuid)
      requires Valid()
      modifies this
      ensures var t := TriggerEvent(matterId, triggerName, triggerDate, notes);
              && Valid() && Steps(old(Tables()), Tables(), SetTrigger(t, texts))
              && (r.Committed? ==> SetsTrigger(old(Tables()), Tables(), id, t, texts))
      ensures r.Raised? ==> Tables() == old(Tables())
      ensures FreshDraws(old(Tables()), uuid4) ==> r.Committed?
    {
      var saved := Tables();
      var t := TriggerEvent(matterId, triggerName, triggerDate, notes);
      var existing := set i | i in triggers && SameSlot(triggers[i], t);
      if existing != {} {
        id :| id in existing;
        DeleteGeneratedDeadlines(id);
      } else {
        id := uuid4(0);
        if id in triggers { return Raised(IntegrityError), id; }
        NoRowsWithoutTrigger(saved, id);
      }
      forall i | i in saved.triggers && SameSlot(saved.triggers[i], t) ensures i == id {
        assert i in existing;
      }
      var ok := StoreAndGenerate(id, t, texts, uuid4, saved);
      if !ok { return Raised(IntegrityError), id; }
      SetTriggerSteps(saved, Tables(), id, t, texts);
      return Committed, id;
    }

    method UpdateTriggerEvent(id: Uuid, triggerDate: Option<Date>, notes: Option<string>, texts: Texts,
                              uuid4: nat -> Uuid)
      returns (r: Outcome<Error>)
      requires Valid()
      modifies this
      ensures Valid() && Steps(old(Tables()), Tables(), UpdateTrigger(id, triggerDate, notes, texts))
      ensures r.Committed? ==>
                id in old(triggers) && Regenerated(old(Tables()), Tables(), id,
                                                   Edited(old(triggers)[id], triggerDate, notes), texts)
      ensures r.Committed? ==> id in triggers && SameSlot(triggers[id], old(triggers)[id])
      ensures r.Committed? ==>
                triggers[id].triggerDate == match triggerDate
                                            case Some(date) => date
                                            case None => old(triggers)[id].triggerDate
      ensures r.Committed? ==> triggers[id].notes == if notes == None then old(triggers)[id].notes else notes
      ensures r.Raised? ==> Tables() == old(Tables())
      ensures r == Raised(TriggerNotFound) <==> id !in old(triggers)
      ensures FreshRows(old(Tables()), uuid4) && id in old(triggers) ==> r.Committed?
    {
      if id !in triggers { return Raised(TriggerNotFound); }
      var saved := Tables();
      DeleteGeneratedDeadlines(id);
      var t := triggers[id];
      if triggerDate.Some? { t := t.(triggerDate := triggerDate.value); }
      if notes.Some? { t := t.(notes := notes); }
      var ok := StoreAndGenerate(id, t, texts, uuid4, saved);
      if !ok { return Raised(IntegrityError); }
      UpdateTriggerSteps(saved, Tables(), id, triggerDate, notes, texts);
      return Committed;
    }

    method DeleteTriggerEvent(id: Uuid)
      requires Valid()
      modifies this
      ensures Valid()
      ensures Tables() == Cleared(old(Tables()), id).(triggers := old(triggers) - {id})
    {
      DeletedTriggerSound(Tables(), id);
      DeleteGeneratedDeadlines(id);
      if id in triggers {
        triggers := triggers - {id};
      }
    }

    method DeleteCalendarEvent(eventId: Uuid)
      requires Valid()
      modifies this
      ensures Valid()
      ensures Tables() == EventDeleted(old(Tables()), eventId)
    {
      DeletedEventSound(Tables(), eventId);
      events := events - {eventId};
      generated := map g | g in generated && generated[g].calendarEventId != eventId :: generated[g];
    }
  }

  lemma NoRowsWithoutTrigger(s: Store, id: Uuid)
    requires Consistent(s) && id !in s.triggers
    ensures Cleared(s, id) == s
  {
    assert OwnEvents(s, id) == {};
    NothingToClear(s, id);
  }

  lemma NothingToClear(s: Store, id: Uuid)
    requires OwnEvents(s, id) == {}
    ensures Cleared(s, id) == s
  {
    forall g | g in s.generated ensures s.generated[g].triggerEventId != id {
      assert s.generated[g].calendarEventId !in OwnEvents(s, id);
    }
    assert Cleared(s, id).generated == s.generated;
  }
}
