/** The reminders store: every operation maps or filters the old list into a new one. The id of a
    new reminder is the clock in milliseconds, written in decimal. */
module RemindersContext {

  import opened Wrappers
  import Text
  import Lists

  datatype Reminder = Reminder(
    id: string,
    title: string,
    date: string,
    time: string,
    subject: string,
    priority: string,
    completed: bool)

  /** `Omit<Reminder, 'id'>`. */
  datatype ReminderData = ReminderData(
    title: string,
    date: string,
    time: string,
    subject: string,
    priority: string,
    completed: bool)

  /** `Partial<Reminder>`: a left-out field is not spread over the reminder. */
  datatype ReminderPatch = ReminderPatch(
    id: Option<string>,
    title: Option<string>,
    date: Option<string>,
    time: Option<string>,
    subject: Option<string>,
    priority: Option<string>,
    completed: Option<bool>)

  /** `{ ...reminderData, id: Date.now().toString() }`. */
  function NewReminder(data: ReminderData, now: nat): Reminder {
    Reminder(Text.NatToString(now), data.title, data.date, data.time, data.subject, data.priority, data.completed)
  }

  function AddReminder(reminders: seq<Reminder>, data: ReminderData, now: nat): seq<Reminder> {
    reminders + [NewReminder(data, now)]
  }

  /** `{ ...reminder, ...updates }`. */
  function Patched(r: Reminder, u: ReminderPatch): Reminder {
    Reminder(u.id.GetOr(r.id), u.title.GetOr(r.title), u.date.GetOr(r.date), u.time.GetOr(r.time),
             u.subject.GetOr(r.subject), u.priority.GetOr(r.priority), u.completed.GetOr(r.completed))
  }

  function UpdateReminder(reminders: seq<Reminder>, id: string, updates: ReminderPatch): seq<Reminder> {
    seq(|reminders|, i requires 0 <= i < |reminders| =>
      if reminders[i].id == id then Patched(reminders[i], updates) else reminders[i])
  }

  function DeleteReminder(reminders: seq<Reminder>, id: string): seq<Reminder> {
    Lists.Filter(reminders, (r: Reminder) => r.id != id)
  }

  function ToggleComplete(reminders: seq<Reminder>, id: string): seq<Reminder> {
    seq(|reminders|, i requires 0 <= i < |reminders| =>
      if reminders[i].id == id then reminders[i].(completed := !reminders[i].completed) else reminders[i])
  }

  /** `addReminder` appends exactly one reminder carrying the given fields and a decimal id; the
      earlier reminders are unchanged. */
  lemma {:induction false} AddAppendsOne(reminders: seq<Reminder>, data: ReminderData, now: nat)
    ensures var r := AddReminder(reminders, data, now);
      |r| == |reminders| + 1 && r[..|reminders|] == reminders
      && var n := r[|reminders|];
      n.title == data.title && n.date == data.date && n.time == data.time && n.subject == data.subject
      && n.priority == data.priority && n.completed == data.completed
      && n.id != [] && Text.AllDigits(n.id) && Text.DecimalValue(n.id) == now
  {
    assert AddReminder(reminders, data, now)[..|reminders|] == reminders;
    Text.NatToStringRoundTrip(now);
  }

  /** `updateReminder` keeps the length, leaves other ids alone and merges the supplied fields into
      the matching reminders, keeping the fields not supplied. */
  lemma {:induction false} UpdateOnlyMatching(reminders: seq<Reminder>, id: string, u: ReminderPatch)
    ensures var r := UpdateReminder(reminders, id, u);
      |r| == |reminders|
      && (forall i :: 0 <= i < |r| && reminders[i].id != id ==> r[i] == reminders[i])
      && (forall i :: 0 <= i < |r| && reminders[i].id == id ==>
            Merged(u.id, id, r[i].id) && Merged(u.title, reminders[i].title, r[i].title)
            && Merged(u.date, reminders[i].date, r[i].date) && Merged(u.time, reminders[i].time, r[i].time)
            && Merged(u.subject, reminders[i].subject, r[i].subject)
            && Merged(u.priority, reminders[i].priority, r[i].priority)
            && Merged(u.completed, reminders[i].completed, r[i].completed))
  {
  }

  /** A field after the spread: the supplied value if there is one, otherwise the one it had. */
  predicate Merged<T(==)>(supplied: Option<T>, before: T, after: T) {
    (supplied.Some? ==> after == supplied.value) && (supplied.None? ==> after == before)
  }

  /** An empty patch changes nothing. */
  lemma {:induction false} EmptyPatchIsIdentity(reminders: seq<Reminder>, id: string)
    ensures UpdateReminder(reminders, id, ReminderPatch(None, None, None, None, None, None, None)) == reminders
  {
    var r := UpdateReminder(reminders, id, ReminderPatch(None, None, None, None, None, None, None));
    assert |r| == |reminders|;
    forall i | 0 <= i < |r| ensures r[i] == reminders[i] {
    }
  }

  /** `deleteReminder` removes every reminder with that id and keeps the rest, in order. */
  lemma {:induction false} DeleteRemovesExactly(reminders: seq<Reminder>, id: string, more: seq<Reminder>)
    ensures var r := DeleteReminder(reminders, id);
      (forall x :: x in r ==> x.id != id && x in reminders)
      && (forall x :: x in reminders && x.id != id ==> x in r)
      && |r| == Lists.Count(reminders, (x: Reminder) => x.id != id)
    ensures DeleteReminder(reminders + more, id) == DeleteReminder(reminders, id) + DeleteReminder(more, id)
  {
    Lists.FilterCount(reminders, (x: Reminder) => x.id != id);
    Lists.FilterAppend(reminders, more, (x: Reminder) => x.id != id);
  }

  /** Deleting an id no reminder has changes nothing. */
  lemma {:induction false} DeleteAbsentIsIdentity(reminders: seq<Reminder>, id: string)
    requires forall i :: 0 <= i < |reminders| ==> reminders[i].id != id
    ensures DeleteReminder(reminders, id) == reminders
  {
    Lists.FilterAll(reminders, (x: Reminder) => x.id != id);
  }

  /** `toggleComplete` flips `completed` on the matching reminders and changes nothing else, and
      twice restores the list. */
  lemma {:induction false} ToggleFlipsMatching(reminders: seq<Reminder>, id: string)
    ensures var r := ToggleComplete(reminders, id);
      |r| == |reminders|
      && (forall i :: 0 <= i < |r| ==>
            r[i] == if reminders[i].id == id then reminders[i].(completed := !reminders[i].completed) else reminders[i])
      && (forall i :: 0 <= i < |r| ==> (r[i].completed != reminders[i].completed <==> reminders[i].id == id))
    ensures ToggleComplete(ToggleComplete(reminders, id), id) == reminders
  {
    var once := ToggleComplete(reminders, id);
    var twice := ToggleComplete(once, id);
    assert |twice| == |reminders|;
    forall i | 0 <= i < |reminders| ensures twice[i] == reminders[i] {
      assert once[i].id == reminders[i].id;
    }
  }
}
