/** The reminders page: the subject filter and date sort over the stored reminders, and the form and
    filter fields its handlers set. A picked date is held as its `formatISO` text and
    `parseISO(date)` as the parameter `timeOf`. */
module RemindersPage {

  import opened Wrappers
  import Lists
  import StableSort
  import RemindersContext

  type Reminder = RemindersContext.Reminder

  const SUBJECTS: seq<string> := ["Mathematics", "Physics", "Chemistry", "Biology", "Literature",
                                  "History", "Geography", "English", "Computer Science", "Other"]

  const ALL := "All"

  /** `subjectFilter` is `null` or a subject; the empty text, being falsy, also filters nothing. */
  function SubjectKept(subjectFilter: Option<string>): Reminder -> bool {
    (x: Reminder) => !(subjectFilter.Some? && subjectFilter.value != "" && x.subject != subjectFilter.value)
  }

  function FilteredReminders(reminders: seq<Reminder>, subjectFilter: Option<string>): seq<Reminder> {
    Lists.Filter(reminders, SubjectKept(subjectFilter))
  }

  /** No subject filter shows every reminder in order; a subject shows exactly the reminders of that
      subject, in order: a single reminder is shown iff it has the subject, and the filter of a
      concatenation is the concatenation of the filters. */
  lemma {:induction false} SubjectFilterSpec(reminders: seq<Reminder>, more: seq<Reminder>,
                                             subjectFilter: Option<string>, x: Reminder)
    ensures subjectFilter.None? ==> FilteredReminders(reminders, subjectFilter) == reminders
    ensures subjectFilter.Some? && subjectFilter.value != "" ==>
      (x in FilteredReminders(reminders, subjectFilter) <==> x in reminders && x.subject == subjectFilter.value)
      && FilteredReminders([x], subjectFilter) == (if x.subject == subjectFilter.value then [x] else [])
    ensures FilteredReminders(reminders + more, subjectFilter)
            == FilteredReminders(reminders, subjectFilter) + FilteredReminders(more, subjectFilter)
  {
    if subjectFilter.None? {
      Lists.FilterAll(reminders, SubjectKept(subjectFilter));
    }
    Lists.FilterCons(x, [], SubjectKept(subjectFilter));
    assert [x] + [] == [x];
    Lists.FilterAppend(reminders, more, SubjectKept(subjectFilter));
  }

  /** The comparator given to `sort`, as written. */
  function SourceCompare(a: Reminder, b: Reminder, timeOf: string -> int): int {
    var dateA := timeOf(a.date);
    var dateB := timeOf(b.date);
    if dateA < dateB then -1 else if dateA > dateB then 1 else 0
  }

  function DateRank(timeOf: string -> int): Reminder -> StableSort.Rank {
    (x: Reminder) => StableSort.Rank(timeOf(x.date), 0)
  }

  function SortedReminders(filtered: seq<Reminder>, timeOf: string -> int): seq<Reminder> {
    StableSort.SortByRank(filtered, DateRank(timeOf))
  }

  function OnDate(timeOf: string -> int, t: int): Reminder -> bool {
    (x: Reminder) => timeOf(x.date) == t
  }

  /** The sorted list is a permutation of the filtered one, in ascending date order, and reminders of
      the same date keep their filtered order. */
  lemma {:induction false} SortedSpec(filtered: seq<Reminder>, timeOf: string -> int, t: int)
    ensures var r := SortedReminders(filtered, timeOf);
      multiset(r) == multiset(filtered)
      && (forall i, j :: 0 <= i < j < |r| ==> timeOf(r[i].date) <= timeOf(r[j].date))
      && (forall i, j :: 0 <= i < j < |r| ==> SourceCompare(r[i], r[j], timeOf) <= 0)
    ensures Lists.Filter(SortedReminders(filtered, timeOf), OnDate(timeOf, t)) == Lists.Filter(filtered, OnDate(timeOf, t))
  {
    var rank := DateRank(timeOf);
    var r := SortedReminders(filtered, timeOf);
    StableSort.SortSpec(filtered, rank);
    forall i, j | 0 <= i < j < |r| ensures timeOf(r[i].date) <= timeOf(r[j].date) {
      assert StableSort.RankLe(rank(r[i]), rank(r[j]));
    }
    StableSort.SortStable(filtered, rank, StableSort.Rank(t, 0));
    Lists.FilterExt(r, OnDate(timeOf, t), StableSort.HasRank(rank, StableSort.Rank(t, 0)));
    Lists.FilterExt(filtered, OnDate(timeOf, t), StableSort.HasRank(rank, StableSort.Rank(t, 0)));
  }

  /** The page's form and filter fields. */
  class RemindersPageState {
    var showForm: bool
    var title: string
    var date: Option<string>
    var time: string
    var subject: string
    var priority: string
    var subjectFilter: Option<string>

    /** The initial fields; `today` is the text of `new Date()`. */
    constructor(today: string)
      ensures !showForm && title == "" && date == Some(today) && time == "12:00"
      ensures subject == SUBJECTS[0] && priority == "medium" && subjectFilter.None?
    {
      showForm := false;
      title := "";
      date := Some(today);
      time := "12:00";
      subject := SUBJECTS[0];
      priority := "medium";
      subjectFilter := None;
    }

    predicate HasAdvancedFilters()
      reads this
    {
      subjectFilter.Some?
    }

    /** `resetForm`: the form's defaults, and the form hidden; the filter is untouched. */
    method ResetForm(today: string)
      modifies this
      ensures title == "" && date == Some(today) && time == "12:00" && subject == SUBJECTS[0]
      ensures priority == "medium" && !showForm && subjectFilter == old(subjectFilter)
    {
      title := "";
      date := Some(today);
      time := "12:00";
      subject := SUBJECTS[0];
      priority := "medium";
      showForm := false;
    }

    /** `addReminder`: with an empty title or no date nothing happens; otherwise an open reminder
        with the form's fields is added to the store and the form is reset. */
    method AddReminder(reminders: seq<Reminder>, now: nat, today: string) returns (r: seq<Reminder>)
      modifies this
      ensures old(title) == "" || old(date).None? ==>
        r == reminders && title == old(title) && date == old(date) && time == old(time)
        && subject == old(subject) && priority == old(priority) && showForm == old(showForm)
      ensures old(title) != "" && old(date).Some? ==>
        r == RemindersContext.AddReminder(reminders,
               RemindersContext.ReminderData(old(title), old(date).value, old(time), old(subject), old(priority), false), now)
        && title == "" && date == Some(today) && time == "12:00" && subject == SUBJECTS[0]
        && priority == "medium" && !showForm
      ensures subjectFilter == old(subjectFilter)
    {
      if title == "" || date.None? {
        return reminders;
      }
      var data := RemindersContext.ReminderData(title, date.value, time, subject, priority, false);
      r := RemindersContext.AddReminder(reminders, data, now);
      ResetForm(today);
    }

    /** The subject select: 'All' clears the filter, any other choice sets it. */
    method SelectSubject(value: string)
      modifies this
      ensures subjectFilter == (if value == ALL then None else Some(value))
      ensures !HasAdvancedFilters() <==> value == ALL
      ensures title == old(title) && date == old(date) && time == old(time) && subject == old(subject)
              && priority == old(priority) && showForm == old(showForm)
    {
      subjectFilter := if value == ALL then None else Some(value);
    }

    method ClearFilters()
      modifies this
      ensures subjectFilter.None? && !HasAdvancedFilters()
      ensures title == old(title) && date == old(date) && time == old(time) && subject == old(subject)
              && priority == old(priority) && showForm == old(showForm)
    {
      subjectFilter := None;
    }
  }
}
