/** The home page: the priority badge colour, the two nearest open reminders and the greeting name.
    `parseISO(date).getTime()` is the parameter `timeOf`. */
module Home {

  import opened Wrappers
  import Lists
  import StableSort
  import RemindersContext

  type Reminder = RemindersContext.Reminder

  /** `getPriorityColor`: each known priority has its badge colour and anything else is grey. */
  function PriorityColor(priority: string): (r: string)
    ensures priority == "high" ==> r == "error"
    ensures priority == "medium" ==> r == "warning"
    ensures priority == "low" ==> r == "success"
    ensures r == "gray" <==> priority !in {"high", "medium", "low"}
  {
    match priority
    case "high" => "error"
    case "medium" => "warning"
    case "low" => "success"
    case _ => "gray"
  }

  /** `user?.first_name || 'Student'`: a missing or empty first name greets a student. */
  function FirstName(firstName: Option<string>): string {
    if firstName.Some? && firstName.value != "" then firstName.value else "Student"
  }

  lemma {:induction false} FirstNameDefault(firstName: Option<string>)
    ensures FirstName(firstName) != ""
    ensures FirstName(firstName) == "Student" <==> (firstName.None? || firstName.value in {"", "Student"})
  {
  }

  function NotCompleted(): Reminder -> bool {
    (x: Reminder) => !x.completed
  }

  function DateRank(timeOf: string -> int): Reminder -> StableSort.Rank {
    (x: Reminder) => StableSort.Rank(timeOf(x.date), 0)
  }

  /** The comparator given to `sort`, as written. */
  function SourceCompare(a: Reminder, b: Reminder, timeOf: string -> int): int {
    timeOf(a.date) - timeOf(b.date)
  }

  /** `reminders.filter(not completed).sort(by date).slice(0, 2)`. */
  function UpcomingReminders(reminders: seq<Reminder>, timeOf: string -> int): seq<Reminder> {
    var sorted := StableSort.SortByRank(Lists.Filter(reminders, NotCompleted()), DateRank(timeOf));
    if |sorted| <= 2 then sorted else sorted[..2]
  }

  /** At most two reminders are shown, all open, nearest first; there are two whenever there are two
      open reminders, and no open reminder left out is earlier than one shown. */
  lemma {:induction false} UpcomingSpec(reminders: seq<Reminder>, timeOf: string -> int)
    ensures var r := UpcomingReminders(reminders, timeOf);
      var pending := Lists.Filter(reminders, NotCompleted());
      |r| == (if |pending| < 2 then |pending| else 2)
      && (forall x :: x in r ==> x in reminders && !x.completed)
      && (forall i, j :: 0 <= i < j < |r| ==> SourceCompare(r[i], r[j], timeOf) <= 0)
      && (forall x, i :: x in multiset(pending) - multiset(r) && 0 <= i < |r| ==> timeOf(r[i].date) <= timeOf(x.date))
  {
    var pending := Lists.Filter(reminders, NotCompleted());
    var sorted := StableSort.SortByRank(pending, DateRank(timeOf));
    var r := UpcomingReminders(reminders, timeOf);
    StableSort.SortSpec(pending, DateRank(timeOf));
    assert r == sorted[..|r|];
    forall x | x in r ensures x in reminders && !x.completed {
      assert x in multiset(sorted);
    }
    SortedPrefix(sorted, |r|, timeOf);
  }

  /** The first `k` entries of a list sorted by date are in date order, and nothing after them is
      earlier than one of them. */
  lemma {:induction false} SortedPrefix(sorted: seq<Reminder>, k: nat, timeOf: string -> int)
    requires k <= |sorted| && StableSort.SortedBy(sorted, DateRank(timeOf))
    ensures forall i, j :: 0 <= i < j < k ==> SourceCompare(sorted[..k][i], sorted[..k][j], timeOf) <= 0
    ensures forall x, i :: x in multiset(sorted) - multiset(sorted[..k]) && 0 <= i < k ==>
      timeOf(sorted[..k][i].date) <= timeOf(x.date)
  {
    forall i, j | 0 <= i < j < k ensures SourceCompare(sorted[..k][i], sorted[..k][j], timeOf) <= 0 {
      assert StableSort.RankLe(DateRank(timeOf)(sorted[i]), DateRank(timeOf)(sorted[j]));
    }
    forall x, i | x in multiset(sorted) - multiset(sorted[..k]) && 0 <= i < k
      ensures timeOf(sorted[..k][i].date) <= timeOf(x.date)
    {
      assert sorted == sorted[..k] + sorted[k..];
      assert multiset(sorted) == multiset(sorted[..k]) + multiset(sorted[k..]);
      assert x in multiset(sorted[k..]);
      var j :| 0 <= j < |sorted[k..]| && sorted[k..][j] == x;
      assert sorted[k + j] == x;
      assert StableSort.RankLe(DateRank(timeOf)(sorted[i]), DateRank(timeOf)(sorted[k + j]));
    }
  }
}
