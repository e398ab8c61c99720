/** The to-do list of `src/App.jsx`: adding with blank-text validation,
    toggling and removing by id, clearing completed tasks, the filtered
    view and the counters. Each handler builds the new list with a pure
    `map`/`filter`/spread expression; those expressions are the functions
    below, and the class `TaskList` holds the component's state cells. */
module Tasks {
  import opened Seqs

  /** `createdAt` is the ISO-8601 text the source stores. */
  datatype Task = Task(id: int, text: string, completed: bool, createdAt: string)

  /** The filter selector. */
  datatype View = All | Active | Completed

  /** The three counters shown under the list. */
  datatype Counts = Counts(totalTasks: nat, completedTasks: nat, activeTasks: int)

  const BLANK_TASK_ERROR: string := "Por favor, digite uma tarefa válida"

  /** The characters `String.prototype.trim` removes: ECMAScript white
      space and line terminators. */
  predicate IsWhitespace(c: char) {
    || c == '\t' || c == '\n' || c == '\U{B}' || c == '\U{C}' || c == '\r'
    || c == ' ' || c == '\U{A0}' || c == '\U{1680}'
    || ('\U{2000}' <= c <= '\U{200A}')
    || c == '\U{2028}' || c == '\U{2029}' || c == '\U{202F}' || c == '\U{205F}'
    || c == '\U{3000}' || c == '\U{FEFF}'
  }

  predicate IsBlank(s: string) {
    forall i :: 0 <= i < |s| ==> IsWhitespace(s[i])
  }

  lemma BlankCons(c: char, s: string)
    requires IsWhitespace(c) && IsBlank(s)
    ensures IsBlank([c] + s)
  {
    var t := [c] + s;
    forall i | 0 <= i < |t| ensures IsWhitespace(t[i]) {
      if i > 0 { assert t[i] == s[i - 1]; }
    }
  }

  lemma BlankSnoc(s: string, c: char)
    requires IsBlank(s) && IsWhitespace(c)
    ensures IsBlank(s + [c])
  {
    var t := s + [c];
    forall i | 0 <= i < |t| ensures IsWhitespace(t[i]) {
      if i < |s| { assert t[i] == s[i]; }
    }
  }

  /** Leading white space removed. */
  function TrimStart(s: string): (r: string)
    ensures |r| <= |s| && r == s[|s| - |r|..]
    ensures IsBlank(s[..|s| - |r|])
    ensures r == [] || !IsWhitespace(r[0])
  {
    if s != [] && IsWhitespace(s[0]) then
      var r := TrimStart(s[1..]);
      var head := s[1..][..|s| - 1 - |r|];
      assert r == s[|s| - |r|..];
      assert s[..|s| - |r|] == [s[0]] + head;
      BlankCons(s[0], head);
      r
    else s
  }

  /** Trailing white space removed. */
  function TrimEnd(s: string): (r: string)
    ensures |r| <= |s| && r == s[..|r|]
    ensures IsBlank(s[|r|..])
    ensures r == [] || !IsWhitespace(r[|r| - 1])
  {
    if s != [] && IsWhitespace(s[|s| - 1]) then
      var r := TrimEnd(s[..|s| - 1]);
      var tail := s[..|s| - 1][|r|..];
      assert s[|r|..] == tail + [s[|s| - 1]];
      BlankSnoc(tail, s[|s| - 1]);
      r
    else s
  }

  /** `s.trim()`. */
  function Trim(s: string): string {
    TrimEnd(TrimStart(s))
  }

  /** `s.trim() === ''` exactly when every character of `s` is white space. */
  lemma TrimEmptyIffBlank(s: string)
    ensures Trim(s) == [] <==> IsBlank(s)
  {
    var t := TrimStart(s);
    assert s == s[..|s| - |t|] + t;
    assert t[0..] == t;
  }

  predicate IsDone(t: Task) {
    t.completed
  }

  predicate IsPending(t: Task) {
    !t.completed
  }

  function OtherThan(id: int): Task -> bool {
    (t: Task) => t.id != id
  }

  function Ids(ts: seq<Task>): set<int> {
    set t | t in ts :: t.id
  }

  predicate UniqueIds(ts: seq<Task>) {
    forall i, j :: 0 <= i < j < |ts| ==> ts[i].id != ts[j].id
  }

  /** Appending a task whose id is not yet taken keeps the ids distinct. */
  lemma AppendKeepsUniqueIds(ts: seq<Task>, t: Task)
    requires UniqueIds(ts) && t.id !in Ids(ts)
    ensures UniqueIds(ts + [t])
  {
    var u := ts + [t];
    forall i, j | 0 <= i < j < |u| ensures u[i].id != u[j].id {
      assert u[i] == ts[i];
      if j == |ts| {
        assert ts[i] in ts;
      } else {
        assert u[j] == ts[j];
      }
    }
  }

  /** `tasks.map(...)` in `toggleTaskCompletion`: every task with id `id`
      changes its completion; every other field, every other task and the
      order stay as they were. */
  function Toggled(ts: seq<Task>, id: int): (r: seq<Task>)
    ensures |r| == |ts|
    ensures forall i :: 0 <= i < |ts| ==>
      && r[i].id == ts[i].id && r[i].text == ts[i].text && r[i].createdAt == ts[i].createdAt
      && (r[i].completed != ts[i].completed <==> ts[i].id == id)
    ensures id !in Ids(ts) ==> r == ts
  {
    seq(|ts|, i requires 0 <= i < |ts| =>
      if ts[i].id == id then ts[i].(completed := !ts[i].completed) else ts[i])
  }

  /** Toggling the same id twice gives back the list. */
  lemma ToggleTwice(ts: seq<Task>, id: int)
    ensures Toggled(Toggled(ts, id), id) == ts
  {
    var r := Toggled(Toggled(ts, id), id);
    assert forall i :: 0 <= i < |ts| ==> r[i] == ts[i];
  }

  /** `tasks.filter(task => task.id !== taskId)` in `removeTask`. */
  function Removed(ts: seq<Task>, id: int): seq<Task> {
    Filter(ts, OtherThan(id))
  }

  /** Removal deletes every task with the id and nothing else, keeping the
      order of the rest and each of them as often as before; an unknown id
      changes nothing. */
  lemma RemoveKeepsOthers(ts: seq<Task>, id: int)
    ensures IsSubsequence(Removed(ts, id), ts)
    ensures forall t :: t in Removed(ts, id) <==> t in ts && t.id != id
    ensures id !in Ids(ts) ==> Removed(ts, id) == ts
    ensures forall x :: multiset(Removed(ts, id))[x] == if x.id != id then multiset(ts)[x] else 0
  {
    FilterIsSubsequence(ts, OtherThan(id));
    forall x ensures multiset(Removed(ts, id))[x] == if x.id != id then multiset(ts)[x] else 0 {
      FilterCount(ts, OtherThan(id), x);
    }
    forall t ensures t in Removed(ts, id) <==> t in ts && t.id != id {
      FilterMembers(ts, OtherThan(id), t);
    }
    if id !in Ids(ts) {
      FilterKeepsAll(ts, OtherThan(id));
    }
  }

  /** `tasks.filter(task => !task.completed)` in `clearCompletedTasks`. */
  function ClearedCompleted(ts: seq<Task>): seq<Task> {
    Filter(ts, IsPending)
  }

  /** Clearing keeps exactly the pending tasks, in order, and a second
      clear changes nothing. */
  lemma ClearKeepsPending(ts: seq<Task>)
    ensures IsSubsequence(ClearedCompleted(ts), ts)
    ensures forall t :: t in ClearedCompleted(ts) <==> t in ts && !t.completed
    ensures ClearedCompleted(ClearedCompleted(ts)) == ClearedCompleted(ts)
  {
    FilterIsSubsequence(ts, IsPending);
    forall t ensures t in ClearedCompleted(ts) <==> t in ts && !t.completed {
      FilterMembers(ts, IsPending, t);
    }
    FilterIdempotent(ts, IsPending);
  }

  /** `filteredTasks`. */
  function FilteredTasks(ts: seq<Task>, v: View): seq<Task> {
    match v
    case Active => Filter(ts, IsPending)
    case Completed => Filter(ts, IsDone)
    case All => ts
  }

  /** The active and completed views split the list: together they hold
      every task exactly once. */
  lemma ViewsPartition(ts: seq<Task>)
    ensures multiset(FilteredTasks(ts, Active)) + multiset(FilteredTasks(ts, Completed)) == multiset(ts)
    ensures forall t :: t in FilteredTasks(ts, Active) ==> t !in FilteredTasks(ts, Completed)
    ensures Ids(FilteredTasks(ts, Active)) + Ids(FilteredTasks(ts, Completed)) == Ids(ts)
  {
    FilterPartition(ts, IsPending, IsDone);
    forall t ensures t in FilteredTasks(ts, Active) ==> t !in FilteredTasks(ts, Completed) {
      FilterMembers(ts, IsPending, t);
      FilterMembers(ts, IsDone, t);
    }
    forall t ensures t in ts <==> t in FilteredTasks(ts, Active) || t in FilteredTasks(ts, Completed) {
      FilterMembers(ts, IsPending, t);
      FilterMembers(ts, IsDone, t);
    }
  }

  /** `completedTasks`. */
  function CompletedCount(ts: seq<Task>): nat {
    |Filter(ts, IsDone)|
  }

  /** `activeTasks = totalTasks - completedTasks`. */
  function ActiveCount(ts: seq<Task>): int {
    |ts| - CompletedCount(ts)
  }

  /** The active counter is the size of the active view, so the two
      counters add up to the total and neither is negative. */
  lemma CountersAgree(ts: seq<Task>)
    ensures ActiveCount(ts) == |FilteredTasks(ts, Active)|
    ensures 0 <= ActiveCount(ts) && ActiveCount(ts) + CompletedCount(ts) == |ts|
  {
    FilterPartition(ts, IsPending, IsDone);
  }

  /** Keeping a subsequence of tasks keeps their ids distinct. */
  lemma {:induction false} FilterKeepsUniqueIds(ts: seq<Task>, p: Task -> bool)
    requires UniqueIds(ts)
    ensures UniqueIds(Filter(ts, p))
  {
    if ts != [] {
      var rest := ts[1..];
      assert UniqueIds(rest) by {
        forall i, j | 0 <= i < j < |rest| ensures rest[i].id != rest[j].id {
          assert rest[i] == ts[i + 1] && rest[j] == ts[j + 1];
        }
      }
      FilterKeepsUniqueIds(rest, p);
      if p(ts[0]) {
        var kept := Filter(rest, p);
        var r := [ts[0]] + kept;
        forall j | 1 <= j < |r| ensures r[j].id != ts[0].id {
          FilterMembers(rest, p, r[j]);
          var k :| 0 <= k < |rest| && rest[k] == r[j];
          assert rest[k] == ts[k + 1];
        }
        assert forall i, j :: 1 <= i < j < |r| ==> r[i] == kept[i - 1] && r[j] == kept[j - 1];
      }
    }
  }

  /** The component's state cells: the list, the text box and the error
      line, and the selected filter. */
  class TaskList {
    var tasks: seq<Task>
    var task: string
    var error: string
    var filter: View

    /** Ids identify tasks. */
    ghost predicate Valid()
      reads this
    {
      UniqueIds(tasks)
    }

    constructor ()
      ensures Valid()
      ensures tasks == [] && task == "" && error == "" && filter == All
    {
      tasks := [];
      task := "";
      error := "";
      filter := All;
    }

    /** The text box's `onChange`. */
    method SetTask(text: string)
      modifies this
      ensures task == text
      ensures tasks == old(tasks) && error == old(error) && filter == old(filter)
    {
      task := text;
    }

    method SetFilter(v: View)
      modifies this
      ensures filter == v
      ensures tasks == old(tasks) && task == old(task) && error == old(error)
    {
      filter := v;
    }

    /** `handleAddTask`. The clock readings `Date.now()` and
        `new Date().toISOString()` are the parameters `id` and `createdAt`;
        the clock gives a new id on every add, which `id !in Ids(tasks)`
        states. Blank text is refused with an error and leaves the text box
        as it is; otherwise the text, untrimmed, becomes a new pending task
        at the end, and the box and the error are cleared. */
    method AddTask(id: int, createdAt: string) returns (added: bool)
      requires Valid() && id !in Ids(tasks)
      modifies this
      ensures Valid() && filter == old(filter)
      ensures added <==> !IsBlank(old(task))
      ensures !added ==> tasks == old(tasks) && task == old(task) && error == BLANK_TASK_ERROR
      ensures added ==>
        && tasks == old(tasks) + [Task(id, old(task), false, createdAt)]
        && task == "" && error == ""
    {
      TrimEmptyIffBlank(task);
      if Trim(task) == "" {
        error := BLANK_TASK_ERROR;
        return false;
      }
      var newTask := Task(id, task, false, createdAt);
      AppendKeepsUniqueIds(tasks, newTask);
      tasks := tasks + [newTask];
      task := "";
      error := "";
      added := true;
    }

    /** `toggleTaskCompletion`. */
    method ToggleTaskCompletion(id: int)
      requires Valid()
      modifies this
      ensures Valid() && tasks == Toggled(old(tasks), id)
      ensures task == old(task) && error == old(error) && filter == old(filter)
    {
      tasks := Toggled(tasks, id);
    }

    /** `removeTask`. */
    method RemoveTask(id: int)
      requires Valid()
      modifies this
      ensures Valid() && tasks == Removed(old(tasks), id)
      ensures task == old(task) && error == old(error) && filter == old(filter)
    {
      FilterKeepsUniqueIds(tasks, OtherThan(id));
      tasks := Removed(tasks, id);
    }

    /** `clearCompletedTasks`. */
    method ClearCompletedTasks()
      requires Valid()
      modifies this
      ensures Valid() && tasks == ClearedCompleted(old(tasks))
      ensures task == old(task) && error == old(error) && filter == old(filter)
    {
      FilterKeepsUniqueIds(tasks, IsPending);
      tasks := ClearedCompleted(tasks);
    }

    /** The list shown under the selected filter. */
    function Visible(): (r: seq<Task>)
      reads this
      ensures IsSubsequence(r, tasks)
      ensures filter == Active ==> forall t :: t in r <==> t in tasks && !t.completed
      ensures filter == Completed ==> forall t :: t in r <==> t in tasks && t.completed
      ensures filter == All ==> r == tasks
    {
      FilterIsSubsequence(tasks, IsPending);
      FilterIsSubsequence(tasks, IsDone);
      assert forall t :: t in Filter(tasks, IsPending) <==> t in tasks && !t.completed by {
        forall t ensures t in Filter(tasks, IsPending) <==> t in tasks && !t.completed {
          FilterMembers(tasks, IsPending, t);
        }
      }
      assert forall t :: t in Filter(tasks, IsDone) <==> t in tasks && t.completed by {
        forall t ensures t in Filter(tasks, IsDone) <==> t in tasks && t.completed {
          FilterMembers(tasks, IsDone, t);
        }
      }
      SubsequenceOfItself(tasks);
      FilteredTasks(tasks, filter)
    }

    /** `totalTasks`, `completedTasks` and `activeTasks`. */
    function Counters(): (r: Counts)
      reads this
      ensures r.activeTasks == |FilteredTasks(tasks, Active)|
      ensures r.completedTasks == |FilteredTasks(tasks, Completed)|
      ensures r.completedTasks + r.activeTasks == r.totalTasks == |tasks|
    {
      CountersAgree(tasks);
      Counts(|tasks|, CompletedCount(tasks), ActiveCount(tasks))
    }
  }
}
