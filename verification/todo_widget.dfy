/**
 * The task list widget: tasks persisted under `nexus_todos`, added from a
 * text field, toggled and deleted by id, each shown with its creation time.
 */
module TodoWidget {
  import opened Wrappers
  import opened JsText
  import opened ListOps

  datatype Todo = Todo(id: string, text: string, completed: bool, createdAt: int)

  function TodoId(t: Todo): string {
    t.id
  }

  /** A stored task as parsed back; records written by older versions have
      no `createdAt`. */
  datatype SavedTodo = SavedTodo(id: string, text: string, completed: bool, createdAt: Option<int>)

  /** `createdAt || now`: a missing or zero timestamp becomes `now`. */
  function MigratedTime(createdAt: Option<int>, now: int): int {
    if createdAt.Some? && createdAt.value != 0 then createdAt.value else now
  }

  /** The load-time migration. */
  function Migrate(saved: seq<SavedTodo>, now: int): (r: seq<Todo>)
    ensures |r| == |saved|
  {
    seq(|saved|, i requires 0 <= i < |saved| =>
      Todo(saved[i].id, saved[i].text, saved[i].completed, MigratedTime(saved[i].createdAt, now)))
  }

  /** What the persistence effect writes for a task list. */
  function Saved(todos: seq<Todo>): (r: seq<SavedTodo>)
    ensures |r| == |todos|
  {
    seq(|todos|, i requires 0 <= i < |todos| =>
      SavedTodo(todos[i].id, todos[i].text, todos[i].completed, Some(todos[i].createdAt)))
  }

  /** Migration keeps every id, text and state and only fills in missing
      timestamps; loading again what was saved after a migration changes
      nothing, whenever the clock read at the first load was not zero. */
  lemma MigrateSpec(saved: seq<SavedTodo>, now: int, later: int)
    requires now != 0
    ensures var r := Migrate(saved, now);
      && (forall i :: 0 <= i < |saved| ==>
            r[i].id == saved[i].id && r[i].text == saved[i].text && r[i].completed == saved[i].completed)
      && (forall i :: 0 <= i < |saved| && saved[i].createdAt.Some? && saved[i].createdAt.value != 0 ==>
            r[i].createdAt == saved[i].createdAt.value)
      && (forall i :: 0 <= i < |r| ==> r[i].createdAt != 0)
      && Migrate(Saved(r), later) == r
  {
  }

  /** The list with nothing stored yet. */
  function DefaultTodos(now: int): seq<Todo> {
    [Todo("1", "Welcome to your new dashboard", false, now), Todo("2", "Add your first task", false, now)]
  }

  /** The initial list: the migrated stored list, or the two defaults. */
  function InitialTodos(saved: Option<seq<SavedTodo>>, now: int): seq<Todo> {
    match saved
    case Some(s) => Migrate(s, now)
    case None => DefaultTodos(now)
  }

  /** `addTodo`: `None` when the input is blank. */
  function AddTodo(todos: seq<Todo>, input: string, newId: string, now: int): (r: Option<seq<Todo>>)
  {
    if IsBlank(input) then None else Some(todos + [Todo(newId, Trim(input), false, now)])
  }

  /** Adding appends exactly one open task with the trimmed text and keeps
      the rest; the stored text has no surrounding white space and is not
      empty. */
  lemma AddTodoSpec(todos: seq<Todo>, input: string, newId: string, now: int)
    ensures AddTodo(todos, input, newId, now).None? <==> IsBlank(input)
    ensures AddTodo(todos, input, newId, now).Some? ==>
      var r := AddTodo(todos, input, newId, now).value;
      && |r| == |todos| + 1 && r[..|todos|] == todos
      && r[|todos|].id == newId && !r[|todos|].completed && r[|todos|].createdAt == now
      && r[|todos|].text == Trim(input) && r[|todos|].text != "" && IsTrimmed(r[|todos|].text)
  {
    TrimShape(input);
  }

  /** `toggleTodo(id)`. */
  function Toggle(todos: seq<Todo>, id: string): (r: seq<Todo>)
    ensures |r| == |todos|
  {
    seq(|todos|, i requires 0 <= i < |todos| =>
      if todos[i].id == id then todos[i].(completed := !todos[i].completed) else todos[i])
  }

  /** Toggling flips `completed` on the matching tasks and nothing else,
      and toggling the same id twice restores the list. */
  lemma ToggleSpec(todos: seq<Todo>, id: string)
    ensures var r := Toggle(todos, id);
      && (forall i :: 0 <= i < |todos| ==>
            r[i].id == todos[i].id && r[i].text == todos[i].text && r[i].createdAt == todos[i].createdAt)
      && (forall i :: 0 <= i < |todos| ==> (r[i].completed == todos[i].completed <==> todos[i].id != id))
    ensures Toggle(Toggle(todos, id), id) == todos
  {
  }

  /** `HH:MM` for a local hour and minute. */
  function FormatTime(hours: nat, minutes: nat): string {
    PadTwo(hours) + ":" + PadTwo(minutes)
  }

  /** The time is five characters with a colon in the middle, and both
      fields read back as the hour and the minute. */
  lemma FormatTimeSpec(hours: nat, minutes: nat)
    requires hours < 24 && minutes < 60
    ensures var r := FormatTime(hours, minutes);
      && |r| == 5 && r[2] == ':'
      && ParseTwo(r[..2]) == hours && ParseTwo(r[3..]) == minutes
  {
    var r := FormatTime(hours, minutes);
    PadTwoRoundTrip(hours);
    PadTwoRoundTrip(minutes);
    assert r[..2] == PadTwo(hours) && r[3..] == PadTwo(minutes);
  }

  class TodoList {
    var todos: seq<Todo>
    var input: string
    /** What is stored under `nexus_todos`; the effect rewrites it after
        every change of the list. */
    var stored: seq<SavedTodo>

    ghost predicate Valid()
      reads this
    {
      stored == Saved(todos)
    }

    constructor (saved: Option<seq<SavedTodo>>, now: int)
      ensures Valid()
      ensures todos == InitialTodos(saved, now) && input == ""
    {
      todos := InitialTodos(saved, now);
      input := "";
      stored := Saved(InitialTodos(saved, now));
    }

    /** The text field's `onChange`. */
    method SetInput(value: string)
      modifies this
      ensures input == value && todos == old(todos) && stored == old(stored)
    {
      input := value;
    }

    /** `addTodo`, with `newId` and `now` from the id generator and clock. */
    method AddTodoItem(newId: string, now: int)
      requires Valid()
      modifies this
      ensures Valid()
      ensures match AddTodo(old(todos), old(input), newId, now)
        case None => todos == old(todos) && input == old(input)
        case Some(r) => todos == r && input == ""
    {
      if IsBlank(input) {
        return;
      }
      todos := todos + [Todo(newId, Trim(input), false, now)];
      input := "";
      stored := Saved(todos);
    }

    method ToggleTodo(id: string)
      requires Valid()
      modifies this
      ensures Valid()
      ensures todos == Toggle(old(todos), id) && input == old(input)
    {
      todos := Toggle(todos, id);
      stored := Saved(todos);
    }

    /** `deleteTodo(id)`. */
    method DeleteTodo(id: string)
      requires Valid()
      modifies this
      ensures Valid()
      ensures todos == WithoutKey(old(todos), TodoId, id) && input == old(input)
    {
      todos := WithoutKey(todos, TodoId, id);
      stored := Saved(todos);
    }
  }
}
