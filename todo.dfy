/** The to-do list operations of app.js (`TODO`): lookup, toggling and deletion. */
module Todo {
  import opened Wrappers
  import opened Data

  /** The index of the first task with `id`, as `Array.prototype.find` would pick it. */
  function FirstWith(todos: seq<Task>, id: int): (r: Option<nat>)
    ensures r.None? <==> forall j :: 0 <= j < |todos| ==> todos[j].id != id
    ensures r.Some? ==> r.value < |todos| && todos[r.value].id == id &&
                        forall j :: 0 <= j < r.value ==> todos[j].id != id
  {
    if todos == [] then None
    else if todos[0].id == id then Some(0)
    else match FirstWith(todos[1..], id)
      case None => None
      case Some(k) => Some(k + 1)
  }

  /** `todos.find(t => t.id === id)`, as a search from the front. */
  method FindTask(todos: seq<Task>, id: int) returns (r: Option<nat>)
    ensures r == FirstWith(todos, id)
  {
    var i := 0;
    while i < |todos|
      invariant 0 <= i <= |todos|
      invariant forall j :: 0 <= j < i ==> todos[j].id != id
    {
      if todos[i].id == id {
        return Some(i);
      }
      i := i + 1;
    }
    return None;
  }

  /** The list after `toggleDone(id)`: the first task with `id` has `done` flipped in
      place; if that makes a recurring task done, one fresh undone recurring copy with
      the same text is appended under `newId`.  An unknown `id` changes nothing. */
  function Toggled(todos: seq<Task>, id: int, newId: int): (r: seq<Task>)
    ensures FirstWith(todos, id).None? ==> r == todos
    ensures FirstWith(todos, id).Some? ==>
      var i := FirstWith(todos, id).value;
      var respawn := !todos[i].done && todos[i].isRecurring;
      && |r| == |todos| + (if respawn then 1 else 0)
      && r[i] == todos[i].(done := !todos[i].done)
      && (forall j :: 0 <= j < |todos| && j != i ==> r[j] == todos[j])
      && (respawn ==> r[|todos|] == Task(newId, todos[i].text, false, true))
  {
    match FirstWith(todos, id)
    case None => todos
    case Some(i) =>
      var task := todos[i].(done := !todos[i].done);
      var flipped := todos[i := task];
      if task.done && task.isRecurring then flipped + [Task(newId, task.text, false, true)] else flipped
  }

  /** `todos.filter(t => t.id !== id)`. */
  function Without(todos: seq<Task>, id: int): (r: seq<Task>)
    ensures |r| <= |todos|
    ensures forall t :: t in r <==> t in todos && t.id != id
    ensures (forall j :: 0 <= j < |todos| ==> todos[j].id != id) ==> r == todos
  {
    if todos == [] then []
    else if todos[0].id == id then Without(todos[1..], id)
    else [todos[0]] + Without(todos[1..], id)
  }

  /** Deletion keeps the order of what remains: filtering distributes over concatenation. */
  lemma {:induction false} WithoutConcat(a: seq<Task>, b: seq<Task>, id: int)
    ensures Without(a + b, id) == Without(a, id) + Without(b, id)
  {
    if a == [] {
      assert a + b == b;
    } else {
      assert (a + b)[1..] == a[1..] + b;
      WithoutConcat(a[1..], b, id);
    }
  }

  /** A task survives as many times as it occurs, unless it carries `id`. */
  lemma {:induction false} WithoutCount(todos: seq<Task>, id: int, t: Task)
    ensures multiset(Without(todos, id))[t] == if t.id == id then 0 else multiset(todos)[t]
  {
    if todos != [] {
      WithoutCount(todos[1..], id, t);
      assert todos == [todos[0]] + todos[1..];
    }
  }
}
