/** The task record and the pure list transformations behind the handlers: the
    `filter` of `removeTask`, the `map` of `markTaskAsDone`, the `filter` of `searchTasks`
    and the record built by `createTask`. */
module Tasks {
  import opened Seqs
  import opened Text

  datatype Task = Task(id: int, todo: string, userId: int, completed: bool)

  /** The owner id `createTask` gives every new task. */
  const NewTaskOwner := 1

  /** The task `createTask` appends to a list of `count` tasks: the next sequential id,
      the trimmed text, owner 1, pending. */
  function NewTask(count: nat, text: string): Task
  {
    Task(count + 1, text, NewTaskOwner, false)
  }

  function HasId(id: int): Task -> bool
  {
    (t: Task) => t.id == id
  }

  function OtherId(id: int): Task -> bool
  {
    (t: Task) => t.id != id
  }

  /** Number of tasks carrying `id` (ids are not unique: see `CreateAfterRemoveDuplicatesId`). */
  function CountId(ts: seq<Task>, id: int): nat
  {
    Count(ts, HasId(id))
  }

  /** `allTasks.filter(task => task.id !== id)`. */
  function RemoveById(ts: seq<Task>, id: int): seq<Task>
  {
    Filter(ts, OtherId(id))
  }

  /** Deleting by id: no task with that id survives, every other task survives in its
      original order and unchanged, and the list shrinks by the number of matching tasks. */
  lemma RemoveByIdSpec(ts: seq<Task>, id: int)
    ensures forall i :: 0 <= i < |RemoveById(ts, id)| ==> RemoveById(ts, id)[i].id != id
    ensures forall i :: 0 <= i < |ts| && ts[i].id != id ==> ts[i] in RemoveById(ts, id)
    ensures IsSubseq(RemoveById(ts, id), ts)
    ensures |RemoveById(ts, id)| == |ts| - CountId(ts, id)
  {
    FilterIsSubseq(ts, OtherId(id));
    FilterLength(ts, OtherId(id));
    CountComplement(ts, HasId(id), OtherId(id));
  }

  /** `allTasks.map(task => task.id === id ? { ...task, completed: true } : task)`:
      same length and order; a task with the id is completed with its other fields
      kept, every other task is untouched. */
  function MarkDone(ts: seq<Task>, id: int): (r: seq<Task>)
    ensures |r| == |ts|
    ensures forall i :: 0 <= i < |ts| ==>
      r[i].id == ts[i].id && r[i].todo == ts[i].todo && r[i].userId == ts[i].userId
      && r[i].completed == (ts[i].completed || ts[i].id == id)
    ensures forall i :: 0 <= i < |ts| && ts[i].id != id ==> r[i] == ts[i]
  {
    seq(|ts|, i requires 0 <= i < |ts| => if ts[i].id == id then ts[i].(completed := true) else ts[i])
  }

  /** Marking the same id done twice is the same as once. */
  lemma MarkDoneIdempotent(ts: seq<Task>, id: int)
    ensures MarkDone(MarkDone(ts, id), id) == MarkDone(ts, id)
  {
    var once := MarkDone(ts, id);
    var twice := MarkDone(once, id);
    forall i | 0 <= i < |ts| ensures twice[i] == once[i] {
      assert twice[i].completed == once[i].completed;
    }
  }

  /** Marking done never changes which ids are present, so it never changes what a later
      deletion removes. */
  lemma {:induction false} MarkDoneKeepsCount(ts: seq<Task>, id: int, other: int)
    ensures CountId(MarkDone(ts, id), other) == CountId(ts, other)
  {
    if ts != [] {
      MarkDoneKeepsCount(ts[1..], id, other);
      assert MarkDone(ts, id)[1..] == MarkDone(ts[1..], id);
    }
  }

  /** The `searchTasks` test, for a query that is already lower-cased. */
  function Matching(query: string): Task -> bool
  {
    (t: Task) => Contains(Lower(t.todo), query)
  }

  /** `allTasks.filter(task => task.todo.toLowerCase().includes(query))`. */
  function Search(ts: seq<Task>, query: string): seq<Task>
  {
    Filter(ts, Matching(query))
  }

  /** A search keeps, in order and unchanged, exactly the tasks whose lower-cased text
      includes the query, each as often as it occurs. */
  lemma SearchSpec(ts: seq<Task>, query: string)
    ensures forall i :: 0 <= i < |Search(ts, query)| ==>
      Search(ts, query)[i] in ts && Contains(Lower(Search(ts, query)[i].todo), query)
    ensures forall i :: 0 <= i < |ts| && Contains(Lower(ts[i].todo), query) ==> ts[i] in Search(ts, query)
    ensures IsSubseq(Search(ts, query), ts)
    ensures |Search(ts, query)| == Count(ts, Matching(query))
  {
    FilterIsSubseq(ts, Matching(query));
    FilterLength(ts, Matching(query));
  }

  /** Searching the result of a search for the same query gives it back unchanged. */
  lemma SearchIdempotent(ts: seq<Task>, query: string)
    ensures Search(Search(ts, query), query) == Search(ts, query)
  {
    FilterIdempotent(ts, Matching(query));
  }

  /** The empty query matches every task, so the `!searchValue` branch of `searchTasks`,
      which stores the whole list, agrees with filtering by it. */
  lemma SearchEmptyKeepsAll(ts: seq<Task>)
    ensures Search(ts, []) == ts
  {
    forall i | 0 <= i < |ts| ensures Matching([])(ts[i]) {
      ContainsEmpty(Lower(ts[i].todo));
    }
    FilterKeepsAll(ts, Matching([]));
  }

  /** Ids are assigned as length + 1, so deleting a task and creating one can repeat an id
      that is still in use: from tasks 1, 2, 3, deleting 2 and creating gives a second 3. */
  lemma CreateAfterRemoveDuplicatesId()
    ensures var ts := [Task(1, "a", 1, false), Task(2, "b", 1, false), Task(3, "c", 1, false)];
      var after := RemoveById(ts, 2) + [NewTask(|RemoveById(ts, 2)|, "d")];
      CountId(after, 3) == 2
  {
    var ts := [Task(1, "a", 1, false), Task(2, "b", 1, false), Task(3, "c", 1, false)];
    var kept := RemoveById(ts, 2);
    assert ts[1..] == [ts[1], ts[2]];
    assert ts[1..][1..] == [ts[2]];
    assert kept == [ts[0], ts[2]];
    var after := kept + [NewTask(|kept|, "d")];
    assert after[1..] == [ts[2], NewTask(2, "d")];
    assert after[1..][1..] == [NewTask(2, "d")];
    assert after[1..][1..][1..] == [];
    assert Count(after[1..][1..], HasId(3)) == 1;
    assert Count(after[1..], HasId(3)) == 2;
  }
}
