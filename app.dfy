/** The task-list application state: the module globals of the page script as the fields
    of one object, and each event handler as a method on it. */
module App {
  import opened Wrappers
  import opened Text
  import opened Tasks
  import opened Paging

  /** What `displayPage` puts in the table body: the placeholder row when no page link is
      rendered, otherwise the page's rows and the disabled state of the two arrows. */
  datatype PageView = NoTasksFound | Rows(tasks: seq<Task>, prevDisabled: bool, nextDisabled: bool)

  class TaskApp {
    /** The in-memory task list. */
    var allTasks: seq<Task>
    /** The `tasks` key of local storage; `None` while the key is absent. */
    var store: Option<seq<Task>>
    var currentPageNumber: int
    var startVisiblePage: int
    var endVisiblePage: int
    /** How many page links (`ul li`) the last `renderPagination` created. */
    var linkCount: nat

    /** The pager state held in the three page globals. */
    function Window(): Pager
      reads this
    {
      Pager(currentPageNumber, startVisiblePage, endVisiblePage)
    }

    /** Links are only ever rendered from a stored snapshot, and the window stays well formed. */
    ghost predicate Valid()
      reads this
    {
      WindowOk(Window()) && (linkCount > 0 ==> store.Some?)
    }

    /** The script's initial globals, with whatever local storage held when the page opened. */
    constructor (saved: Option<seq<Task>>)
      ensures Valid()
      ensures allTasks == [] && store == saved && Window() == InitialPager && linkCount == 0
    {
      allTasks := [];
      store := saved;
      currentPageNumber := 1;
      startVisiblePage := 0;
      endVisiblePage := VisiblePageLimit - 1;
      linkCount := 0;
    }

    /** `loadTasks`, with `remote` the list the endpoint returned: a stored snapshot wins
        and is not rewritten; without one, the remote list becomes both the in-memory list
        and the snapshot. Either way the two agree afterwards. */
    method LoadTasks(remote: seq<Task>)
      requires Valid()
      modifies this`allTasks, this`store
      ensures Valid()
      ensures old(store).Some? ==> allTasks == old(store).value && store == old(store)
      ensures old(store).None? ==> allTasks == remote
      ensures store == Some(allTasks)
    {
      var storedTasks := if store.Some? then store.value else remote;
      allTasks := storedTasks;
      if store.None? {
        store := Some(storedTasks);
      }
    }

    /** `renderPagination`: one link per page of the snapshot. */
    method RenderPagination()
      requires Valid() && store.Some?
      modifies this`linkCount
      ensures Valid()
      ensures linkCount == TotalPages(|store.value|)
    {
      linkCount := TotalPages(|store.value|);
    }

    /** `displayPage(p)`: makes `p` the current page and renders its slice of the snapshot. */
    method DisplayPage(p: int) returns (view: PageView)
      requires Valid() && p >= 1
      modifies this`currentPageNumber
      ensures Valid() && Window() == Show(old(Window()), p)
      ensures linkCount == 0 ==> view == NoTasksFound
      ensures linkCount > 0 ==> view.Rows? && view.tasks == PageSlice(store.value, p)
      ensures linkCount > 0 ==> view.prevDisabled == (p == 1) && view.nextDisabled == (p == TotalPages(|store.value|))
    {
      currentPageNumber := p;
      if linkCount == 0 {
        return NoTasksFound;
      }
      var tasks := store.value;
      var totalPages := TotalPages(|tasks|);
      view := Rows(PageSlice(tasks, p), p == 1, p == totalPages);
    }

    /** The `DOMContentLoaded` handler: load, render the links, show the current page. */
    method Open(remote: seq<Task>) returns (view: PageView)
      requires Valid()
      modifies this
      ensures Valid()
      ensures old(store).Some? ==> allTasks == old(store).value
      ensures old(store).None? ==> allTasks == remote
      ensures store == Some(allTasks) && linkCount == TotalPages(|allTasks|)
      ensures Window() == old(Window())
      ensures linkCount == 0 ==> view == NoTasksFound
      ensures linkCount > 0 ==> view == Rows(PageSlice(allTasks, currentPageNumber),
        currentPageNumber == 1, currentPageNumber == linkCount)
    {
      LoadTasks(remote);
      RenderPagination();
      view := DisplayPage(currentPageNumber);
    }

    /** `createTask`: blank text (after trimming) is refused and changes nothing; otherwise
        one pending task with id `length + 1` and the trimmed text is appended, the snapshot
        is overwritten with the new list, and the pager returns to page 1. */
    method CreateTask(input: string) returns (accepted: bool)
      requires Valid()
      modifies this
      ensures Valid()
      ensures accepted <==> Trim(input) != []
      ensures !accepted ==> unchanged(this)
      ensures accepted ==> allTasks == old(allTasks) + [NewTask(|old(allTasks)|, Trim(input))]
      ensures accepted ==> store == Some(allTasks) && linkCount == TotalPages(|allTasks|)
      ensures accepted ==> Window() == Show(old(Window()), 1)
    {
      var taskText := Trim(input);
      if taskText == [] {
        return false;
      }
      var newTask := NewTask(|allTasks|, taskText);
      allTasks := allTasks + [newTask];
      store := Some(allTasks);
      RenderPagination();
      var view := DisplayPage(1);
      accepted := true;
    }

    /** `removeTask`: filters the id out, overwrites the snapshot, reloads (the snapshot
        now exists, so `remote` is ignored) and returns to page 1. */
    method RemoveTask(id: int, remote: seq<Task>)
      requires Valid()
      modifies this
      ensures Valid()
      ensures allTasks == RemoveById(old(allTasks), id) && store == Some(allTasks)
      ensures linkCount == TotalPages(|allTasks|) && Window() == Show(old(Window()), 1)
    {
      allTasks := RemoveById(allTasks, id);
      store := Some(allTasks);
      LoadTasks(remote);
      RenderPagination();
      var view := DisplayPage(1);
    }

    /** `markTaskAsDone`: completes the tasks with the id, overwrites the snapshot, reloads
        and re-renders the current page; the links and the pager are untouched. */
    method MarkTaskAsDone(id: int, remote: seq<Task>)
      requires Valid()
      modifies this
      ensures Valid()
      ensures allTasks == MarkDone(old(allTasks), id) && store == Some(allTasks)
      ensures linkCount == old(linkCount) && Window() == old(Window())
    {
      allTasks := MarkDone(allTasks, id);
      store := Some(allTasks);
      LoadTasks(remote);
      var view := DisplayPage(currentPageNumber);
    }

    /** `searchTasks`: never touches the in-memory list; an empty query stores the whole
        list, any other stores the tasks whose lower-cased text includes the lower-cased
        query. The links are re-rendered from the snapshot and the pager returns to page 1. */
    method SearchTasks(input: string)
      requires Valid()
      modifies this`store, this`linkCount, this`currentPageNumber
      ensures Valid()
      ensures input == [] ==> store == Some(allTasks)
      ensures input != [] ==> store == Some(Search(allTasks, Lower(input)))
      ensures linkCount == TotalPages(|store.value|) && Window() == Show(old(Window()), 1)
    {
      var searchValue := Lower(input);
      if searchValue == [] {
        store := Some(allTasks);
      } else {
        var filtered := Search(allTasks, searchValue);
        store := Some(filtered);
      }
      RenderPagination();
      var view := DisplayPage(1);
    }

    /** `nextPage`; the page count comes from the in-memory list, not from the snapshot. */
    method NextPage()
      requires Valid()
      modifies this`currentPageNumber, this`startVisiblePage, this`endVisiblePage
      ensures Valid() && Window() == Next(old(Window()), TotalPages(|allTasks|))
    {
      var total := TotalPages(|allTasks|);
      if currentPageNumber < total {
        currentPageNumber := currentPageNumber + 1;
        var view := DisplayPage(currentPageNumber);
        if currentPageNumber > endVisiblePage + 1 {
          startVisiblePage := startVisiblePage + 1;
          endVisiblePage := endVisiblePage + 1;
        }
      }
    }

    /** `prevPage`. */
    method PrevPage()
      requires Valid()
      modifies this`currentPageNumber, this`startVisiblePage, this`endVisiblePage
      ensures Valid() && Window() == Prev(old(Window()))
    {
      if currentPageNumber > 1 {
        currentPageNumber := currentPageNumber - 1;
        var view := DisplayPage(currentPageNumber);
        if currentPageNumber < startVisiblePage + 1 {
          startVisiblePage := startVisiblePage - 1;
          endVisiblePage := endVisiblePage - 1;
        }
      }
    }
  }

  /** A search followed by a page reload: the reloaded page finds the filtered snapshot in
      storage and takes it for the whole list; the remote list is ignored. An empty query
      stored the whole list, which is also what filtering by it keeps. */
  method SearchThenReload(app: TaskApp, query: string, remote: seq<Task>) returns (reloaded: TaskApp)
    requires app.Valid()
    modifies app
    ensures reloaded.Valid()
    ensures reloaded.allTasks == Search(old(app.allTasks), Lower(query))
  {
    SearchEmptyKeepsAll(app.allTasks);
    app.SearchTasks(query);
    reloaded := new TaskApp(app.store);
    var view := reloaded.Open(remote);
  }
}
