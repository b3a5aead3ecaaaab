# Task list state model

A Dafny model of the state logic of a browser task-list page (`script.js`). The page keeps
an in-memory list of tasks, mirrors it into the `tasks` key of local storage (the
*snapshot*), and shows the snapshot in pages of 5 rows with a sliding window of 7 page
links. The model pulls the page's module globals into one class, `App.TaskApp`, whose
methods are the event handlers (`loadTasks`, `createTask`, `removeTask`,
`markTaskAsDone`, `searchTasks`, `nextPage`, `prevPage`, `displayPage`,
`renderPagination`). The pure pieces underneath are functions with lemmas:

- `Seqs`: the order-preserving `filter` behind deletion and search. It comes with a
  subsequence predicate, counting, idempotence and "keeps all".
- `Text`: `trim`, `toLowerCase` and `includes` on `seq<char>`.
- `Tasks`: the task record, delete-by-id, mark-done and search.
- `Paging`: the page count `ceil(n/5)`, page slices, the link-visibility predicate, and
  the pager step functions `Next`, `Prev` and `Show`. The class methods are proved equal
  to these functions.

Remote data is an input. `LoadTasks`, `RemoveTask` and `MarkTaskAsDone` take the list the
remote endpoint would have returned. Each handler runs atomically, one after another.

Kept as the code has them:
- Ids are `length + 1`, so they can repeat after a delete (`Tasks.CreateAfterRemoveDuplicatesId`).
- `nextPage` counts pages from the in-memory list, while rendering counts from the snapshot.
- `displayPage()` with no argument goes back to page 1 without moving the window, which
  can hide the current page's link (`Paging.ResetCanHideCurrent`).
- A search overwrites the snapshot, and a reload then takes the filtered list as the
  whole list (`App.SearchThenReload`).

The task fields are named as in the code: `todo`, `userId`.

## Model

| member | source | states |
|---|---|---|
| Seqs.Filter | script.js:150 | the filtered list holds only elements satisfying the predicate, holds every element of the input that satisfies it, and is no longer than the input |
| Seqs.FilterIsSubseq | script.js:150 | filtering keeps survivors unchanged and in their original relative order |
| Seqs.FilterLength | script.js:150 | the filtered list has exactly as many elements as satisfy the predicate |
| Seqs.CountComplement | script.js:150 | elements failing a predicate number the length minus those satisfying it |
| Seqs.FilterIdempotent | script.js:174-177 | filtering twice with the same predicate equals filtering once |
| Seqs.FilterKeepsAll | script.js:171-172 | a predicate true of every element keeps the whole list |
| Text.TrimStart | script.js:34 | the result is the suffix of the input after a run of white space and does not start with white space |
| Text.TrimEnd | script.js:34 | the result is the prefix of the input before a run of white space and does not end with white space |
| Text.TrimEmptyIffBlank | script.js:34-35 | the trimmed text is empty iff every input character is white space, in both directions |
| Text.TrimIsCore | script.js:34 | the trimmed text occurs in the input and neither starts nor ends with white space |
| Text.LowerIsLower | script.js:170 | lower-casing leaves no ASCII capital and is idempotent |
| Text.ContainsIffOccurrence | script.js:175 | `includes` holds iff the query is a prefix of some suffix of the text, in both directions |
| Text.ContainsEmpty | script.js:171-175 | every text includes the empty query |
| Tasks.RemoveByIdSpec | script.js:150 | after deleting an id, no task with it remains; every other task remains, unchanged and in order; the length drops by the number of tasks with that id |
| Tasks.MarkDone | script.js:160-162 | same length and order; each task keeps id, text and owner, and is completed iff it was already or has the id; tasks with other ids are untouched |
| Tasks.MarkDoneIdempotent | script.js:160-162 | marking the same id done twice equals marking it once |
| Tasks.MarkDoneKeepsCount | script.js:160-162 | marking done never changes how many tasks carry any id |
| Tasks.SearchSpec | script.js:174-176 | a search keeps exactly the tasks whose lower-cased text includes the query, unchanged, in order, and as many as match (repeats included) |
| Tasks.SearchIdempotent | script.js:174-177 | searching a search result for the same query gives it back |
| Tasks.SearchEmptyKeepsAll | script.js:171-176 | the empty query matches every task, so the empty-query branch agrees with filtering |
| Tasks.CreateAfterRemoveDuplicatesId | script.js:38 | from ids 1,2,3, deleting 2 and creating yields two tasks with id 3 |
| Paging.TotalPages | script.js:72 | the page count is the least number of 5-item pages that hold n items, i.e. ceil(n/5) |
| Paging.PageSliceSpec | script.js:76-77 | page p has at most 5 items, read in order from index (p-1)*5, and is non-empty iff p is at most the page count |
| Paging.LastPageSize | script.js:72-77 | the last page holds n mod 5 items, or 5 when n is a positive multiple of 5 |
| Paging.PagesArePrefix | script.js:76-77 | pages 1..k joined are the first min(5k, n) items |
| Paging.PagesCoverAll | script.js:107-113 | pages 1..ceil(n/5) joined are the whole snapshot |
| Paging.ShownLinksCount | script.js:117-121 | the displayed links are the run from the window start to min(end, last link), with that many members |
| Paging.ShownAtMostLimit | script.js:117-121 | a well-formed window never displays more than 7 links |
| Paging.NextSpec | script.js:124-135 | next page adds exactly one when a later page exists and otherwise changes nothing; the window moves forward by at most one, keeps width 7, and keeps the current link visible |
| Paging.PrevSpec | script.js:137-147 | previous page subtracts exactly one above page 1 and otherwise changes nothing; the window moves back by at most one, never below link 0, keeps width 7, and keeps the current link visible |
| Paging.FollowLink | script.js:111 | following a displayed link of an existing page keeps that page's link displayed and shows a slice of 1 to 5 items |
| Paging.ResetCanHideCurrent | script.js:55 | with nine pages, seven next-page steps then the page-1 reset leave page 1's link hidden |
| App.TaskApp.constructor | script.js:1-6 | initial globals: empty list, page 1, window of links 0 to 6, snapshot as found |
| App.TaskApp.LoadTasks | script.js:15-23 | a stored snapshot wins and is not rewritten; otherwise the remote list becomes list and snapshot; afterwards the snapshot equals the list |
| App.TaskApp.RenderPagination | script.js:104-115 | one page link per page of the snapshot |
| App.TaskApp.DisplayPage | script.js:59-102 | sets the current page and leaves the window alone; with no links shows the placeholder, otherwise that page's slice of the snapshot, the previous arrow disabled on page 1 and the next arrow on the last page |
| App.TaskApp.Open | script.js:8-13 | after opening, the list is the stored snapshot or else the remote list, the snapshot equals it, there is one link per page, and the first render is the placeholder when there are no links, otherwise the current page's slice with its arrow states |
| App.TaskApp.CreateTask | script.js:32-57 | blank text is refused and changes nothing; otherwise one pending task with id length+1 and the trimmed text is appended, the snapshot equals the new list, and the page returns to 1 |
| App.TaskApp.RemoveTask | script.js:149-157 | the list becomes the id-filtered list, the snapshot equals it, the links are re-rendered and the page returns to 1 |
| App.TaskApp.MarkTaskAsDone | script.js:159-167 | the list becomes the marked list, the snapshot equals it, and links and pager are unchanged |
| App.TaskApp.SearchTasks | script.js:169-182 | the list is untouched; an empty query stores the whole list, any other stores the matching tasks; links follow the snapshot and the page returns to 1 |
| App.TaskApp.NextPage | script.js:124-135 | the pager moves exactly as `Paging.Next` with the page count of the in-memory list |
| App.TaskApp.PrevPage | script.js:137-147 | the pager moves exactly as `Paging.Prev` |
| App.SearchThenReload | script.js:18-22 | after a search and a reload, the list is the filtered subset (the whole list for an empty query), whatever the remote list is |

## Left out

- Network calls (GET, POST and DELETE to the remote endpoint) are not modelled. The GET
  result is a parameter `remote`; the POST and DELETE results are ignored by the code.
- Every request is assumed to succeed. A rejected request would end the handler early:
  a failed POST stops `createTask` before the task is appended (script.js:44-50), and a
  failed GET stops `loadTasks` before the list is assigned, even when a snapshot exists
  (script.js:16-19). Those early exits are not modelled.
- JSON serialisation of the snapshot is not modelled: it is an abstract `Option<seq<Task>>`.
  A corrupt stored value, which would make `JSON.parse` throw, is not modelled.
- All DOM work is left out: HTML strings, the `selected` class on the current link, the
  modal (`openModal`, `closeModal`), clearing the input box, and the footer total.
  `renderTaskCount` only displays the snapshot's length.
- `handleDropdownAction` is a UI dispatcher. It only calls `removeTask` or
  `markTaskAsDone`, which are modelled.
- Text.Lower: maps only the ASCII letters A–Z; Unicode case mapping is not modelled.
- Handlers are modelled as running atomically and in sequence. Interleavings of the async
  handlers are not modelled.
- `searchTasks` reads the search box through optional chaining. The model takes the box
  as always present: a missing box reads as the empty query.
