# Course structure reordering and input validation, in Dafny

This project models two parts of a course-authoring admin console.

**The course-structure editor.** It holds an ordered tree in its `items`
state: chapters, each with an ordered list of lessons. When a chapter or
lesson is dropped, it computes the new order with an array-move and
renumbers the affected scope 1..N. It installs the new tree at once, keeps
the pre-drag tree, and builds a `{id, position}` request for the server. It
restores the pre-drag tree when the request fails or does not answer
`"success"`. A separate handler expands or collapses one chapter.

**The input validators.** The course schema sets length bounds, numeric
bounds and enum membership for each field of a course. The upload schema
sets the type and bounds of a presigned-upload request.

Files:

- `wrappers.dfy`: `Option` and `Result`.
- `sequences.dfy`: `IndexOf`, which is `findIndex` over a sequence of keys. `ArrayMove`, which is the drag-and-drop library's `arrayMove`, with its element-by-element characterisation, undo, identity and permutation lemmas.
- `course_structure.dfy`: the tree and the database snapshot it is seeded from. The pure reorder, renumber, payload and toggle functions, with their lemmas. The class `StructureStore`, whose `items` field the methods `HandleDragEnd`, `Settle` and `ToggleChapter` replace.
- `validator.dfy`: the enum constants, the course and upload checks with their messages, the reference predicates `ValidCourse` and `ValidUpload`, and the issue-listing functions.
- `scenarios.dfy`: worked drags replayed through the editor's contracts. These are c3 dropped on c1, l1 dropped on l3, a cross-chapter lesson drag, and a rollback after a later drag.

Modelling choices:

- Ids and titles are strings. `order` and `position` are unbounded integers.
- A drag event is `DragEvent(active, over)`. Each item carries its id, its kind (`ChapterKind`, `LessonKind`, or `NoKind` when it carries no type) and an optional chapter id.
- The handler's result is `Ignored`, `Rejected(error)` or `Reordered(request, previous)`. Each error carries the message the user is shown.
- The JavaScript "falsy" tests on ids (`!targetChapterId`, `!chapterId`) treat both a missing id and the empty string as missing. So does the `if (courseId)` guard: with an empty course id the tree is still reordered, but no request is built (`request == None`).
- The persistence call is not modelled. Its settling is the method `Settle(request, previous, response)`. The response is either `Thrown` (the call failed) or `Resolved(status, message)`. Any status other than `"success"` makes the success callback throw, which runs the error callback, so both cases roll back.
- A lesson drag whose chapter is no longer in the tree is modelled as an explicit error, `Rejected(ChapterNotFound)`, with the tree unchanged. The code as written does not return at that point; see "## Findings".
- The initial tree keeps the stored positions and the row order the query returned. The query asks for no ordering, so orders equal index + 1 only after the first successful reorder (`InitialItemsKeepFetchedOrder`). Likewise, dropping a chapter on one of its own lessons moves it nowhere. That leaves the tree unchanged only when it was already numbered 1..N (`ChapterReorderSameIndex`). It is not an unconditional identity.
- An empty reorder list is refused by the server actions, not by the editor. The editor has already installed its tree by then, and it rolls back when the action answers `"error"`.
- Prices, durations and file sizes are `real`, as the JavaScript numbers are after coercion. NaN and the infinities are not represented.

## Model

| member | source | states |
|---|---|---|
| `Sequences.IndexOf` | components/shared/admin/courses/CourseStructure.tsx:93-94 | the result is -1 exactly when the key is absent; otherwise it is the index of the first occurrence of the key |
| `Sequences.ArrayMove` | components/shared/admin/courses/CourseStructure.tsx:102 | the result has the input's length, and the moved element is at the target index |
| `Sequences.ArrayMoveAt` | components/shared/admin/courses/CourseStructure.tsx:102 | element by element: the moved element lands at `to`, the elements between `from` and `to` shift one place towards `from`, and all others stay put |
| `Sequences.ArrayMoveUndo` | components/shared/admin/courses/CourseStructure.tsx:102 | moving from `to` back to `from` restores the original sequence |
| `Sequences.ArrayMoveSameIndex` | components/shared/admin/courses/CourseStructure.tsx:102 | a move onto the same index changes nothing |
| `Sequences.ArrayMovePermutes` | components/shared/admin/courses/CourseStructure.tsx:102 | an array-move is a permutation: the multiset of elements is unchanged |
| `CourseStructure.InitialItems` | components/shared/admin/courses/CourseStructure.tsx:51-62 | one chapter per fetched row, in fetched order, all collapsed, with the row's id, title and stored position as its order. Its lessons are the row's lessons in fetched order, each with its id, title and stored position. The chapters are numbered 1..N exactly when the stored positions already were |
| `CourseStructure.InitialItemsKeepFetchedOrder` | app/data/admin/admin-get-course.ts:26-41 | an example: rows c2 (position 2) then c1 (position 1), fetched in that order, give a tree not numbered 1..N. The general statement is the last ensures of `InitialItems` |
| `CourseStructure.RenumberChapters` | components/shared/admin/courses/CourseStructure.tsx:104-109 | every chapter's order becomes its index + 1; nothing else in any chapter changes |
| `CourseStructure.RenumberLessons` | components/shared/admin/courses/CourseStructure.tsx:180-183 | every lesson's order becomes its index + 1; nothing else changes |
| `CourseStructure.ChapterReorderShape` | components/shared/admin/courses/CourseStructure.tsx:102-113 | a chapter reorder keeps the length, numbers the chapters 1..N, and orders the ids as the array-move of the old ids (the same multiset). Each position holds the chapter that the move puts there, with only its order changed |
| `CourseStructure.ApplyChapterReorder` | components/shared/admin/courses/CourseStructure.tsx:102-109 | the tree after a chapter drag keeps its length, is numbered 1..N, and holds the moved chapter at the target index with only its order changed; `ChapterReorderShape` gives every other position |
| `CourseStructure.ApplyLessonReorder` | components/shared/admin/courses/CourseStructure.tsx:174-190 | the tree after a lesson drag keeps its length; the chosen chapter's lessons keep their count, are numbered 1..M, and hold the moved lesson at the target index with only its order changed; `LessonReorderIsLocal` and `LessonReorderShape` give the rest |
| `CourseStructure.ChapterRequest` | components/shared/admin/courses/CourseStructure.tsx:115-122 | no request exactly when the course id is empty; otherwise a chapter request for that course listing every chapter's id and order, in tree order |
| `CourseStructure.LessonRequest` | components/shared/admin/courses/CourseStructure.tsx:196-203 | no request exactly when the course id is empty; otherwise a lesson request for that chapter and course listing every lesson's id and order, in list order |
| `CourseStructure.TargetChapter` | components/shared/admin/courses/CourseStructure.tsx:80-86 | a chapter drag targets the chapter dropped on, the chapter id carried by a lesson dropped on, or nothing for an item without a kind; `HandleDragEnd` reports `UnresolvedChapter` when this is missing or empty |
| `CourseStructure.SameChapter` | components/shared/admin/courses/CourseStructure.tsx:141-144 | a lesson drag may proceed exactly when the dragged lesson names a non-empty chapter id and the lesson dropped on names the same one; `HandleDragEnd` refuses it with `CrossChapterLesson` otherwise |
| `CourseStructure.ChapterPayloadMatchesTree` | components/shared/admin/courses/CourseStructure.tsx:115-122 | the chapter request names the course and lists every chapter in the new order, with position index + 1 |
| `CourseStructure.LessonReorderIsLocal` | components/shared/admin/courses/CourseStructure.tsx:185-194 | a lesson reorder changes only the chosen chapter's lesson list: every other chapter, and that chapter's id, title, order and open flag, are unchanged |
| `CourseStructure.LessonReorderShape` | components/shared/admin/courses/CourseStructure.tsx:174-183 | the lesson list that a lesson reorder installs keeps the length, is numbered 1..M, and orders the ids as the array-move of the old ids (the same multiset). Each position holds the lesson that the move puts there, with only its order changed |
| `CourseStructure.LessonPayloadMatchesTree` | components/shared/admin/courses/CourseStructure.tsx:196-203 | the lesson request names the chapter and the course, and lists that chapter's lessons in the new order, with position index + 1 |
| `CourseStructure.ChapterReorderUndo` | components/shared/admin/courses/CourseStructure.tsx:102-109 | dragging the moved chapter back to its old index gives the original tree, renumbered 1..N |
| `CourseStructure.ChapterReorderSameIndex` | components/shared/admin/courses/CourseStructure.tsx:82-86 | a reorder onto the chapter's own index, which is what dropping a chapter on one of its own lessons resolves to, leaves a tree already numbered 1..N unchanged |
| `CourseStructure.Toggled` | components/shared/admin/courses/CourseStructure.tsx:222-230 | the open flag flips on exactly the chapters with the given id; every other field of every chapter is unchanged |
| `CourseStructure.ToggleTwice` | components/shared/admin/courses/CourseStructure.tsx:222-230 | toggling the same chapter twice restores the tree |
| `CourseStructure.LessonChapterLookupAsWritten` | components/shared/admin/courses/CourseStructure.tsx:149-161 | as written: when the lesson's chapter is absent, the handler shows the error and then fails reading `lessons` of `items[-1]`; otherwise it proceeds with the chapter's index |
| `CourseStructure.StaleChapterIdThrows` | components/shared/admin/courses/CourseStructure.tsx:155-159 | an example: with a tree holding only c1, a lesson drag naming chapter c2 reaches the TypeError after the toast. The general statement is the first ensures of `LessonChapterLookupAsWritten` |
| `CourseStructure.StructureStore.constructor` | components/shared/admin/courses/CourseStructure.tsx:51-64 | the editor starts with the tree mapped from the fetched snapshot and the course's id |
| `CourseStructure.StructureStore.HandleDragEnd` | components/shared/admin/courses/CourseStructure.tsx:66-220 | With no target, or a drop on itself, nothing happens. A chapter drag targets the chapter dropped on, or the chapter of the lesson dropped on; when that target or either index is missing it reports an error and leaves the tree unchanged. Otherwise the tree becomes the renumbered array-move, with the chapter request. A lesson drag across chapters, or without a chapter id, is refused unchanged, as are a missing chapter and a missing lesson. Otherwise the tree becomes the local lesson reorder, with the lesson request. Any other kind pair is ignored. A reorder returns the exact pre-drag tree; all other results leave the tree unchanged |
| `CourseStructure.StructureStore.Settle` | components/shared/admin/courses/CourseStructure.tsx:124-133 | on status `"success"` the tree stays and the server's message is shown. On any other status, or a failed call, the tree becomes the pre-drag tree captured by that drag, whatever happened since, and "Failed to reorder chapters" (or "lessons", for a lesson request) is shown |
| `CourseStructure.StructureStore.ToggleChapter` | components/shared/admin/courses/CourseStructure.tsx:222-230 | the tree becomes `Toggled` of the old tree |
| `Scenarios.LastChapterToFront` | components/shared/admin/courses/CourseStructure.tsx:102-122 | chapters c1, c2, c3 with c3 dropped on c1 become c3, c1, c2 numbered 1, 2, 3; the request carries (c3,1), (c1,2), (c2,3) |
| `Scenarios.FirstLessonToEnd` | components/shared/admin/courses/CourseStructure.tsx:174-190 | lessons l1, l2, l3 of chapter c1 with l1 dropped on l3 become l2, l3, l1, and chapter c2 is unchanged |
| `Validator.FailingCourseChecks` | lib/validator.ts:19-45 | a check is listed exactly when it is among those examined and it fails |
| `Validator.CourseIssues` | lib/validator.ts:19-45 | every failing check of the course schema contributes its own issue, and only failing ones do. There are no issues exactly when `ValidCourse` holds: title 1..100 characters, non-empty description and file key, price at least 1, duration 1..500, level, category and status from their lists (3, 11 and 3 values), small description 1..100, slug at least 3 |
| `Validator.SmallDescriptionBoundIsHundred` | lib/validator.ts:37-42 | a small description of 101 to 200 characters is refused, and the issue's message speaks of 200 |
| `Validator.FailingUploadChecks` | lib/validator.ts:49-54 | an upload check is listed exactly when it is among those examined and it fails |
| `Validator.ParseUpload` | lib/validator.ts:49-54 | an upload body parses exactly when `ValidUpload` holds: file name and content type are non-empty strings, file size is a number of at least 1, and `isImage` is a boolean. The typed request is then the body's own fields; otherwise every failing check is reported, and there is at least one |
| `Validator.UploadRoundTrip` | lib/validator.ts:49-54 | a request with a file name, a content type and a size of at least 1 parses back from its body unchanged |

## Left out

- Overlapping reorders: several persistence calls may be in flight at once, and each keeps its own pre-drag tree. `Settle` takes that tree as an argument, so a late rollback can overwrite a newer drag, as in the source. Promise interleaving and the asynchronous toasts are not modelled.
- The `reorderChapters` and `reorderLesson` server actions (app/admin/courses/[courseId]/edit/actions.ts) are not part of this model; their answer is the `Response` given to `Settle`. Note that their `catch` blocks answer status `"success"`, so a failed database transaction does not roll the editor back.
- The loading toast text and `console.log(chapterIndex)` are not modelled.
- Drag-and-drop library internals (sensors, collision detection, the sortable item wrapper) are not modelled. `ArrayMove` covers the in-range indices the handler passes; the library's handling of negative indices is never reached.
- The file uploader, the S3 routes and client, authentication and email, the Prisma fetchers, and the presentational pages are I/O or third-party wrappers. The fetcher matters only through the order in which it returns rows, which `InitialItems` keeps.
- Lesson rows' description, thumbnail and video keys are dropped by the tree mapping and are not modelled. So is the dead `|| []` fallback.
- `createCourse` validates and discards the result; nothing is modelled for it.
- Validators: string-to-number coercion of price and duration is not modelled; the checks see the numbers after it. String lengths count characters, not UTF-16 code units, so a character outside the Basic Multilingual Plane counts 1 here and 2 in the source.
- Validators: the default wording of type-mismatch issues comes from the validation library and is not modelled (`UploadCheck.CustomMessage` is `None` for them). An upload body that is not an object, and extra keys, are not modelled.

## Findings

| source | as written | input that shows it | evidently intended | confidence | as-written member | corrected member |
|---|---|---|---|---|---|---|
| components/shared/admin/courses/CourseStructure.tsx:155-159 | when the dragged lesson's chapter is not in the tree, the error toast is shown but the handler does not return; it reads `items[-1].lessons`, which throws a TypeError out of the drag handler | lesson l1 dropped on lesson l2, both rendered with chapter id "c2", while the tree holds only chapter c1 | return after the toast, like every other error branch, with the tree unchanged | not executed; medium | `CourseStructure.LessonChapterLookupAsWritten` (shown by `CourseStructure.StaleChapterIdThrows`) | `CourseStructure.StructureStore.HandleDragEnd` (returns `Rejected(ChapterNotFound)` with the tree unchanged) |
