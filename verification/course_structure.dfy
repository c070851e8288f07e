/**
 * The course-structure editor of the admin console: an ordered tree of
 * chapters, each holding an ordered list of lessons, that a drag-and-drop
 * gesture reorders optimistically. The new order is shown at once, sent to
 * the server as a list of {id, position} pairs, and rolled back to the
 * pre-drag tree if the server does not answer "success".
 */
module CourseStructure {
  import opened Wrappers
  import opened Sequences

  // ---------------------------------------------------------------------
  // The tree held in the editor's `items` state
  // ---------------------------------------------------------------------

  datatype Lesson = Lesson(id: string, title: string, order: int)

  /** `isOpen` is UI-only (collapsed or expanded); it is never persisted. */
  datatype Chapter = Chapter(id: string, title: string, order: int, isOpen: bool, lessons: seq<Lesson>)

  function ChapterId(c: Chapter): string { c.id }
  function LessonId(l: Lesson): string { l.id }

  function ChapterIds(cs: seq<Chapter>): seq<string> { Map(ChapterId, cs) }
  function LessonIds(ls: seq<Lesson>): seq<string> { Map(LessonId, ls) }

  /** Orders are 1, 2, ..., N in sequence order. */
  predicate ChaptersNumbered(cs: seq<Chapter>) {
    forall k :: 0 <= k < |cs| ==> cs[k].order == k + 1
  }

  predicate LessonsNumbered(ls: seq<Lesson>) {
    forall k :: 0 <= k < |ls| ==> ls[k].order == k + 1
  }

  // ---------------------------------------------------------------------
  // The snapshot fetched from the database, and the initial tree
  // ---------------------------------------------------------------------

  datatype LessonRow = LessonRow(id: string, title: string, position: int)
  datatype ChapterRow = ChapterRow(id: string, title: string, position: int, lessons: seq<LessonRow>)
  datatype CourseRow = CourseRow(id: string, chapters: seq<ChapterRow>)

  function ToLesson(row: LessonRow): Lesson {
    Lesson(row.id, row.title, row.position)
  }

  function ToChapter(row: ChapterRow): Chapter {
    Chapter(row.id, row.title, row.position, false, Map(ToLesson, row.lessons))
  }

  /**
   * The `initialItems` mapping: rows in the order the query returned them,
   * every chapter collapsed, orders copied from the stored positions. Since
   * the query asks for no ordering, the orders are numbered 1..N only when the
   * rows happen to arrive that way.
   */
  function InitialItems(rows: seq<ChapterRow>): (r: seq<Chapter>)
    ensures |r| == |rows|
    ensures forall k :: 0 <= k < |r| ==> !r[k].isOpen && r[k].id == rows[k].id
    ensures forall k :: 0 <= k < |r| ==> r[k].title == rows[k].title && r[k].order == rows[k].position
    ensures forall k :: 0 <= k < |r| ==>
      |r[k].lessons| == |rows[k].lessons| &&
      forall j :: 0 <= j < |r[k].lessons| ==>
        r[k].lessons[j] == Lesson(rows[k].lessons[j].id, rows[k].lessons[j].title, rows[k].lessons[j].position)
    ensures ChaptersNumbered(r) <==> forall k :: 0 <= k < |rows| ==> rows[k].position == k + 1
  {
    Map(ToChapter, rows)
  }

  /** A snapshot whose rows come back out of position order gives a tree that is not numbered 1..N. */
  lemma InitialItemsKeepFetchedOrder()
    ensures !ChaptersNumbered(InitialItems([ChapterRow("c2", "Second", 2, []), ChapterRow("c1", "First", 1, [])]))
  {
    var r := InitialItems([ChapterRow("c2", "Second", 2, []), ChapterRow("c1", "First", 1, [])]);
    assert r[0].order == 2;
  }

  // ---------------------------------------------------------------------
  // Renumbering, reordering and the request payload
  // ---------------------------------------------------------------------

  /** The renumbering map: every chapter gets order index + 1, nothing else changes. */
  function RenumberChapters(cs: seq<Chapter>): (r: seq<Chapter>)
    ensures |r| == |cs| && ChaptersNumbered(r)
    ensures forall k :: 0 <= k < |r| ==> r[k].(order := cs[k].order) == cs[k]
  {
    seq(|cs|, k requires 0 <= k < |cs| => cs[k].(order := k + 1))
  }

  /** The renumbering map for the lessons of one chapter. */
  function RenumberLessons(ls: seq<Lesson>): (r: seq<Lesson>)
    ensures |r| == |ls| && LessonsNumbered(r)
    ensures forall k :: 0 <= k < |r| ==> r[k].(order := ls[k].order) == ls[k]
  {
    seq(|ls|, k requires 0 <= k < |ls| => ls[k].(order := k + 1))
  }

  /** The chapter tree after dragging the chapter at `from` to index `to`. */
  function ApplyChapterReorder(cs: seq<Chapter>, from: nat, to: nat): (r: seq<Chapter>)
    requires from < |cs| && to < |cs|
    ensures |r| == |cs| && ChaptersNumbered(r)
    ensures r[to].(order := cs[from].order) == cs[from]
  {
    RenumberChapters(ArrayMove(cs, from, to))
  }

  /** The chapter tree after dragging, inside chapter `ci`, the lesson at `from` to index `to`. */
  function ApplyLessonReorder(cs: seq<Chapter>, ci: nat, from: nat, to: nat): (r: seq<Chapter>)
    requires ci < |cs| && from < |cs[ci].lessons| && to < |cs[ci].lessons|
    ensures |r| == |cs| && |r[ci].lessons| == |cs[ci].lessons| && LessonsNumbered(r[ci].lessons)
    ensures r[ci].lessons[to].(order := cs[ci].lessons[from].order) == cs[ci].lessons[from]
  {
    cs[ci := cs[ci].(lessons := RenumberLessons(ArrayMove(cs[ci].lessons, from, to)))]
  }

  /** One entry of a reorder request. */
  datatype Position = Position(id: string, position: int)

  function ChapterPosition(c: Chapter): Position { Position(c.id, c.order) }
  function LessonPosition(l: Lesson): Position { Position(l.id, l.order) }

  /** What is sent to the server: which scope is reordered, and every item's new position. */
  datatype ReorderRequest =
    | ChapterReorder(courseId: string, chapters: seq<Position>)
    | LessonReorder(chapterId: string, lessons: seq<Position>, courseId: string)

  /** No request is issued when the course id is empty (the `if (courseId)` guard). */
  function ChapterRequest(courseId: string, cs: seq<Chapter>): (r: Option<ReorderRequest>)
    ensures r.None? <==> courseId == ""
    ensures r.Some? ==> r.value.ChapterReorder? && r.value.courseId == courseId && |r.value.chapters| == |cs|
    ensures r.Some? ==> forall k :: 0 <= k < |cs| ==> r.value.chapters[k] == Position(cs[k].id, cs[k].order)
  {
    if courseId == "" then None else Some(ChapterReorder(courseId, Map(ChapterPosition, cs)))
  }

  /** The lesson request for the lessons `ls` of chapter `chapterId`; none when the course id is empty. */
  function LessonRequest(courseId: string, chapterId: string, ls: seq<Lesson>): (r: Option<ReorderRequest>)
    ensures r.None? <==> courseId == ""
    ensures r.Some? ==> r.value.LessonReorder? && r.value.chapterId == chapterId && r.value.courseId == courseId
    ensures r.Some? ==> |r.value.lessons| == |ls| && forall k :: 0 <= k < |ls| ==> r.value.lessons[k] == Position(ls[k].id, ls[k].order)
  {
    if courseId == "" then None else Some(LessonReorder(chapterId, Map(LessonPosition, ls), courseId))
  }

  /**
   * A chapter reorder keeps every chapter, in array-move order, numbered
   * 1..N, and changes nothing but `order` in each chapter.
   */
  lemma ChapterReorderShape(cs: seq<Chapter>, from: nat, to: nat)
    requires from < |cs| && to < |cs|
    ensures var r := ApplyChapterReorder(cs, from, to);
      && |r| == |cs|
      && ChaptersNumbered(r)
      && ChapterIds(r) == ArrayMove(ChapterIds(cs), from, to)
      && multiset(ChapterIds(r)) == multiset(ChapterIds(cs))
      && (forall k :: 0 <= k < |r| ==> r[k].(order := cs[MovedFrom(from, to, k)].order) == cs[MovedFrom(from, to, k)])
  {
    var moved := ArrayMove(cs, from, to);
    var r := RenumberChapters(moved);
    forall k | 0 <= k < |r|
      ensures r[k].(order := cs[MovedFrom(from, to, k)].order) == cs[MovedFrom(from, to, k)]
    {
      ArrayMoveAt(cs, from, to, k);
    }
    assert ChapterIds(r) == ChapterIds(moved);
    MapArrayMove(ChapterId, cs, from, to);
    ArrayMovePermutes(ChapterIds(cs), from, to);
  }

  /** The chapter request lists every chapter in the new order, with position index + 1. */
  lemma ChapterPayloadMatchesTree(courseId: string, cs: seq<Chapter>, from: nat, to: nat)
    requires courseId != "" && from < |cs| && to < |cs|
    ensures var req := ChapterRequest(courseId, ApplyChapterReorder(cs, from, to));
      && req.Some? && req.value.ChapterReorder? && req.value.courseId == courseId
      && |req.value.chapters| == |cs|
      && forall k :: 0 <= k < |cs| ==>
           req.value.chapters[k] == Position(ArrayMove(ChapterIds(cs), from, to)[k], k + 1)
  {
  }

  /**
   * A lesson reorder touches one chapter's lesson list only: every other
   * chapter, and that chapter's id, title, order and open flag, are unchanged.
   */
  lemma LessonReorderIsLocal(cs: seq<Chapter>, ci: nat, from: nat, to: nat)
    requires ci < |cs| && from < |cs[ci].lessons| && to < |cs[ci].lessons|
    ensures var r := ApplyLessonReorder(cs, ci, from, to);
      && |r| == |cs|
      && ChapterIds(r) == ChapterIds(cs)
      && (forall k :: 0 <= k < |r| && k != ci ==> r[k] == cs[k])
      && r[ci].(lessons := cs[ci].lessons) == cs[ci]
  {
    var r := ApplyLessonReorder(cs, ci, from, to);
    assert ChapterIds(r) == ChapterIds(cs);
  }

  /**
   * The lessons of a lesson reorder are the array-move of the old lessons
   * (the same ids, none lost or repeated), numbered 1..M.
   */
  lemma LessonReorderShape(ls: seq<Lesson>, from: nat, to: nat)
    requires from < |ls| && to < |ls|
    ensures var r := RenumberLessons(ArrayMove(ls, from, to));
      && |r| == |ls|
      && LessonsNumbered(r)
      && LessonIds(r) == ArrayMove(LessonIds(ls), from, to)
      && multiset(LessonIds(r)) == multiset(LessonIds(ls))
      && (forall k :: 0 <= k < |r| ==> r[k].(order := ls[MovedFrom(from, to, k)].order) == ls[MovedFrom(from, to, k)])
  {
    var moved := ArrayMove(ls, from, to);
    var r := RenumberLessons(moved);
    forall k | 0 <= k < |r|
      ensures r[k].(order := ls[MovedFrom(from, to, k)].order) == ls[MovedFrom(from, to, k)]
    {
      ArrayMoveAt(ls, from, to, k);
    }
    assert LessonIds(r) == LessonIds(moved);
    MapArrayMove(LessonId, ls, from, to);
    ArrayMovePermutes(LessonIds(ls), from, to);
  }

  /** The lesson request names the chapter and lists its lessons in the new order, with position index + 1. */
  lemma LessonPayloadMatchesTree(courseId: string, cs: seq<Chapter>, ci: nat, from: nat, to: nat)
    requires courseId != "" && ci < |cs| && from < |cs[ci].lessons| && to < |cs[ci].lessons|
    ensures var req := LessonRequest(courseId, cs[ci].id, ApplyLessonReorder(cs, ci, from, to)[ci].lessons);
      && req.Some? && req.value.LessonReorder? && req.value.chapterId == cs[ci].id && req.value.courseId == courseId
      && |req.value.lessons| == |cs[ci].lessons|
      && forall k :: 0 <= k < |cs[ci].lessons| ==>
           req.value.lessons[k] == Position(ArrayMove(LessonIds(cs[ci].lessons), from, to)[k], k + 1)
  {
    LessonReorderShape(cs[ci].lessons, from, to);
  }

  /**
   * Reordering back undoes a reorder up to numbering: dragging the chapter
   * now at `to` back to `from` gives the original tree with orders 1..N.
   */
  lemma ChapterReorderUndo(cs: seq<Chapter>, from: nat, to: nat)
    requires from < |cs| && to < |cs|
    ensures ApplyChapterReorder(ApplyChapterReorder(cs, from, to), to, from) == RenumberChapters(cs)
  {
    var once := ApplyChapterReorder(cs, from, to);
    var twice := ApplyChapterReorder(once, to, from);
    forall k | 0 <= k < |cs|
      ensures twice[k] == RenumberChapters(cs)[k]
    {
      ArrayMoveAt(once, to, from, k);
      ArrayMoveAt(cs, from, to, MovedFrom(to, from, k));
    }
  }

  /**
   * Dragging a chapter onto itself (possible when it is dropped on one of its
   * own lessons) leaves an already numbered tree exactly as it was.
   */
  lemma ChapterReorderSameIndex(cs: seq<Chapter>, i: nat)
    requires i < |cs| && ChaptersNumbered(cs)
    ensures ApplyChapterReorder(cs, i, i) == cs
  {
  }

  // ---------------------------------------------------------------------
  // Expanding and collapsing a chapter
  // ---------------------------------------------------------------------

  /** toggleChapter's map: flips `isOpen` on the chapters with that id, and nothing else. */
  function Toggled(cs: seq<Chapter>, id: string): (r: seq<Chapter>)
    ensures |r| == |cs|
    ensures forall k :: 0 <= k < |r| ==> r[k].(isOpen := cs[k].isOpen) == cs[k]
    ensures forall k :: 0 <= k < |r| ==> (r[k].isOpen != cs[k].isOpen <==> cs[k].id == id)
  {
    seq(|cs|, k requires 0 <= k < |cs| => if cs[k].id == id then cs[k].(isOpen := !cs[k].isOpen) else cs[k])
  }

  /** Toggling the same chapter twice restores the tree. */
  lemma ToggleTwice(cs: seq<Chapter>, id: string)
    ensures Toggled(Toggled(cs, id), id) == cs
  {
  }

  // ---------------------------------------------------------------------
  // Drag events and their outcomes
  // ---------------------------------------------------------------------

  /** `data.current.type` of a sortable item; `NoKind` when it carries none. */
  datatype Kind = ChapterKind | LessonKind | NoKind

  /** A dragged or hovered item: its id, its kind and, for lessons, the chapter it was rendered in. */
  datatype DragItem = DragItem(id: string, kind: Kind, chapterId: Option<string>)

  /** A drag-end event: the dragged item and the item it was dropped on, if any. */
  datatype DragEvent = DragEvent(active: DragItem, over: Option<DragItem>)

  /** The user-facing errors a drag can raise before anything changes. */
  datatype DragError = UnresolvedChapter | CrossChapterLesson | ChapterNotFound | LessonNotFound
  {
    function Message(): string {
      match this
      case UnresolvedChapter => "Could not determine the chapter to re-order"
      case CrossChapterLesson => "Lessons Cannot move between different chapters"
      case ChapterNotFound => "Could not find chapter for the selected lesson"
      case LessonNotFound => "Could not find the lesson to update"
    }
  }

  /**
   * What handling a drag end did: nothing, reported an error, or installed
   * a reordered tree, keeping the pre-drag tree for a rollback and, when the
   * course has an id, a request to persist the new positions.
   */
  datatype DragOutcome =
    | Ignored
    | Rejected(error: DragError)
    | Reordered(request: Option<ReorderRequest>, previous: seq<Chapter>)

  /** A drop on some other item: the only kind of drag that is looked at. */
  predicate IsMove(e: DragEvent) {
    e.over.Some? && e.active.id != e.over.value.id
  }

  /** The chapter a dragged chapter goes to: the item dropped on, or the chapter of the lesson dropped on. */
  function TargetChapter(over: DragItem): (r: Option<string>)
    ensures over.kind == ChapterKind ==> r == Some(over.id)
    ensures over.kind == LessonKind ==> r == over.chapterId
    ensures over.kind == NoKind ==> r.None?
  {
    match over.kind
    case ChapterKind => Some(over.id)
    case LessonKind => over.chapterId
    case NoKind => None
  }

  /** Two lessons may swap places only if the dragged one names a chapter and the other names the same one. */
  predicate SameChapter(active: DragItem, over: DragItem): (b: bool)
    ensures b <==> active.chapterId.Some? && over.chapterId.Some? && active.chapterId.value != ""
                   && over.chapterId.value == active.chapterId.value
  {
    active.chapterId.Some? && active.chapterId.value != "" && over.chapterId == active.chapterId
  }

  /** The answer of the server action, or `Thrown` when the call itself failed. */
  datatype Response = Thrown | Resolved(status: string, message: string)

  predicate Persisted(response: Response) {
    response.Resolved? && response.status == "success"
  }

  /** The notification shown when a persistence call settles. */
  datatype Toast = SuccessToast(text: string) | ErrorToast(text: string)

  function FailureText(request: ReorderRequest): string {
    match request
    case ChapterReorder(_, _) => "Failed to reorder chapters"
    case LessonReorder(_, _, _) => "Failed to reorder lessons"
  }

  /**
   * What the lesson branch does after looking up the dragged lesson's
   * chapter, as the code is written: when the chapter is missing it shows
   * the error and then carries on with `items[-1]`, whose `lessons` it reads.
   */
  datatype ChapterLookup = Proceed(chapterIndex: nat) | ToastThenTypeError(message: string)

  function LessonChapterLookupAsWritten(cs: seq<Chapter>, chapterId: string): (r: ChapterLookup)
    ensures r.ToastThenTypeError? <==> chapterId !in ChapterIds(cs)
    ensures r.ToastThenTypeError? ==> r.message == ChapterNotFound.Message()
    ensures r.Proceed? ==> r.chapterIndex < |cs| && cs[r.chapterIndex].id == chapterId
  {
    var chapterIndex := IndexOf(ChapterIds(cs), chapterId);
    if chapterIndex == -1 then ToastThenTypeError(ChapterNotFound.Message())
    else Proceed(chapterIndex)
  }

  /** A lesson drag naming a chapter the tree no longer holds ends in a TypeError after the toast. */
  lemma StaleChapterIdThrows()
    ensures LessonChapterLookupAsWritten([Chapter("c1", "Intro", 1, false, [])], "c2").ToastThenTypeError?
  {
  }

  // ---------------------------------------------------------------------
  // The editor's state and its handlers
  // ---------------------------------------------------------------------

  class StructureStore {
    /** The course whose chapters are edited (`data.id`). */
    const courseId: string
    /** The tree on screen (`items`). */
    var items: seq<Chapter>

    /** Mounting: seeds the tree from the fetched snapshot. */
    constructor (course: CourseRow)
      ensures courseId == course.id
      ensures items == InitialItems(course.chapters)
    {
      courseId := course.id;
      items := InitialItems(course.chapters);
    }

    /**
     * handleDragEnd. Chapters may be dropped on a chapter or on a lesson
     * (then its chapter is the target); lessons only on a lesson of the
     * same chapter. A reorder is installed at once, and the outcome carries
     * the pre-drag tree for Settle.
     */
    method HandleDragEnd(e: DragEvent) returns (o: DragOutcome)
      modifies this
      // Only a reorder changes the tree, and it keeps what was there before.
      ensures !o.Reordered? ==> items == old(items)
      ensures o.Reordered? ==> o.previous == old(items)
      // No drop target, or dropped on itself.
      ensures !IsMove(e) ==> o == Ignored
      // A chapter drag.
      ensures IsMove(e) && e.active.kind == ChapterKind ==>
        var ids := ChapterIds(old(items));
        var target := TargetChapter(e.over.value);
        if target.Some? && target.value != "" && e.active.id in ids && target.value in ids then
          var from, to := IndexOf(ids, e.active.id), IndexOf(ids, target.value);
          && items == ApplyChapterReorder(old(items), from, to)
          && o == Reordered(ChapterRequest(courseId, items), old(items))
        else
          o == Rejected(UnresolvedChapter)
      // A lesson dropped on a lesson.
      ensures IsMove(e) && e.active.kind == LessonKind && e.over.value.kind == LessonKind ==>
        if !SameChapter(e.active, e.over.value) then
          o == Rejected(CrossChapterLesson)
        else
          var chapterId := e.active.chapterId.value;
          var ids := ChapterIds(old(items));
          if chapterId !in ids then
            o == Rejected(ChapterNotFound)
          else
            var ci := IndexOf(ids, chapterId);
            var lessonIds := LessonIds(old(items)[ci].lessons);
            if e.active.id !in lessonIds || e.over.value.id !in lessonIds then
              o == Rejected(LessonNotFound)
            else
              var from, to := IndexOf(lessonIds, e.active.id), IndexOf(lessonIds, e.over.value.id);
              && items == ApplyLessonReorder(old(items), ci, from, to)
              && o == Reordered(LessonRequest(courseId, chapterId, items[ci].lessons), old(items))
      // Any other combination (a lesson dropped on a chapter, an untyped item) is ignored.
      ensures IsMove(e) && e.active.kind != ChapterKind && !(e.active.kind == LessonKind && e.over.value.kind == LessonKind) ==>
        o == Ignored
    {
      if e.over.None? || e.active.id == e.over.value.id {
        return Ignored;
      }
      var active, over := e.active, e.over.value;

      if active.kind == ChapterKind {
        var targetChapterId := TargetChapter(over);
        if targetChapterId.None? || targetChapterId.value == "" {
          return Rejected(UnresolvedChapter);
        }
        var oldIndex := IndexOf(ChapterIds(items), active.id);
        var newIndex := IndexOf(ChapterIds(items), targetChapterId.value);
        if oldIndex == -1 || newIndex == -1 {
          return Rejected(UnresolvedChapter);
        }
        var reordered := ArrayMove(items, oldIndex, newIndex);
        var updated := RenumberChapters(reordered);
        var previousItems := items;
        items := updated;
        return Reordered(ChapterRequest(courseId, updated), previousItems);
      }

      if active.kind == LessonKind && over.kind == LessonKind {
        var chapterId := active.chapterId;
        if chapterId.None? || chapterId.value == "" || over.chapterId != chapterId {
          return Rejected(CrossChapterLesson);
        }
        var chapterIndex := IndexOf(ChapterIds(items), chapterId.value);
        if chapterIndex == -1 {
          // Returns here; the code as written goes on (LessonChapterLookupAsWritten).
          return Rejected(ChapterNotFound);
        }
        var chapterToUpdate := items[chapterIndex];
        var oldLessonIndex := IndexOf(LessonIds(chapterToUpdate.lessons), active.id);
        var newLessonIndex := IndexOf(LessonIds(chapterToUpdate.lessons), over.id);
        if oldLessonIndex == -1 || newLessonIndex == -1 {
          return Rejected(LessonNotFound);
        }
        var reorderedLessons := ArrayMove(chapterToUpdate.lessons, oldLessonIndex, newLessonIndex);
        var updatedLessons := RenumberLessons(reorderedLessons);
        var newItems := items[chapterIndex := chapterToUpdate.(lessons := updatedLessons)];
        var previousItems := items;
        items := newItems;
        return Reordered(LessonRequest(courseId, chapterId.value, updatedLessons), previousItems);
      }

      return Ignored;
    }

    /**
     * The settling of a persistence call issued for `request`: on "success"
     * the optimistic tree stays; on any other status, or when the call
     * failed, the whole pre-drag tree comes back, whatever happened since.
     */
    method Settle(request: ReorderRequest, previous: seq<Chapter>, response: Response) returns (toast: Toast)
      modifies this
      ensures Persisted(response) ==> items == old(items) && toast == SuccessToast(response.message)
      ensures !Persisted(response) ==> items == previous && toast == ErrorToast(FailureText(request))
    {
      if response.Resolved? && response.status == "success" {
        return SuccessToast(response.message);
      }
      // A non-"success" status makes the success handler throw, which lands in the error handler.
      items := previous;
      return ErrorToast(FailureText(request));
    }

    /** toggleChapter: expands or collapses the chapter with that id. */
    method ToggleChapter(chapterId: string)
      modifies this
      ensures items == Toggled(old(items), chapterId)
    {
      items := Toggled(items, chapterId);
    }
  }
}
