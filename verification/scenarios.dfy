/**
 * Worked drags, replayed against the editor's contracts alone: what a
 * caller of StructureStore can conclude without looking at its code.
 */
module Scenarios {
  import opened Wrappers
  import opened Sequences
  import opened CourseStructure

  function ThreeChapters(): seq<ChapterRow> {
    [ChapterRow("c1", "One", 1, []), ChapterRow("c2", "Two", 2, []), ChapterRow("c3", "Three", 3, [])]
  }

  /** Dragging c3 onto c1 gives c3, c1, c2 numbered 1, 2, 3, and the request lists exactly that. */
  lemma LastChapterToFront()
    ensures var r := ApplyChapterReorder(InitialItems(ThreeChapters()), 2, 0);
      && ChapterIds(r) == ["c3", "c1", "c2"]
      && ChaptersNumbered(r)
      && ChapterRequest("course", r) == Some(ChapterReorder("course", [Position("c3", 1), Position("c1", 2), Position("c2", 3)]))
  {
    var before := InitialItems(ThreeChapters());
    var ids := ChapterIds(before);
    assert ids == ["c1", "c2", "c3"];
    assert ArrayMove(ids, 2, 0) == ["c3", "c1", "c2"] by {
      assert ids[..2] + ids[3..] == ["c1", "c2"];
    }
    ChapterPayloadMatchesTree("course", before, 2, 0);
    var r := ApplyChapterReorder(before, 2, 0);
    assert Map(ChapterPosition, r) == [Position("c3", 1), Position("c1", 2), Position("c2", 3)];
  }

  /** The same drag through the editor, then a failed persistence call: the pre-drag tree is back. */
  method DragLastChapterToFront() {
    var store := new StructureStore(CourseRow("course", ThreeChapters()));
    var before := store.items;
    var ids := ChapterIds(before);
    assert ids == ["c1", "c2", "c3"];
    assert IndexOf(ids, "c3") == 2 by { assert ids[0] != "c3" && ids[1] != "c3"; }
    assert IndexOf(ids, "c1") == 0;

    var o := store.HandleDragEnd(DragEvent(DragItem("c3", ChapterKind, None), Some(DragItem("c1", ChapterKind, None))));
    LastChapterToFront();
    assert ChapterIds(store.items) == ["c3", "c1", "c2"];
    assert o.request.value.chapters == [Position("c3", 1), Position("c1", 2), Position("c2", 3)];

    var toast := store.Settle(o.request.value, o.previous, Thrown);
    assert store.items == before;
    assert toast == ErrorToast("Failed to reorder chapters");
  }

  function TwoChapters(): seq<ChapterRow> {
    [ChapterRow("c1", "One", 1, [LessonRow("l1", "A", 1), LessonRow("l2", "B", 2), LessonRow("l3", "C", 3)]),
     ChapterRow("c2", "Two", 2, [])]
  }

  /** Dragging l1 onto l3 inside c1 gives l2, l3, l1, and c2 is not touched. */
  lemma FirstLessonToEnd()
    ensures var before := InitialItems(TwoChapters());
      && ChapterIds(before) == ["c1", "c2"]
      && LessonIds(before[0].lessons) == ["l1", "l2", "l3"]
      && var r := ApplyLessonReorder(before, 0, 0, 2);
      && r[1] == before[1]
      && LessonIds(r[0].lessons) == ["l2", "l3", "l1"]
  {
    var before := InitialItems(TwoChapters());
    var ids := LessonIds(before[0].lessons);
    assert ids == ["l1", "l2", "l3"];
    assert ChapterIds(before) == ["c1", "c2"];
    assert ArrayMove(ids, 0, 2) == ["l2", "l3", "l1"] by {
      assert ids[..0] + ids[1..] == ["l2", "l3"];
    }
    LessonReorderIsLocal(before, 0, 0, 2);
    LessonReorderShape(before[0].lessons, 0, 2);
  }

  /** The same drag through the editor: the lesson request is issued for c1. */
  method DragFirstLessonToEnd() {
    var store := new StructureStore(CourseRow("course", TwoChapters()));
    var before := store.items;
    FirstLessonToEnd();
    assert IndexOf(LessonIds(before[0].lessons), "l3") == 2;

    var o := store.HandleDragEnd(DragEvent(DragItem("l1", LessonKind, Some("c1")), Some(DragItem("l3", LessonKind, Some("c1")))));
    assert store.items[1] == before[1];
    assert LessonIds(store.items[0].lessons) == ["l2", "l3", "l1"];
    assert o.Reordered? && o.request.value.LessonReorder? && o.request.value.chapterId == "c1";
  }

  /** A lesson dropped on a lesson of another chapter is refused and nothing moves. */
  method CrossChapterLessonDrag() {
    var store := new StructureStore(CourseRow("course", ThreeChapters()));
    var before := store.items;
    var o := store.HandleDragEnd(DragEvent(DragItem("l1", LessonKind, Some("c1")), Some(DragItem("l9", LessonKind, Some("c2")))));
    assert o == Rejected(CrossChapterLesson);
    assert store.items == before;
  }

  /**
   * A rollback restores the tree captured before its own drag, even when a
   * second drag has been installed in the meantime.
   */
  method RollbackIsToOwnPreImage() {
    var store := new StructureStore(CourseRow("course", ThreeChapters()));
    var before := store.items;
    assert ChapterIds(before) == ["c1", "c2", "c3"];
    var first := store.HandleDragEnd(DragEvent(DragItem("c3", ChapterKind, None), Some(DragItem("c1", ChapterKind, None))));
    store.ToggleChapter("c2");
    var second := store.HandleDragEnd(DragEvent(DragItem("c1", ChapterKind, None), Some(DragItem("c2", ChapterKind, None))));
    assert first.Reordered? && first.request.Some?;
    var toast := store.Settle(first.request.value, first.previous, Resolved("error", "No Chapters were found"));
    assert store.items == before;
  }
}
