/**
 * `CourseOutlineTool`: resolves a course name against the catalogue and
 * renders the matching course's outline line by line, or says which of the
 * three look-ups failed.
 */
module CourseOutline {
  import opened Wrappers
  import opened Text
  import opened Json
  import opened Retriever

  /** The definition the tool advertises to the model, in the "input_schema" form. */
  function Definition(): JsonObject {
    map[
      "name" := JString("get_course_outline"),
      "description" := JString(
        "Retrieve course outline information " + "including course title, course link, "
        + "and complete lesson list. " + "Use this when users ask for course structure, "
        + "table of contents, " + "lesson listings, or course overviews."),
      "input_schema" := JObject(map[
        "type" := JString("object"),
        "properties" := JObject(map[
          "course_name" := JObject(map[
            "type" := JString("string"),
            "description" := JString("Course title " + "(partial matches work, e.g. 'MCP', 'Introduction')")])]),
        "required" := JArray([JString("course_name")])])]
  }

  function NotFoundMessage(courseName: string): string {
    "No course found matching '" + courseName + "'"
  }

  const NoMetadataMessage := "No course metadata available"

  function NoDetailsMessage(courseTitle: string): string {
    "No detailed information found for course: " + courseTitle
  }

  /** The index of the first catalogue entry whose title is `title`, if any. */
  function FirstMatch(courses: seq<CourseMeta>, title: string): (r: Option<nat>)
    ensures r.Some? ==> r.value < |courses| && courses[r.value].title == Some(title)
    ensures r.Some? ==> forall j :: 0 <= j < r.value ==> courses[j].title != Some(title)
    ensures r.None? ==> forall j :: 0 <= j < |courses| ==> courses[j].title != Some(title)
  {
    if |courses| == 0 then None
    else if courses[0].title == Some(title) then Some(0)
    else match FirstMatch(courses[1..], title)
      case None => None
      case Some(k) => Some(k + 1)
  }

  /** "  Lesson n: title", with "?" for a missing number and a default title. */
  function LessonBase(lesson: LessonMeta): string {
    var number := if lesson.lessonNumber.Some? then IntToString(lesson.lessonNumber.value) else "?";
    "  Lesson " + number + ": " + lesson.lessonTitle.GetOr("Untitled Lesson")
  }

  /** The lesson's base line, followed by " (link)" when the lesson has a non-empty link. */
  function LessonLine(lesson: LessonMeta): string {
    var line := LessonBase(lesson);
    if Truthy(lesson.lessonLink) then line + (" (" + lesson.lessonLink.value + ")") else line
  }

  function LessonLines(lessons: seq<LessonMeta>): (lines: seq<string>)
    ensures |lines| == |lessons|
  {
    seq(|lessons|, i requires 0 <= i < |lessons| => LessonLine(lessons[i]))
  }

  predicate HasLessons(course: CourseMeta) {
    course.lessons.Some? && |course.lessons.value| > 0
  }

  /** The title line, then the instructor and link lines when those are non-empty. */
  function OutlineHead(course: CourseMeta): seq<string> {
    ["Course: " + course.title.GetOr("Unknown Course")]
    + (if Truthy(course.instructor) then ["Instructor: " + course.instructor.value] else [])
    + (if Truthy(course.courseLink) then ["Course Link: " + course.courseLink.value] else [])
  }

  /** "Lessons:" and one line per lesson, or the no-lessons line. */
  function OutlineTail(course: CourseMeta): seq<string> {
    if HasLessons(course) then ["Lessons:"] + LessonLines(course.lessons.value)
    else ["No lessons available for this course"]
  }

  /** The lines of a course's outline, before they are joined with newlines. */
  function OutlineLines(course: CourseMeta): seq<string> {
    OutlineHead(course) + OutlineTail(course)
  }

  /** What the tool returns for a course name: the first failing look-up's message, or the outline. */
  function OutlineResult(store: Store, courseName: string): string {
    var courseTitle := store.resolveCourseName(courseName);
    if !Truthy(courseTitle) then NotFoundMessage(courseName)
    else if |store.coursesMetadata| == 0 then NoMetadataMessage
    else match FirstMatch(store.coursesMetadata, courseTitle.value)
      case None => NoDetailsMessage(courseTitle.value)
      case Some(k) => Join(OutlineLines(store.coursesMetadata[k]), "\n")
  }

  class CourseOutlineTool {
    const store: Store
    /** What `get_tool_definition` returns: always the same definition. */
    const definition: JsonObject

    constructor (store: Store)
      ensures this.store == store && definition == Definition()
    {
      this.store := store;
      definition := Definition();
    }

    method Execute(courseName: string) returns (r: string)
      ensures r == OutlineResult(store, courseName)
    {
      var courseTitle := store.resolveCourseName(courseName);
      if courseTitle.None? || courseTitle.value == "" {
        return "No course found matching '" + courseName + "'";
      }
      var coursesMetadata := store.coursesMetadata;
      if |coursesMetadata| == 0 {
        return "No course metadata available";
      }
      var title := courseTitle.value;
      var i := 0;
      while i < |coursesMetadata| && coursesMetadata[i].title != courseTitle
        invariant i <= |coursesMetadata|
        invariant forall j :: 0 <= j < i ==> coursesMetadata[j].title != courseTitle
      {
        i := i + 1;
      }
      if i == |coursesMetadata| {
        return "No detailed information found for course: " + title;
      }
      FirstMatchAt(coursesMetadata, title, i);
      r := FormatCourseOutline(coursesMetadata[i]);
    }

    /** Renders the outline: title, optional instructor and link, then the lessons or a no-lessons line. */
    method FormatCourseOutline(course: CourseMeta) returns (r: string)
      ensures r == Join(OutlineLines(course), "\n")
    {
      var courseTitle := course.title.GetOr("Unknown Course");
      var responseParts := ["Course: " + courseTitle];
      if course.instructor.Some? && course.instructor.value != "" {
        responseParts := responseParts + ["Instructor: " + course.instructor.value];
      }
      if course.courseLink.Some? && course.courseLink.value != "" {
        responseParts := responseParts + ["Course Link: " + course.courseLink.value];
      }
      ghost var head := responseParts;
      assert head == OutlineHead(course);
      if course.lessons.Some? && |course.lessons.value| > 0 {
        var lessons := course.lessons.value;
        responseParts := responseParts + ["Lessons:"];
        assert LessonLines(lessons)[..0] == [];
        for k := 0 to |lessons|
          invariant responseParts == head + (["Lessons:"] + LessonLines(lessons)[..k])
        {
          var lessonLine := RenderLesson(lessons[k]);
          assert LessonLines(lessons)[..k + 1] == LessonLines(lessons)[..k] + [lessonLine];
          Assoc(head, ["Lessons:"] + LessonLines(lessons)[..k], [lessonLine]);
          Assoc(["Lessons:"], LessonLines(lessons)[..k], [lessonLine]);
          responseParts := responseParts + [lessonLine];
        }
        assert LessonLines(lessons)[..|lessons|] == LessonLines(lessons);
      } else {
        responseParts := responseParts + ["No lessons available for this course"];
      }
      return Join(responseParts, "\n");
    }
  }

  /** One lesson's outline line, with defaults for a missing number or title. */
  method RenderLesson(lesson: LessonMeta) returns (lessonLine: string)
    ensures lessonLine == LessonLine(lesson)
  {
    var lessonTitle := lesson.lessonTitle.GetOr("Untitled Lesson");
    var lessonNumber := if lesson.lessonNumber.Some? then IntToString(lesson.lessonNumber.value) else "?";
    lessonLine := "  Lesson " + lessonNumber + ": " + lessonTitle;
    if lesson.lessonLink.Some? && lesson.lessonLink.value != "" {
      lessonLine := lessonLine + (" (" + lesson.lessonLink.value + ")");
    }
  }

  /** The first match found by a scan that stops at index `i` is `i`. */
  lemma FirstMatchAt(courses: seq<CourseMeta>, title: string, i: nat)
    requires i < |courses| && courses[i].title == Some(title)
    requires forall j :: 0 <= j < i ==> courses[j].title != Some(title)
    ensures FirstMatch(courses, title) == Some(i)
  {
    var r := FirstMatch(courses, title);
    assert r.Some?;
  }

  /** Every lesson line starts with the indented "  Lesson " label. */
  lemma LessonLineIndent(lesson: LessonMeta)
    ensures StartsWith(LessonLine(lesson), "  Lesson ")
  {
    var number := if lesson.lessonNumber.Some? then IntToString(lesson.lessonNumber.value) else "?";
    var title := lesson.lessonTitle.GetOr("Untitled Lesson");
    TakePrefix("  Lesson ", number);
    PrefixExtends("  Lesson " + number, "  Lesson ", ": ");
    PrefixExtends("  Lesson " + number + ": ", "  Lesson ", title);
    if Truthy(lesson.lessonLink) {
      PrefixExtends(LessonBase(lesson), "  Lesson ", " (" + lesson.lessonLink.value + ")");
    }
  }

  /** A lesson line extends its base line, and is longer exactly when the lesson has a non-empty link. */
  lemma LessonLinkShown(lesson: LessonMeta)
    ensures StartsWith(LessonLine(lesson), LessonBase(lesson))
    ensures |LessonLine(lesson)| > |LessonBase(lesson)| <==> Truthy(lesson.lessonLink)
  {
    if Truthy(lesson.lessonLink) {
      TakePrefix(LessonBase(lesson), " (" + lesson.lessonLink.value + ")");
    }
  }

  /** The first character of each line after the header: 'L' for "Lessons:", ' ' for a lesson, 'N' for no lessons. */
  lemma TailLineFirst(course: CourseMeta, j: nat)
    requires j < |OutlineTail(course)|
    ensures |OutlineTail(course)[j]| > 0
    ensures OutlineTail(course)[j][0] == (if !HasLessons(course) then 'N' else if j == 0 then 'L' else ' ')
  {
    if HasLessons(course) && j > 0 {
      LessonLineIndent(course.lessons.value[j - 1]);
    }
  }

  /** The first character of each header line: 'I' for the instructor line, 'C' for the title and link lines. */
  lemma HeadLineFirst(course: CourseMeta, k: nat)
    requires k < |OutlineHead(course)|
    ensures |OutlineHead(course)[k]| > 0
    ensures OutlineHead(course)[k][0] == (if k == 1 && Truthy(course.instructor) then 'I' else 'C')
    ensures k == 0 ==> StartsWith(OutlineHead(course)[0], "Course: ")
  {
    if k == 0 {
      TakePrefix("Course: ", course.title.GetOr("Unknown Course"));
    }
  }

  /** The first character of outline line `k`, which tells its kind. */
  lemma LineFirst(course: CourseMeta, k: nat)
    requires k < |OutlineLines(course)|
    ensures |OutlineLines(course)[k]| > 0
    ensures var head := OutlineHead(course);
      OutlineLines(course)[k][0] ==
        if k < |head| then (if k == 1 && Truthy(course.instructor) then 'I' else 'C')
        else if !HasLessons(course) then 'N'
        else if k == |head| then 'L'
        else ' '
    ensures k == 0 ==> StartsWith(OutlineLines(course)[0], "Course: ")
  {
    var head := OutlineHead(course);
    if k < |head| {
      assert OutlineLines(course)[k] == head[k];
      HeadLineFirst(course, k);
    } else {
      assert OutlineLines(course)[k] == OutlineTail(course)[k - |head|];
      TailLineFirst(course, k - |head|);
    }
  }

  /** Only the line after the title, and only for a non-empty instructor, starts with "Instructor: ". */
  lemma InstructorLineAt(course: CourseMeta, k: nat)
    requires k < |OutlineLines(course)|
    ensures StartsWith(OutlineLines(course)[k], "Instructor: ") <==> k == 1 && Truthy(course.instructor)
  {
    LineFirst(course, k);
    if k == 1 && Truthy(course.instructor) {
      assert OutlineLines(course)[1] == "Instructor: " + course.instructor.value;
      TakePrefix("Instructor: ", course.instructor.value);
    }
  }

  /** An outline has an "Instructor: " line exactly when the course has a non-empty instructor. */
  lemma InstructorShown(course: CourseMeta)
    ensures (exists k :: 0 <= k < |OutlineLines(course)| && StartsWith(OutlineLines(course)[k], "Instructor: "))
      <==> Truthy(course.instructor)
  {
    if Truthy(course.instructor) {
      InstructorLineAt(course, 1);
    } else {
      forall k | 0 <= k < |OutlineLines(course)| ensures !StartsWith(OutlineLines(course)[k], "Instructor: ") {
        InstructorLineAt(course, k);
      }
    }
  }

  /** Only the last header line, and only for a non-empty link, starts with "Course Link: ". */
  lemma LinkLineAt(course: CourseMeta, k: nat)
    requires k < |OutlineLines(course)|
    ensures StartsWith(OutlineLines(course)[k], "Course Link: ")
      <==> k == |OutlineHead(course)| - 1 && Truthy(course.courseLink)
  {
    LineFirst(course, k);
    var line := OutlineLines(course)[k];
    if k == |OutlineHead(course)| - 1 && Truthy(course.courseLink) {
      assert line == "Course Link: " + course.courseLink.value;
      TakePrefix("Course Link: ", course.courseLink.value);
    } else if k == 0 {
      assert line[6] == "Course: "[6];
    } else if k < |OutlineHead(course)| {
      assert line == "Instructor: " + course.instructor.value;
    }
  }

  /** An outline has a "Course Link: " line exactly when the course has a non-empty link. */
  lemma LinkShown(course: CourseMeta)
    ensures (exists k :: 0 <= k < |OutlineLines(course)| && StartsWith(OutlineLines(course)[k], "Course Link: "))
      <==> Truthy(course.courseLink)
  {
    if Truthy(course.courseLink) {
      LinkLineAt(course, |OutlineHead(course)| - 1);
    } else {
      forall k | 0 <= k < |OutlineLines(course)| ensures !StartsWith(OutlineLines(course)[k], "Course Link: ") {
        LinkLineAt(course, k);
      }
    }
  }

  /** The no-lessons line appears exactly when the course has no lessons. */
  lemma NoLessonsShown(course: CourseMeta)
    ensures "No lessons available for this course" in OutlineLines(course) <==> !HasLessons(course)
  {
    var lines := OutlineLines(course);
    var head := OutlineHead(course);
    if !HasLessons(course) {
      assert lines[|lines| - 1] == "No lessons available for this course";
    } else {
      forall k | 0 <= k < |lines| ensures lines[k] != "No lessons available for this course" {
        LineFirst(course, k);
      }
    }
  }

  /** The outline ends with "Lessons:" and then one line per lesson, in the catalogue's order. */
  lemma LessonsLast(course: CourseMeta)
    requires HasLessons(course)
    ensures var lines := OutlineLines(course); var lessons := course.lessons.value;
      |lines| > |lessons|
      && lines[|lines| - |lessons| - 1] == "Lessons:"
      && forall i :: 0 <= i < |lessons| ==> lines[|lines| - |lessons| + i] == LessonLine(lessons[i])
  {
    var lines := OutlineLines(course);
    var head := OutlineHead(course);
    var lessons := course.lessons.value;
    assert |lines| == |head| + 1 + |lessons|;
    forall i | 0 <= i < |lessons| ensures lines[|lines| - |lessons| + i] == LessonLine(lessons[i]) {
      assert lines[|lines| - |lessons| + i] == OutlineTail(course)[1 + i];
    }
  }

  /** The characters that tell the three failure messages apart from each other and from an outline. */
  lemma FailureMarks(courseName: string, courseTitle: string)
    ensures |NotFoundMessage(courseName)| > 10 && |NoDetailsMessage(courseTitle)| > 10
    ensures NotFoundMessage(courseName)[0] == 'N' && NotFoundMessage(courseName)[10] == 'f'
    ensures NoMetadataMessage[0] == 'N' && NoMetadataMessage[10] == 'm'
    ensures NoDetailsMessage(courseTitle)[0] == 'N' && NoDetailsMessage(courseTitle)[3] == 'd'
  {
    TakePrefix("No course found matching '", courseName);
    TakePrefix("No detailed information found for course: ", courseTitle);
  }

  /** The outline of a found course begins with its "Course: " line. */
  lemma OutlineTitleFirst(course: CourseMeta)
    ensures StartsWith(Join(OutlineLines(course), "\n"), "Course: ")
  {
    var lines := OutlineLines(course);
    var title := course.title.GetOr("Unknown Course");
    assert lines[0] == "Course: " + title;
    JoinHead(lines, "\n");
    TakePrefix("Course: ", title);
    var r := Join(lines, "\n");
    assert r[..8] == r[..|lines[0]|][..8];
  }

  /** The tool answers with an outline (text starting "Course: ") exactly when all three look-ups succeed. */
  lemma OutlineOnlyOnSuccess(store: Store, courseName: string)
    ensures var courseTitle := store.resolveCourseName(courseName);
      StartsWith(OutlineResult(store, courseName), "Course: ")
      <==> Truthy(courseTitle) && FirstMatch(store.coursesMetadata, courseTitle.value).Some?
  {
    var courseTitle := store.resolveCourseName(courseName);
    var r := OutlineResult(store, courseName);
    if Truthy(courseTitle) && FirstMatch(store.coursesMetadata, courseTitle.value).Some? {
      OutlineTitleFirst(store.coursesMetadata[FirstMatch(store.coursesMetadata, courseTitle.value).value]);
    } else {
      FailureMarks(courseName, courseTitle.GetOr(""));
      assert r[0] == 'N';
    }
  }

  /** The not-found message is given exactly when the course name does not resolve to a title. */
  lemma NotFoundReported(store: Store, courseName: string)
    ensures StartsWith(OutlineResult(store, courseName), "No course found matching '")
      <==> !Truthy(store.resolveCourseName(courseName))
  {
    var courseTitle := store.resolveCourseName(courseName);
    var r := OutlineResult(store, courseName);
    FailureMarks(courseName, courseTitle.GetOr(""));
    if !Truthy(courseTitle) {
      TakePrefix("No course found matching '", courseName);
      PrefixExtends("No course found matching '" + courseName, "No course found matching '", "'");
    } else if |store.coursesMetadata| == 0 {
      assert r[10] == 'm';
    } else if FirstMatch(store.coursesMetadata, courseTitle.value).None? {
      assert r[3] == 'd';
    } else {
      OutlineOnlyOnSuccess(store, courseName);
      assert r[0] == 'C';
    }
  }
}
