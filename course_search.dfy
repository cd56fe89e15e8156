/**
 * `CourseSearchTool`: a search over course content whose result is either the
 * store's error, a "nothing found" message echoing the filters, or the hits
 * rendered one block each; rendering also records one source string per hit
 * for the user interface.
 */
module CourseSearch {
  import opened Wrappers
  import opened Text
  import opened Json
  import opened Retriever

  /** The definition the tool advertises to the model, in the "input_schema" form. */
  function Definition(): JsonObject {
    map[
      "name" := JString("search_course_content"),
      "description" := JString("Search course materials " + "with smart course name matching " + "and lesson filtering"),
      "input_schema" := JObject(map[
        "type" := JString("object"),
        "properties" := JObject(map[
          "query" := JObject(map[
            "type" := JString("string"),
            "description" := JString("What to search for " + "in the course content")]),
          "course_name" := JObject(map[
            "type" := JString("string"),
            "description" := JString("Course title " + "(partial matches work, e.g. 'MCP', 'Introduction')")]),
          "lesson_number" := JObject(map[
            "type" := JString("integer"),
            "description" := JString("Specific lesson number " + "to search within (e.g. 1, 2, 3)")])]),
        "required" := JArray([JString("query")])])]
  }

  const NothingFound := "No relevant content found"

  /** The filter echo for the course: present iff a non-empty course name was given. */
  function CourseFilter(courseName: Option<string>): string {
    if Truthy(courseName) then " in course '" + courseName.value + "'" else ""
  }

  /** The filter echo for the lesson: present iff a non-zero lesson number was given. */
  function LessonFilter(lessonNumber: Option<int>): string {
    if lessonNumber.Some? && lessonNumber.value != 0 then " in lesson " + IntToString(lessonNumber.value) else ""
  }

  function FilterInfo(courseName: Option<string>, lessonNumber: Option<int>): string {
    CourseFilter(courseName) + LessonFilter(lessonNumber)
  }

  /** The message for a search that found nothing. */
  function NothingFoundMessage(courseName: Option<string>, lessonNumber: Option<int>): string {
    NothingFound + FilterInfo(courseName, lessonNumber) + "."
  }

  /** The course title of a hit, "unknown" when its metadata has none. */
  function TitleOf(meta: HitMeta): string {
    meta.courseTitle.GetOr("unknown")
  }

  function LessonText(lessonNumber: int): string {
    " - Lesson " + IntToString(lessonNumber)
  }

  /** "[title]" or "[title - Lesson n]". */
  function Header(meta: HitMeta): string {
    if meta.lessonNumber.Some? then "[" + TitleOf(meta) + LessonText(meta.lessonNumber.value) + "]"
    else "[" + TitleOf(meta) + "]"
  }

  /** "title" or "title - Lesson n": the text shown for a hit's source. */
  function Display(meta: HitMeta): string {
    if meta.lessonNumber.Some? then TitleOf(meta) + LessonText(meta.lessonNumber.value) else TitleOf(meta)
  }

  /** One hit rendered for the model: the header line, then the document. */
  function Block(doc: string, meta: HitMeta): string {
    Header(meta) + "\n" + doc
  }

  /** The HTML anchor that opens a lesson link in a new tab. */
  function Anchor(link: string, display: string): string {
    "<a href=\"" + link + "\" target=\"_blank\" rel=\"noopener noreferrer\">" + display + "</a>"
  }

  /** The source string of a hit: an anchor when it has a lesson with a non-empty link, else the display text. */
  function SourceOf(store: Store, meta: HitMeta): string {
    if meta.lessonNumber.Some? && Truthy(store.lessonLink(TitleOf(meta), meta.lessonNumber.value))
    then Anchor(store.lessonLink(TitleOf(meta), meta.lessonNumber.value).value, Display(meta))
    else Display(meta)
  }

  /** The hits are the documents paired with their metadata, up to the shorter list. */
  function HitCount(results: SearchResults): nat {
    if |results.documents| <= |results.metadata| then |results.documents| else |results.metadata|
  }

  function Blocks(results: SearchResults): (blocks: seq<string>)
    ensures |blocks| == HitCount(results)
  {
    seq(HitCount(results), i requires 0 <= i < HitCount(results) => Block(results.documents[i], results.metadata[i]))
  }

  function Sources(store: Store, results: SearchResults): (sources: seq<string>)
    ensures |sources| == HitCount(results)
  {
    seq(HitCount(results), i requires 0 <= i < HitCount(results) => SourceOf(store, results.metadata[i]))
  }

  /** The text a search returns: the store's error verbatim, the nothing-found message, or the blocks. */
  function SearchText(store: Store, query: string, courseName: Option<string>, lessonNumber: Option<int>): string {
    var results := store.search(query, courseName, lessonNumber);
    if Truthy(results.error) then results.error.value
    else if results.IsEmpty() then NothingFoundMessage(courseName, lessonNumber)
    else Join(Blocks(results), "\n\n")
  }

  /** Whether a search with these arguments replaces the recorded sources: only when it has hits to render. */
  predicate RecordsSources(store: Store, query: string, courseName: Option<string>, lessonNumber: Option<int>) {
    var results := store.search(query, courseName, lessonNumber);
    !Truthy(results.error) && !results.IsEmpty()
  }

  class CourseSearchTool {
    const store: Store
    /** What `get_tool_definition` returns: always the same definition. */
    const definition: JsonObject
    /** The sources of the last search that rendered hits. */
    var lastSources: seq<string>

    constructor (store: Store)
      ensures this.store == store && definition == Definition() && lastSources == []
    {
      this.store := store;
      definition := Definition();
      lastSources := [];
    }

    /**
     * Runs the search; the recorded sources are replaced by those of the
     * hits when there are hits, and kept otherwise.
     */
    method Execute(query: string, courseName: Option<string>, lessonNumber: Option<int>) returns (r: string)
      modifies this
      ensures r == SearchText(store, query, courseName, lessonNumber)
      ensures lastSources == if RecordsSources(store, query, courseName, lessonNumber)
        then Sources(store, store.search(query, courseName, lessonNumber)) else old(lastSources)
    {
      var results := store.search(query, courseName, lessonNumber);
      if results.error.Some? && results.error.value != "" {
        return results.error.value;
      }
      if |results.documents| == 0 {
        var filterInfo := "";
        if courseName.Some? && courseName.value != "" {
          filterInfo := filterInfo + (" in course '" + courseName.value + "'");
        }
        assert filterInfo == CourseFilter(courseName);
        if lessonNumber.Some? && lessonNumber.value != 0 {
          filterInfo := filterInfo + (" in lesson " + IntToString(lessonNumber.value));
        }
        assert filterInfo == FilterInfo(courseName, lessonNumber);
        return NothingFound + filterInfo + ".";
      }
      r := FormatResults(results);
    }

    /** Renders the hits in order and records one source per hit. */
    method FormatResults(results: SearchResults) returns (r: string)
      modifies this
      ensures r == Join(Blocks(results), "\n\n")
      ensures lastSources == Sources(store, results)
    {
      var formatted: seq<string> := [];
      var sources: seq<string> := [];
      var n := if |results.documents| <= |results.metadata| then |results.documents| else |results.metadata|;
      for i := 0 to n
        invariant formatted == Blocks(results)[..i]
        invariant sources == Sources(store, results)[..i]
      {
        var block, source := RenderHit(results.documents[i], results.metadata[i]);
        assert Blocks(results)[..i + 1] == Blocks(results)[..i] + [block];
        assert Sources(store, results)[..i + 1] == Sources(store, results)[..i] + [source];
        formatted := formatted + [block];
        sources := sources + [source];
      }
      assert Blocks(results)[..n] == Blocks(results);
      assert Sources(store, results)[..n] == Sources(store, results);
      lastSources := sources;
      return Join(formatted, "\n\n");
    }

    /** The body of the rendering loop for one hit: its block for the model and its source for the interface. */
    method RenderHit(doc: string, meta: HitMeta) returns (block: string, source: string)
      ensures block == Block(doc, meta) && source == SourceOf(store, meta)
    {
      var courseTitle := meta.courseTitle.GetOr("unknown");
      var header := "[" + courseTitle;
      if meta.lessonNumber.Some? {
        header := header + (" - Lesson " + IntToString(meta.lessonNumber.value));
      }
      header := header + "]";
      var sourceDisplay := courseTitle;
      if meta.lessonNumber.Some? {
        sourceDisplay := sourceDisplay + (" - Lesson " + IntToString(meta.lessonNumber.value));
        var lessonLink := store.lessonLink(courseTitle, meta.lessonNumber.value);
        if lessonLink.Some? && lessonLink.value != "" {
          source := "<a href=\"" + lessonLink.value + "\" target=\"_blank\" rel=\"noopener noreferrer\">" + sourceDisplay + "</a>";
        } else {
          source := sourceDisplay;
        }
      } else {
        source := sourceDisplay;
      }
      block := header + "\n" + doc;
    }
  }

  /**
   * The nothing-found message echoes a course filter iff a non-empty course
   * name was given, and the echo quotes that name.
   */
  lemma EchoesCourse(courseName: Option<string>, lessonNumber: Option<int>)
    ensures var r := NothingFoundMessage(courseName, lessonNumber);
      StartsWith(r[|NothingFound|..], " in course '") <==> Truthy(courseName)
    ensures var r := NothingFoundMessage(courseName, lessonNumber);
      Truthy(courseName) ==> StartsWith(r[|NothingFound|..], " in course '" + courseName.value + "'")
  {
    var info := FilterInfo(courseName, lessonNumber);
    Assoc(NothingFound, info, ".");
    DropPrefix(NothingFound, info + ".");
    if Truthy(courseName) {
      var p := " in course '";
      var echo := CourseFilter(courseName);
      TakePrefix(p, courseName.value);
      PrefixExtends(p + courseName.value, p, "'");
      TakePrefix(echo, LessonFilter(lessonNumber));
      PrefixExtends(info, echo, ".");
      PrefixExtends(echo, p, LessonFilter(lessonNumber));
      PrefixExtends(info, p, ".");
    } else {
      assert info == LessonFilter(lessonNumber);
      LessonTail(lessonNumber);
    }
  }

  /** Without a course filter the tail of the message is not a course echo. */
  lemma LessonTail(lessonNumber: Option<int>)
    ensures !StartsWith(LessonFilter(lessonNumber) + ".", " in course '")
  {
    var tail := LessonFilter(lessonNumber) + ".";
    if lessonNumber.Some? && lessonNumber.value != 0 {
      assert tail[4] == 'l';
    } else {
      assert |tail| == 1;
    }
  }

  /**
   * The nothing-found message ends in a digit and a period iff a non-zero
   * lesson number was given, and then it ends with " in lesson <n>.".
   */
  lemma EchoesLesson(courseName: Option<string>, lessonNumber: Option<int>)
    ensures var r := NothingFoundMessage(courseName, lessonNumber);
      |r| >= 2 && ('0' <= r[|r| - 2] <= '9' <==> lessonNumber.Some? && lessonNumber.value != 0)
    ensures lessonNumber.Some? && lessonNumber.value != 0 ==>
      var r := NothingFoundMessage(courseName, lessonNumber);
      var echo := " in lesson " + IntToString(lessonNumber.value) + ".";
      |r| >= |echo| && r[|r| - |echo|..] == echo
  {
    if lessonNumber.Some? && lessonNumber.value != 0 {
      LessonEchoLast(courseName, lessonNumber.value);
    }
    var r := NothingFoundMessage(courseName, lessonNumber);
    var head := NothingFound + FilterInfo(courseName, lessonNumber);
    assert r[|r| - 2] == head[|head| - 1];
    if lessonNumber.Some? && lessonNumber.value != 0 {
      var digits := IntToString(lessonNumber.value);
      LastOfAppend(" in lesson ", digits);
      LastOfAppend(CourseFilter(courseName), LessonFilter(lessonNumber));
      LastOfAppend(NothingFound, FilterInfo(courseName, lessonNumber));
    } else if Truthy(courseName) {
      LastOfAppend(" in course '" + courseName.value, "'");
      LastOfAppend(NothingFound, FilterInfo(courseName, lessonNumber));
    } else {
      assert head == NothingFound;
    }
  }

  /** With a non-zero lesson number the message is the text before the lesson echo, then the echo. */
  lemma LessonEchoLast(courseName: Option<string>, n: int)
    requires n != 0
    ensures var r := NothingFoundMessage(courseName, Some(n));
      var echo := " in lesson " + IntToString(n) + ".";
      r == NothingFound + CourseFilter(courseName) + echo
  {
    var echo := " in lesson " + IntToString(n) + ".";
    assert LessonFilter(Some(n)) + "." == echo;
    Assoc(NothingFound + CourseFilter(courseName), LessonFilter(Some(n)), ".");
  }

  /** A header names the lesson iff the hit has a lesson number: otherwise it is the bare title. */
  lemma HeaderNamesLesson(meta: HitMeta)
    ensures Header(meta) == "[" + TitleOf(meta) + "]" <==> meta.lessonNumber.None?
  {
    if meta.lessonNumber.Some? {
      assert |Header(meta)| > |"[" + TitleOf(meta) + "]"|;
    }
  }

  /** A source differs from the plain display text iff the hit has a lesson whose link is non-empty. */
  lemma SourceIsAnchor(store: Store, meta: HitMeta)
    ensures SourceOf(store, meta) != Display(meta)
      <==> meta.lessonNumber.Some? && Truthy(store.lessonLink(TitleOf(meta), meta.lessonNumber.value))
  {
    if meta.lessonNumber.Some? && Truthy(store.lessonLink(TitleOf(meta), meta.lessonNumber.value)) {
      assert |SourceOf(store, meta)| > |Display(meta)|;
    }
  }
}
