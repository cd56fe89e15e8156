/**
 * What the two tools see of the vector store: the results of a search and
 * the course catalogue. The store itself (embeddings, ChromaDB, fuzzy
 * course-name resolution) is not part of this model; its queries are fixed
 * functions of their arguments.
 */
module Retriever {
  import opened Wrappers

  /** The metadata of one hit; a key absent from the hit's dictionary is None. */
  datatype HitMeta = HitMeta(courseTitle: Option<string>, lessonNumber: Option<int>)

  /** Parallel lists of hit documents and their metadata, or an error message. */
  datatype SearchResults = SearchResults(documents: seq<string>, metadata: seq<HitMeta>, error: Option<string>) {
    /** Empty means no documents, whatever the metadata holds. */
    predicate IsEmpty() {
      |documents| == 0
    }
  }

  datatype LessonMeta = LessonMeta(lessonTitle: Option<string>, lessonNumber: Option<int>, lessonLink: Option<string>)

  /** One entry of the course catalogue; absent keys are None. */
  datatype CourseMeta = CourseMeta(
    title: Option<string>,
    instructor: Option<string>,
    courseLink: Option<string>,
    lessons: Option<seq<LessonMeta>>)

  /** The store's queries, as the tools call them. */
  datatype Store = Store(
    /** `search(query, course_name, lesson_number)`. */
    search: (string, Option<string>, Option<int>) -> SearchResults,
    /** `_resolve_course_name(course_name)`: the best-matching course title, if any. */
    resolveCourseName: string -> Option<string>,
    /** `get_lesson_link(course_title, lesson_number)`. */
    lessonLink: (string, int) -> Option<string>,
    /** `get_all_courses_metadata()`. */
    coursesMetadata: seq<CourseMeta>)

  /** Python truthiness of an optional string: present and non-empty. */
  predicate Truthy(s: Option<string>) {
    s.Some? && s.value != ""
  }
}
