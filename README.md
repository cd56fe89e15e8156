# Course-materials assistant: tool calling and the tools, modelled in Dafny

This project models the core of a retrieval-augmented chatbot that answers questions about
course materials. It covers two parts.

The first part is the answer generator, `AIGenerator.generate_response`. It:
- parses the flat conversation transcript (`"User: ...\nAssistant: ..."`) into role-tagged turns;
- sends one completion request carrying the system prompt, the turns, the query and the tool
  definitions, converted to the function-wrapper form;
- when the reply asks for tools and a tool manager is at hand, runs every requested call through
  the manager, in order (`_handle_tool_execution`);
- then sends exactly one follow-up request, without tools, whose reply content is the answer.

The second part is the search tools and their registry:
- `CourseSearchTool` renders vector-store hits as `[title - Lesson n]` blocks and records one
  source string per hit, an HTML anchor when the lesson has a link.
- `CourseOutlineTool` resolves a course name and renders the course's outline line by line.
- `ToolManager` registers tools under the name in their definition, keeping registration order.
  It dispatches calls by name, reports the first non-empty recorded sources and resets them.

Modules, one per concern:

| module | what it holds |
|---|---|
| `Wrappers`, `Errors` | `Option`, `Result`, and the Python exception classes the core raises or lets through |
| `Json` | decoded JSON values: definitions, schemas, tool-call arguments |
| `Text` | `str.startswith`, `str.join`, `str.split('\n')`, and `str(int)` with its inverse reading |
| `Messages` | the chat-completion wire format: turns, tool calls, requests, replies; the completion service as an oracle |
| `History` | the transcript parser: a reference reading and the source's loop proved equal to it |
| `Retriever` | what the tools see of the vector store: search results, the course catalogue, the store's queries as functions |
| `CourseSearch` | `class CourseSearchTool` (mutable `lastSources`) |
| `CourseOutline` | `class CourseOutlineTool` |
| `ToolRegistry` | `class ToolManager`: a `map` from names to tools plus the names in registration order |
| `Generator` | `class AIGenerator`: the exchange, the tool round, the tool-definition conversion |

The completion client is an oracle. It maps the requests sent so far in one exchange to the reply
to the last one, which is either a completion or a raised exception. `GenerateResponse` returns
the answer together with every request it sent, so request counts and request contents can be
stated.

The model follows the code as written, including where it departs from what its own tests
expect:
- Only one tool round is made: at most two requests per exchange. The tests in
  `backend/tests/test_sequential_tool_calling.py` expect up to two tool rounds (three requests).
- An exception raised by a tool is not caught; it ends the exchange.
- When a `"User: "` line closes a buffered turn, that turn is flushed with the fixed role `user`
  (`backend/ai_generator.py:78-82`). An `"Assistant: "` line flushes with the buffered role
  instead. As a result, an alternating transcript comes out as user, user, user, assistant
  (`History.AlternatingTranscript`).
- The follow-up request prepends the system prompt to messages that already begin with it, so it
  starts with two system turns (`Generator.FollowUpChain`).

## Model

| member | source | states |
|---|---|---|
| `Text.JoinSplit` | backend/ai_generator.py:72 | joining the newline-split pieces of a text with newlines gives the text back |
| `Text.SplitJoin` | backend/ai_generator.py:72 | splitting newline-free lines joined by newlines gives exactly those lines |
| `Text.IntToStringRoundTrip` | backend/search_tools.py:84 | the decimal rendering of an integer reads back as that integer, so distinct lesson numbers render distinctly |
| `History.ParseHistory` | backend/ai_generator.py:69-101 | the line-by-line loop yields exactly the reference reading: one turn per marker line, holding the marker's body and the unmarked lines up to the next marker |
| `History.HistoryIsText` | backend/ai_generator.py:79-101 | every parsed turn is a plain text turn; the transcript never yields tool turns |
| `History.ParsedRole` | backend/ai_generator.py:77-92 | a turn is an assistant turn iff its own marker and the next marker (if any) are both `"Assistant: "` lines |
| `History.UserLineOf` | backend/ai_generator.py:77-84 | a `"User: "` line announces a user turn whose body is the line after its 6-character prefix |
| `History.AssistantLineOf` | backend/ai_generator.py:85-92 | an `"Assistant: "` line announces an assistant turn whose body is the line after its 11-character prefix |
| `History.LeadingLinesDropped` | backend/ai_generator.py:93-94 | unmarked lines before the first marker line contribute to no turn |
| `History.AlternatingTranscript` | backend/ai_generator.py:78-92 | the transcript `User: a / Assistant: b / User: c / Assistant: d` parses to roles user, user, user, assistant with bodies a, b, c, d |
| `CourseSearch.Blocks` | backend/search_tools.py:95 | one block per (document, metadata) pair, up to the shorter list |
| `CourseSearch.CourseSearchTool.constructor` | backend/search_tools.py:23-52 | the tool keeps its store, advertises the fixed `search_course_content` definition and starts with no sources |
| `CourseSearch.CourseSearchTool.Execute` | backend/search_tools.py:54-88 | the result is the store's non-empty error verbatim, else the nothing-found message with the filter echo when there are no documents, else the rendered hits; the recorded sources are replaced by the hits' sources only when hits are rendered |
| `CourseSearch.CourseSearchTool.FormatResults` | backend/search_tools.py:90-130 | the blocks of all hits, in order, joined by blank lines; the recorded sources become one source per hit, in the same order |
| `CourseSearch.CourseSearchTool.RenderHit` | backend/search_tools.py:95-125 | one hit's block (header, newline, document) and its source string |
| `CourseSearch.EchoesCourse` | backend/search_tools.py:78-85 | the nothing-found message carries a course echo iff a non-empty course name was given, and the echo is ` in course '<name>'` with that name |
| `CourseSearch.EchoesLesson` | backend/search_tools.py:83-85 | the nothing-found message ends in a digit before the period iff a non-zero lesson number was given, and then it ends with ` in lesson <n>.` for that number |
| `CourseSearch.HeaderNamesLesson` | backend/search_tools.py:99-103 | a hit's header names a lesson iff the hit has a lesson number; otherwise it is the bracketed title alone |
| `CourseSearch.SourceIsAnchor` | backend/search_tools.py:105-121 | a source differs from the plain display text iff the hit has a lesson whose link is non-empty |
| `CourseOutline.FirstMatch` | backend/search_tools.py:183-187 | the index of the first catalogue entry with the resolved title, or none when no entry has it |
| `CourseOutline.CourseOutlineTool.constructor` | backend/search_tools.py:136-160 | the tool keeps its store and advertises the fixed `get_course_outline` definition |
| `CourseOutline.CourseOutlineTool.Execute` | backend/search_tools.py:162-193 | the not-found message when the name does not resolve to a non-empty title; else the no-metadata message for an empty catalogue; else the no-details message when no entry has the title; else the outline of the first entry that has it |
| `CourseOutline.CourseOutlineTool.FormatCourseOutline` | backend/search_tools.py:195-226 | the title line, the optional instructor and link lines, then "Lessons:" and one line per lesson or the no-lessons line, joined by newlines |
| `CourseOutline.RenderLesson` | backend/search_tools.py:215-222 | one lesson line: number or "?", title or "Untitled Lesson", and the link in parentheses when non-empty |
| `CourseOutline.LessonLineIndent` | backend/search_tools.py:219 | every lesson line starts with the indented `"  Lesson "` label |
| `CourseOutline.LessonLinkShown` | backend/search_tools.py:219-221 | a lesson line extends its base line, and is longer iff the lesson has a non-empty link |
| `CourseOutline.InstructorShown` | backend/search_tools.py:205-206 | the outline has an `"Instructor: "` line iff the course has a non-empty instructor |
| `CourseOutline.LinkShown` | backend/search_tools.py:208-209 | the outline has a `"Course Link: "` line iff the course has a non-empty link |
| `CourseOutline.NoLessonsShown` | backend/search_tools.py:212-224 | the no-lessons line appears iff the course has no lessons |
| `CourseOutline.LessonsLast` | backend/search_tools.py:212-222 | with lessons, the outline ends with "Lessons:" followed by one line per lesson, in catalogue order |
| `CourseOutline.OutlineTitleFirst` | backend/search_tools.py:197-203 | an outline begins with its `"Course: "` line |
| `CourseOutline.OutlineOnlyOnSuccess` | backend/search_tools.py:172-193 | the tool answers with an outline (text starting `"Course: "`) iff the name resolves and some catalogue entry has that title |
| `CourseOutline.NotFoundReported` | backend/search_tools.py:173-175 | the answer is the not-found message iff the name does not resolve to a non-empty title |
| `ToolRegistry.SearchArguments` | backend/search_tools.py:54-56 | keyword binding for the search tool: an unknown key or a missing `query` raises; a bound query is the `query` argument |
| `ToolRegistry.OutlineArguments` | backend/search_tools.py:162 | keyword binding for the outline tool succeeds iff the arguments are exactly a string `course_name` |
| `ToolRegistry.ToolManager.constructor` | backend/search_tools.py:232-233 | an empty registry, which satisfies the registry invariant |
| `ToolRegistry.ToolManager.RegisterTool` | backend/search_tools.py:235-241 | a definition without a truthy name raises ValueError and changes nothing; otherwise the tool is stored under its name, a new name is appended to the order, a re-registered name keeps its place; the invariant (distinct ordered names, each the name in its tool's definition) is kept |
| `ToolRegistry.ToolManager.ToolDefinitions` | backend/search_tools.py:243-245 | one definition per registered name, in registration order, each carrying that name; a name is registered iff some definition carries it; no two definitions share a name |
| `ToolRegistry.ToolManager.ExecuteTool` | backend/search_tools.py:247-252 | arguments named `self` or `tool_name` make the call raise TypeError before any look-up; an unknown name gives the not-found text; otherwise the named tool's result or exception; only the named search tool's sources can change, as its `Execute` says |
| `ToolRegistry.ToolManager.LastSources` | backend/search_tools.py:254-260 | empty iff every registered search tool's sources are empty; otherwise the sources of the first such tool, in registration order, with non-empty sources |
| `ToolRegistry.ToolManager.ResetSources` | backend/search_tools.py:262-266 | every registered search tool's sources become empty, so the last sources are empty |
| `Generator.ConvertedTool` | backend/ai_generator.py:126-138 | a definition without "input_schema" passes through; one with it becomes the function wrapper holding its name, description and schema, and raises KeyError iff the name or description is missing |
| `Generator.ConvertedTools` | backend/ai_generator.py:123-141 | on success, one converted definition per given definition, in order |
| `Generator.ConversionErrorStops` | backend/ai_generator.py:125-135 | once a definition fails to convert, the conversion raises that error whatever follows |
| `Generator.ConversionFails` | backend/ai_generator.py:123-141 | the conversion raises iff some definition cannot be converted |
| `Generator.ConversionIdempotent` | backend/ai_generator.py:127-138 | converting converted definitions changes nothing |
| `Generator.AIGenerator.constructor` | backend/ai_generator.py:33-46 | the generator keeps its model name and system prompt |
| `Generator.AIGenerator.ConvertTools` | backend/ai_generator.py:123-141 | the loop's result is the conversion of the whole list, or its first error |
| `Generator.AIGenerator.GenerateResponse` | backend/ai_generator.py:48-158 | the answer and the requests sent are those of the exchange: first request, then a direct answer, or a tool round when the reply's finish reason is "tool_calls" and a manager is given |
| `Generator.AIGenerator.HandleToolExecution` | backend/ai_generator.py:160-220 | the tool round: every carried call runs in order through the manager; the first exception ends the round after one request; otherwise one follow-up request is sent and its content is the answer |
| `Generator.ToolResults` | backend/ai_generator.py:184-199 | on success, one tool turn per call, in order, carrying the call's id, the tool name and the manager's result |
| `Generator.ToolErrorStops` | backend/ai_generator.py:185-192 | once a tool raises, later calls do not run: the round raises that exception |
| `Generator.FirstToolError` | backend/ai_generator.py:186-192 | a failed round's exception is the one raised by the first failing call, and every call before it ran |
| `Generator.EmptyHistory` | backend/ai_generator.py:66-107 | with no transcript the first request holds just the system prompt and the query |
| `Generator.FirstRequestShape` | backend/ai_generator.py:103-141 | the first request: system prompt first, the parsed transcript, the query last, temperature 0, 800 tokens; tools with choice "auto" iff definitions were given, and then the attached tools are the in-order conversion of the given definitions |
| `Generator.DirectAnswer` | backend/ai_generator.py:143-158 | without a tool request or without a manager, one request is sent and its content is the answer; a client exception is re-raised |
| `Generator.AtMostTwoRequests` | backend/ai_generator.py:153-155 | at most two requests; none only when conversion raised; a second only after a "tool_calls" reply with a manager; then the answer is the second reply's content |
| `Generator.ToolRoundRequests` | backend/ai_generator.py:153-155 | after a "tool_calls" reply with a manager at hand: when every carried call returns, exactly two requests are made; when a call raises, only the first request is made and the exchange raises the first exception a tool raised |
| `Generator.FollowUpWithoutTools` | backend/ai_generator.py:212-220 | the follow-up request carries no tools, uses temperature 0 and 800 tokens; its reply's content is the answer, and its exception is re-raised |
| `Generator.FollowUpChain` | backend/ai_generator.py:173-206 | the follow-up messages: the system prompt, the whole first request (so two system turns), the assistant's call turn, then one tool turn per call in order with its id and name; every tool turn answers, by id, to the call turn before it |

## Left out

- The HTTP client for the completion service: it is an oracle from the requests sent to a reply.
- The client construction, API key and base URL: there is nothing to state about them.
- The text of `SYSTEM_PROMPT`: the prompt is a constructor parameter.
- Debug printing: it has no effect on results.
- `json.loads` of tool-call arguments: arguments arrive already decoded, so a malformed-JSON exception is not modelled.
- The vector store's internals (embeddings, ChromaDB, fuzzy course-name resolution): its queries are fixed functions of their arguments.
- The web API, the session manager, the document processor and the test suites: they are not part of this model.
- `ToolRegistry.SearchArguments`: an argument of the wrong JSON type raises TypeError, whereas Python would pass it through to the tool unchecked. The unexpected-keyword message does not name the key.
- `ToolRegistry.OutlineArguments`: a `course_name` that is not a string (JSON null, a number) raises TypeError, whereas Python would bind it and hand it to the store's course-name resolution; the store's resolver is modelled on strings only.
- `ToolRegistry.ToolManager.RegisterTool`: a truthy name that is not a string raises TypeError instead of registering under a non-string key.
- `ToolRegistry.ToolManager.LastSources`: only search tools carry sources; another tool with its own `last_sources` attribute is not modelled.
- `CourseSearch.CourseSearchTool.Execute`: a metadata key present with the value None reads as absent. The same holds for the catalogue entries in `CourseOutline.CourseOutlineTool.FormatCourseOutline`. Python would render the text "None" there.
- `CourseOutline.RenderLesson`: a lesson number is an integer when present; other value types are not modelled.
- `Generator.AIGenerator.GenerateResponse`: does not state the search tools' sources after the round. `ToolRegistry.ToolManager.ExecuteTool` states them call by call.
- `Generator.AIGenerator.HandleToolExecution`: may change the registered search tools' sources, but does not state what they are after the round; only the answer and the requests sent are stated. `ToolRegistry.ToolManager.ExecuteTool` states them call by call.
