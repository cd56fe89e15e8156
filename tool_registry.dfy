/**
 * `ToolManager`: a registry of tools keyed by the name in each tool's
 * definition. Python dictionaries keep insertion order and keep a key's
 * position when its value is replaced, so the registry is a map together
 * with the sequence of its keys in first-registration order.
 */
module ToolRegistry {
  import opened Wrappers
  import opened Errors
  import opened Json
  import CourseSearch
  import CourseOutline

  /** A registered tool: one of the two course tools, or any other tool given by its definition and behaviour. */
  datatype Tool =
    | Search(search: CourseSearch.CourseSearchTool)
    | Outline(outline: CourseOutline.CourseOutlineTool)
    | Plugin(definition: JsonObject, run: JsonObject -> Result<string, PyError>)

  function DefinitionOf(tool: Tool): JsonObject {
    match tool
    case Search(search) => search.definition
    case Outline(outline) => outline.definition
    case Plugin(definition, _) => definition
  }

  /** Python truthiness of a JSON value. */
  predicate JsonTruthy(j: Json) {
    match j
    case JNull => false
    case JBool(b) => b
    case JInt(i) => i != 0
    case JString(s) => s != ""
    case JArray(items) => |items| > 0
    case JObject(fields) => |fields| > 0
  }

  /** The registration name of a definition: its "name" entry, when that is a non-empty string. */
  function NameOf(definition: JsonObject): Option<string> {
    if "name" in definition && definition["name"].JString? && definition["name"].s != "" then
      Some(definition["name"].s)
    else None
  }

  const MissingNameError := ValueError("Tool must have a 'name' in its definition")

  function NotFoundMessage(toolName: string): string {
    "Tool '" + toolName + "' not found"
  }

  function MultipleValues(parameter: string): PyError {
    TypeError("execute_tool() got multiple values for argument '" + parameter + "'")
  }

  const Unexpected := TypeError("execute() got an unexpected keyword argument")

  function Missing(key: string): PyError {
    TypeError("execute() missing 1 required positional argument: '" + key + "'")
  }

  /** Binds keyword arguments to `CourseSearchTool.execute(query, course_name=None, lesson_number=None)`. */
  function SearchArguments(args: JsonObject): (r: Result<(string, Option<string>, Option<int>), PyError>)
    ensures r.Ok? ==> "query" in args && args["query"] == JString(r.value.0)
    ensures r.Ok? ==> forall key :: key in args ==> key in {"query", "course_name", "lesson_number"}
    ensures "query" !in args ==> r.Err?
  {
    if exists key :: key in args && key !in {"query", "course_name", "lesson_number"} then Err(Unexpected)
    else if "query" !in args then Err(Missing("query"))
    else if !args["query"].JString? then Err(TypeError("query must be a string"))
    else
      var courseName :=
        if "course_name" !in args || args["course_name"].JNull? then Ok(None)
        else if args["course_name"].JString? then Ok(Some(args["course_name"].s))
        else Err(TypeError("course_name must be a string"));
      var lessonNumber :=
        if "lesson_number" !in args || args["lesson_number"].JNull? then Ok(None)
        else if args["lesson_number"].JInt? then Ok(Some(args["lesson_number"].i))
        else Err(TypeError("lesson_number must be an integer"));
      if courseName.Err? then Err(courseName.error)
      else if lessonNumber.Err? then Err(lessonNumber.error)
      else Ok((args["query"].s, courseName.value, lessonNumber.value))
  }

  /** Binds keyword arguments to `CourseOutlineTool.execute(course_name)`. */
  function OutlineArguments(args: JsonObject): (r: Result<string, PyError>)
    ensures r.Ok? <==> args.Keys == {"course_name"} && args["course_name"].JString?
    ensures r.Ok? ==> args["course_name"] == JString(r.value)
  {
    if exists key :: key in args && key != "course_name" then Err(Unexpected)
    else if "course_name" !in args then Err(Missing("course_name"))
    else if !args["course_name"].JString? then Err(TypeError("course_name must be a string"))
    else Ok(args["course_name"].s)
  }

  /** What `tool.execute(**args)` returns or raises; the course tools' results do not depend on their sources. */
  function Outcome(tool: Tool, args: JsonObject): Result<string, PyError> {
    match tool
    case Search(search) =>
      (match SearchArguments(args)
       case Err(e) => Err(e)
       case Ok((query, courseName, lessonNumber)) =>
         Ok(CourseSearch.SearchText(search.store, query, courseName, lessonNumber)))
    case Outline(outline) =>
      (match OutlineArguments(args)
       case Err(e) => Err(e)
       case Ok(courseName) => Ok(CourseOutline.OutlineResult(outline.store, courseName)))
    case Plugin(_, run) => run(args)
  }

  class ToolManager {
    var tools: map<string, Tool>
    /** The registered names in first-registration order. */
    var order: seq<string>

    ghost predicate Valid()
      reads this
    {
      (forall i, j :: 0 <= i < j < |order| ==> order[i] != order[j])
      && (forall i :: 0 <= i < |order| ==> order[i] in tools)
      && (forall name :: name in tools ==> name in order)
      && (forall name :: name in tools ==> NameOf(DefinitionOf(tools[name])) == Some(name))
    }

    /** The course-search tools, whose `lastSources` the registry reads and resets. */
    function SearchTools(): set<CourseSearch.CourseSearchTool>
      reads this
    {
      set name | name in tools && tools[name].Search? :: tools[name].search
    }

    constructor ()
      ensures tools == map[] && order == []
      ensures Valid()
    {
      tools := map[];
      order := [];
    }

    method RegisterTool(tool: Tool) returns (r: Result<(), PyError>)
      requires Valid()
      modifies this
      ensures Valid()
      ensures var definition := DefinitionOf(tool);
        if "name" !in definition || !JsonTruthy(definition["name"]) then
          r == Err(MissingNameError) && tools == old(tools) && order == old(order)
        else if !definition["name"].JString? then
          r.Err? && r.error.TypeError? && tools == old(tools) && order == old(order)
        else
          var name := definition["name"].s;
          r.Ok? && tools == old(tools)[name := tool]
          && order == if name in old(tools) then old(order) else old(order) + [name]
    {
      var toolDef := DefinitionOf(tool);
      if "name" !in toolDef || !JsonTruthy(toolDef["name"]) {
        return Err(ValueError("Tool must have a 'name' in its definition"));
      }
      if !toolDef["name"].JString? {
        return Err(TypeError("tool names are strings"));
      }
      var toolName := toolDef["name"].s;
      if toolName !in tools {
        order := order + [toolName];
      }
      tools := tools[toolName := tool];
      r := Ok(());
    }

    /** `get_tool_definitions`: one definition per registered name, in registration order. */
    function ToolDefinitions(): (definitions: seq<JsonObject>)
      reads this
      requires Valid()
      ensures |definitions| == |order|
      ensures forall i :: 0 <= i < |order| ==> NameOf(definitions[i]) == Some(order[i])
      ensures forall name :: name in tools <==> exists i :: 0 <= i < |definitions| && NameOf(definitions[i]) == Some(name)
      ensures forall i, j :: 0 <= i < j < |definitions| ==> NameOf(definitions[i]) != NameOf(definitions[j])
    {
      var names, registered := order, tools;
      seq(|names|, i requires 0 <= i < |names| => DefinitionOf(registered[names[i]]))
    }

    /**
     * What `execute_tool(name, **args)` returns or raises. An argument named
     * like one of the method's own parameters (`self`, `tool_name`) makes the
     * call itself raise, before any tool is looked up.
     */
    function Dispatch(toolName: string, args: JsonObject): Result<string, PyError>
      reads this
    {
      if "self" in args then Err(MultipleValues("self"))
      else if "tool_name" in args then Err(MultipleValues("tool_name"))
      else if toolName !in tools then Ok(NotFoundMessage(toolName))
      else Outcome(tools[toolName], args)
    }

    /** The search tool that `execute_tool(name, ...)` may update, if any. */
    function Touched(toolName: string): set<CourseSearch.CourseSearchTool>
      reads this
    {
      if toolName in tools && tools[toolName].Search? then {tools[toolName].search} else {}
    }

    method ExecuteTool(toolName: string, args: JsonObject) returns (r: Result<string, PyError>)
      modifies Touched(toolName)
      ensures r == Dispatch(toolName, args)
      ensures r.Ok? && toolName in tools && tools[toolName].Search? ==>
        var search := tools[toolName].search;
        var (query, courseName, lessonNumber) := SearchArguments(args).value;
        search.lastSources ==
          if CourseSearch.RecordsSources(search.store, query, courseName, lessonNumber)
          then CourseSearch.Sources(search.store, search.store.search(query, courseName, lessonNumber))
          else old(search.lastSources)
      ensures r.Err? || toolName !in tools || !tools[toolName].Search? ==> unchanged(Touched(toolName))
    {
      if "self" in args {
        return Err(MultipleValues("self"));
      }
      if "tool_name" in args {
        return Err(MultipleValues("tool_name"));
      }
      if toolName !in tools {
        return Ok("Tool '" + toolName + "' not found");
      }
      match tools[toolName]
      case Search(search) =>
        var bound := SearchArguments(args);
        if bound.Err? {
          return Err(bound.error);
        }
        var (query, courseName, lessonNumber) := bound.value;
        var text := search.Execute(query, courseName, lessonNumber);
        r := Ok(text);
      case Outline(outline) =>
        var bound := OutlineArguments(args);
        if bound.Err? {
          return Err(bound.error);
        }
        var text := outline.Execute(bound.value);
        r := Ok(text);
      case Plugin(_, run) =>
        r := run(args);
    }

    /** `get_last_sources`: the first non-empty `lastSources` among the search tools, in registration order. */
    function LastSources(): (sources: seq<string>)
      reads this, SearchTools()
      requires Valid()
      ensures sources == [] <==>
        forall i :: 0 <= i < |order| && tools[order[i]].Search? ==> tools[order[i]].search.lastSources == []
      ensures sources != [] ==>
        exists i :: (0 <= i < |order| && FirstWithSources(i) && sources == tools[order[i]].search.lastSources)
    {
      SourcesFrom(0)
    }

    /** The search tool registered under `order[i]` is the first one, in order, with recorded sources. */
    ghost predicate FirstWithSources(i: nat)
      reads this, SearchTools()
      requires Valid() && i < |order|
    {
      tools[order[i]].Search? && tools[order[i]].search.lastSources != []
      && forall j :: 0 <= j < i && tools[order[j]].Search? ==> tools[order[j]].search.lastSources == []
    }

    function SourcesFrom(k: nat): (sources: seq<string>)
      reads this, SearchTools()
      requires Valid() && k <= |order|
      ensures sources == [] <==>
        forall i :: k <= i < |order| && tools[order[i]].Search? ==> tools[order[i]].search.lastSources == []
      ensures sources != [] ==>
        exists i :: (k <= i < |order| && tools[order[i]].Search?
                     && sources == tools[order[i]].search.lastSources
                     && forall j :: k <= j < i && tools[order[j]].Search? ==> tools[order[j]].search.lastSources == [])
      decreases |order| - k
    {
      if k == |order| then []
      else if tools[order[k]].Search? && tools[order[k]].search.lastSources != [] then
        tools[order[k]].search.lastSources
      else SourcesFrom(k + 1)
    }

    /** `reset_sources`: every registered search tool forgets its sources. */
    method ResetSources()
      requires Valid()
      modifies SearchTools()
      ensures forall search :: search in SearchTools() ==> search.lastSources == []
      ensures LastSources() == []
    {
      for i := 0 to |order|
        invariant forall j :: 0 <= j < i && tools[order[j]].Search? ==> tools[order[j]].search.lastSources == []
      {
        match tools[order[i]]
        case Search(search) =>
          search.lastSources := [];
        case Outline(_) =>
        case Plugin(_, _) =>
      }
      forall search | search in SearchTools() ensures search.lastSources == [] {
        var name :| name in tools && tools[name].Search? && tools[name].search == search;
        var j :| 0 <= j < |order| && order[j] == name;
      }
    }
  }
}
