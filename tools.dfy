/**
 * The tool registry that every provider engine keeps: declarations advertised to
 * the model, executables by name, and the builtin flag. The registration methods
 * live in each engine's class; this module holds the shared data and the
 * reference definitions those methods are proved against.
 */
module Tools {
  import opened Base
  import opened Errors
  import opened Functions
  import opened Prompts

  /** What a tool function returns: Go's `(string, error)` pair. */
  datatype CallResult = CallResult(content: string, err: Option<Error>)

  /** A tool function: `func(param string) (string, error)`. */
  type ToolFn = string -> CallResult

  /** A `tools.Tool`: name, description and its `Call` (the Go context is dropped). */
  datatype Tool = Tool(name: string, description: string, call: ToolFn)

  /**
   * A JSON-schema object: `type`, the properties (each a map of JSON attributes such
   * as "type" and "description") and the `required` list.
   */
  datatype Schema = Schema(typ: string, properties: map<string, map<string, string>>, required: seq<string>)

  /** A declared tool: name, description and parameter schema. */
  datatype ToolDecl = ToolDecl(name: string, description: string, schema: Schema)

  /** The schema of a builtin tool: one required string property `input`. */
  function BuiltinSchema(inputAttrs: map<string, string>): Schema
  {
    Schema("object", map["input" := inputAttrs], ["input"])
  }

  /** The declarations WithTools appends: one builtin declaration per tool, in order. */
  function BuiltinDecls(tools: seq<Tool>, inputAttrs: map<string, string>): (ds: seq<ToolDecl>)
    ensures |ds| == |tools|
    ensures forall i :: 0 <= i < |tools| ==>
      ds[i] == ToolDecl(tools[i].name, tools[i].description, BuiltinSchema(inputAttrs))
  {
    if tools == [] then []
    else
      var last := tools[|tools| - 1];
      BuiltinDecls(tools[..|tools| - 1], inputAttrs) + [ToolDecl(last.name, last.description, BuiltinSchema(inputAttrs))]
  }

  /** The executables after registering `tools` in order over `m`. */
  function RegisterAll(m: map<string, ToolFn>, tools: seq<Tool>): map<string, ToolFn>
  {
    if tools == [] then m
    else RegisterAll(m, tools[..|tools| - 1])[tools[|tools| - 1].name := tools[|tools| - 1].call]
  }

  /** The builtin flags after marking every tool of `tools`. */
  function MarkAll(m: map<string, bool>, tools: seq<Tool>): map<string, bool>
  {
    if tools == [] then m
    else MarkAll(m, tools[..|tools| - 1])[tools[|tools| - 1].name := true]
  }

  /**
   * Registration is last-write-wins per name: a name some tool carries maps to the
   * call of the LAST tool with that name; every other name keeps its old executable.
   */
  lemma {:induction false} RegisterAllSpec(m: map<string, ToolFn>, tools: seq<Tool>, n: string)
    ensures n in RegisterAll(m, tools) <==> n in m || exists i :: 0 <= i < |tools| && tools[i].name == n
    ensures (forall i :: 0 <= i < |tools| ==> tools[i].name != n) && n in m ==>
      RegisterAll(m, tools)[n] == m[n]
    ensures forall i ::
      (0 <= i < |tools| && tools[i].name == n && forall j :: i < j < |tools| ==> tools[j].name != n) ==>
      RegisterAll(m, tools)[n] == tools[i].call
  {
    if tools != [] {
      var init := tools[..|tools| - 1];
      RegisterAllSpec(m, init, n);
      if (exists i :: 0 <= i < |tools| && tools[i].name == n) && tools[|tools| - 1].name != n {
        var i :| 0 <= i < |tools| && tools[i].name == n;
        assert init[i].name == n;
      }
    }
  }

  /** Marking sets exactly the names of `tools` to true and keeps every other flag. */
  lemma {:induction false} MarkAllSpec(m: map<string, bool>, tools: seq<Tool>, n: string)
    ensures (exists i :: 0 <= i < |tools| && tools[i].name == n) ==> n in MarkAll(m, tools) && MarkAll(m, tools)[n]
    ensures (forall i :: 0 <= i < |tools| ==> tools[i].name != n) ==>
      (n in MarkAll(m, tools) <==> n in m) && (n in m ==> MarkAll(m, tools)[n] == m[n])
  {
    if tools != [] {
      var init := tools[..|tools| - 1];
      MarkAllSpec(m, init, n);
      if (exists i :: 0 <= i < |tools| && tools[i].name == n) && tools[|tools| - 1].name != n {
        var i :| 0 <= i < |tools| && tools[i].name == n;
        assert init[i].name == n;
      }
    }
  }

  /** A Go map lookup of a builtin flag: a missing name reads as false. */
  predicate IsBuiltin(flags: map<string, bool>, name: string)
  {
    name in flags && flags[name]
  }

  /**
   * The argument a registered tool receives: for a builtin tool the `input` member
   * of its JSON arguments (when there is one), for any other tool the raw text.
   */
  function ToolInput(flags: map<string, bool>, name: string, args: RawArgs): string
  {
    if IsBuiltin(flags, name) then ExtractBuiltinInput(args) else args.text
  }

  /**
   * Calling the tool a model asked for by name: an unregistered name, or a tool that
   * returns an error, fails with ErrToolCallFailed; otherwise the tool's output.
   */
  function Invoke(exec: map<string, ToolFn>, builtin: map<string, bool>, name: string, args: RawArgs): Result<string, Error>
  {
    if name !in exec then Err(Annotated(ToolCallFailed, "unknown tool " + Quote(name)))
    else
      var r := exec[name](ToolInput(builtin, name, args));
      if r.err.Some? then Err(Annotated(ToolCallFailed, "tool " + Quote(name) + ": " + Message(r.err.value)))
      else Ok(r.content)
  }

  /**
   * A call succeeds exactly for a registered tool that returns no error, and then yields
   * that tool's output on the (extracted) input; every failure wraps ErrToolCallFailed
   * and names the tool.
   */
  lemma InvokeSpec(exec: map<string, ToolFn>, builtin: map<string, bool>, name: string, args: RawArgs)
    ensures Invoke(exec, builtin, name, args).Ok? <==> name in exec && exec[name](ToolInput(builtin, name, args)).err.None?
    ensures Invoke(exec, builtin, name, args).Ok? ==>
      Invoke(exec, builtin, name, args).value == exec[name](ToolInput(builtin, name, args)).content
    ensures Invoke(exec, builtin, name, args).Err? ==>
      Invoke(exec, builtin, name, args).error.Annotated? && Is(Invoke(exec, builtin, name, args).error, ToolCallFailed)
    ensures name !in exec ==> Invoke(exec, builtin, name, args) == Err(Annotated(ToolCallFailed, "unknown tool " + Quote(name)))
  {
  }

  /** The JSON attributes of one custom string parameter. */
  function CustomPropertyAttrs(description: string): map<string, string>
  {
    map["type" := "string", "description" := description]
  }

  /**
   * What a custom tool declares for `shape`: one string property per entry, and a
   * `required` list holding exactly the required entries, each once. Go walks the
   * map in an unspecified order, so the order of `required` is left open.
   */
  ghost predicate DeclaresShape(shape: FunctionShape, schema: Schema)
  {
    && schema.typ == "object"
    && schema.properties.Keys == shape.Keys
    && (forall k :: k in shape ==> schema.properties[k] == CustomPropertyAttrs(shape[k].description))
    && (forall k :: k in schema.required <==> k in shape && shape[k].required)
    && (forall i, j :: 0 <= i < j < |schema.required| ==> schema.required[i] != schema.required[j])
  }

  /**
   * The schema loop of AddCustomTools (anthropic.go:119-130, ollama.go:69-80): the
   * next key is chosen nondeterministically, as Go's map iteration order is.
   */
  method BuildCustomSchema(shape: FunctionShape) returns (schema: Schema)
    ensures DeclaresShape(shape, schema)
  {
    var properties: map<string, map<string, string>> := map[];
    var required: seq<string> := [];
    var remaining := shape.Keys;
    while remaining != {}
      invariant remaining <= shape.Keys
      invariant properties.Keys == shape.Keys - remaining
      invariant forall k :: k in properties ==> properties[k] == CustomPropertyAttrs(shape[k].description)
      invariant forall k :: k in required <==> k in shape.Keys - remaining && shape[k].required
      invariant forall i, j :: 0 <= i < j < |required| ==> required[i] != required[j]
      decreases remaining
    {
      var fieldName :| fieldName in remaining;
      properties := properties[fieldName := CustomPropertyAttrs(shape[fieldName].description)];
      if shape[fieldName].required {
        required := required + [fieldName];
      }
      remaining := remaining - {fieldName};
    }
    schema := Schema("object", properties, required);
  }

  /**
   * The required list of a declared shape is as long as the number of required
   * entries, whatever order the map walk took.
   */
  lemma DeclaredRequiredCount(shape: FunctionShape, schema: Schema)
    requires DeclaresShape(shape, schema)
    ensures |schema.required| == |set k | k in shape && shape[k].required|
  {
    var req := set k | k in shape && shape[k].required;
    DistinctCardinality(schema.required);
    assert (set i | 0 <= i < |schema.required| :: schema.required[i]) == req;
  }

  /** A sequence without repeats has as many distinct elements as entries. */
  lemma {:induction false} DistinctCardinality(xs: seq<string>)
    requires forall i, j :: 0 <= i < j < |xs| ==> xs[i] != xs[j]
    ensures |set i | 0 <= i < |xs| :: xs[i]| == |xs|
  {
    if xs != [] {
      var init := xs[..|xs| - 1];
      DistinctCardinality(init);
      var s := set i | 0 <= i < |xs| :: xs[i];
      var t := set i | 0 <= i < |init| :: init[i];
      assert s == t + {xs[|xs| - 1]};
      assert xs[|xs| - 1] !in t;
    }
  }
}
