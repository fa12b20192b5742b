/**
 * The registration helper (`registerTools`): registers, in order, every tool
 * definition that is well formed with an MCP server, wrapping each tool's
 * `execute` in a handler that validates the arguments and turns anything the
 * tool throws into a failure record.
 *
 * A tool's `execute` and its schema's `parse` are oracles; the server is the
 * sequence of registrations it has accepted.
 */
module RegisterTools {
  import opened Js

  /** What `inputSchema.parse(args)` does: return the validated arguments, or throw. */
  datatype ParseOutcome = Parsed(args: Json) | ParseThrew(error: Thrown)

  /** The result object a tool returns: the base fields, and its own further properties as they are. */
  datatype ToolOutput = ToolOutput(
    success: bool,
    error: Option<string>,
    content: seq<ContentPart>,
    rest: seq<(string, Json)>)

  /** What `await tool.execute(args, workspaceRoot, options)` does: resolve with a result, or throw. */
  datatype ExecOutcome = Resolved(output: ToolOutput) | Rejected(error: Thrown)

  /** The `name` property: a string, or some other value. */
  datatype NameField = StringName(text: string) | OtherName

  /** The `execute` property: a function (given by what it does), or something else. */
  datatype ExecuteField = NotAFunction | Function(run: (Json, string, Json) -> ExecOutcome)

  /** The `inputSchema` property: a Zod object schema (its shape's keys and its parser), or something else. */
  datatype SchemaField = ZodObject(shape: seq<string>, parse: Json -> ParseOutcome) | OtherSchema

  datatype ToolDef = ToolDef(name: NameField, description: Option<string>, execute: ExecuteField, inputSchema: SchemaField)

  /** One tool registered with the server; its handler is `Handle(tool, ·, ·)`. */
  datatype Registration = Registration(name: string, description: string, shape: seq<string>, tool: ToolDef)

  // ---------------------------------------------------------------- the validity filter

  /** The structural check: a tool object with a non-empty string name, a function `execute` and a Zod object schema. */
  predicate Valid(t: Option<ToolDef>)
  {
    && t.Some?
    && t.value.name.StringName? && t.value.name.text != ""
    && t.value.execute.Function?
    && t.value.inputSchema.ZodObject?
  }

  /** The registration made for a valid tool: its name, its description or '', its schema's shape. */
  function RegistrationOf(t: ToolDef): (r: Registration)
    requires Valid(Some(t))
    ensures r.name == t.name.text && r.shape == t.inputSchema.shape && r.tool == t
    ensures r.description == "" <==> t.description.None? || t.description.value == ""
    ensures t.description.Some? ==> r.description == t.description.value
  {
    Registration(t.name.text, if t.description.Some? then t.description.value else "", t.inputSchema.shape, t)
  }

  /** The registrations made for `tools`, in array order. */
  function Registrations(tools: seq<Option<ToolDef>>): seq<Registration>
  {
    if |tools| == 0 then []
    else
      var last := tools[|tools| - 1];
      Registrations(tools[..|tools| - 1]) + (if Valid(last) then [RegistrationOf(last.value)] else [])
  }

  // ---------------------------------------------------------------- the server

  class McpServer {
    var registrations: seq<Registration>

    constructor ()
      ensures registrations == []
    {
      registrations := [];
    }

    /** `server.tool(name, description, shape, handler)` */
    method Tool(name: string, description: string, shape: seq<string>, tool: ToolDef)
      modifies this
      ensures registrations == old(registrations) + [Registration(name, description, shape, tool)]
    {
      registrations := registrations + [Registration(name, description, shape, tool)];
    }
  }

  /** `registerTools(server, tools)`: invalid definitions are skipped, never thrown on. */
  method RegisterAll(server: McpServer, tools: seq<Option<ToolDef>>)
    modifies server
    ensures server.registrations == old(server.registrations) + Registrations(tools)
  {
    var i := 0;
    while i < |tools|
      invariant 0 <= i <= |tools|
      invariant server.registrations == old(server.registrations) + Registrations(tools[..i])
    {
      assert tools[..i + 1][..i] == tools[..i];
      var tool := tools[i];
      if Valid(tool) {
        var t := tool.value;
        var zodShape := t.inputSchema.shape;
        server.Tool(t.name.text, if t.description.Some? then t.description.value else "", zodShape, t);
      }
      i := i + 1;
    }
    assert tools[..i] == tools;
  }

  // ---------------------------------------------------------------- the handler

  const FailurePrefix: string := "Tool execution failed: "
  const UnknownExecutionError: string := "Unknown execution error"

  /** The record the handler returns when validation or `execute` throws `e`. */
  function Failure(e: Thrown): (out: ToolOutput)
    ensures !out.success && out.rest == []
    ensures out.error == Some(FailurePrefix + MessageOr(e, UnknownExecutionError))
    ensures out.content == [TextPart(out.error.value)]
  {
    var text := FailurePrefix + MessageOr(e, UnknownExecutionError);
    ToolOutput(false, Some(text), [TextPart(text)], [])
  }

  /**
   * The handler registered for a valid tool, called with `args` in a process
   * whose working directory is `cwd`: validate, then run `execute` with the
   * validated arguments, `cwd` as workspace root and empty options.
   */
  function Handle(t: ToolDef, args: Json, cwd: string): (out: ToolOutput)
    requires Valid(Some(t))
  {
    match t.inputSchema.parse(args)
    case ParseThrew(e) => Failure(e)
    case Parsed(validated) =>
      match t.execute.run(validated, cwd, EmptyObject)
      case Resolved(result) => result
      case Rejected(e) => Failure(e)
  }

  // ---------------------------------------------------------------- properties

  /** Every registration comes from a valid tool of the array. */
  lemma {:induction false} RegisteredOnlyValid(tools: seq<Option<ToolDef>>)
    ensures forall r :: r in Registrations(tools) ==>
      exists i :: 0 <= i < |tools| && Valid(tools[i]) && r == RegistrationOf(tools[i].value)
    decreases |tools|
  {
    if |tools| > 0 {
      var n := |tools| - 1;
      var init := tools[..n];
      RegisteredOnlyValid(init);
      forall r | r in Registrations(tools)
        ensures exists i :: 0 <= i < |tools| && Valid(tools[i]) && r == RegistrationOf(tools[i].value)
      {
        if r in Registrations(init) {
          var i :| 0 <= i < |init| && Valid(init[i]) && r == RegistrationOf(init[i].value);
          assert tools[i] == init[i];
        }
      }
    }
  }

  /** Every valid tool of the array is registered. */
  lemma {:induction false} ValidRegistered(tools: seq<Option<ToolDef>>)
    ensures forall i :: 0 <= i < |tools| && Valid(tools[i]) ==> RegistrationOf(tools[i].value) in Registrations(tools)
    decreases |tools|
  {
    if |tools| > 0 {
      var n := |tools| - 1;
      var init := tools[..n];
      ValidRegistered(init);
      assert forall i :: 0 <= i < n ==> init[i] == tools[i];
    }
  }

  /** The registrations of a concatenation are those of its parts, in order: array order is kept. */
  lemma {:induction false} RegistrationsConcat(a: seq<Option<ToolDef>>, b: seq<Option<ToolDef>>)
    ensures Registrations(a + b) == Registrations(a) + Registrations(b)
    decreases |b|
  {
    if |b| > 0 {
      var n := |b| - 1;
      assert (a + b)[..|a + b| - 1] == a + b[..n];
      assert (a + b)[|a + b| - 1] == b[n];
      RegistrationsConcat(a, b[..n]);
    } else {
      assert a + b == a;
    }
  }

  /** Exactly one registration per valid tool: the count is the number of valid tools. */
  function ValidCount(tools: seq<Option<ToolDef>>): nat
  {
    if |tools| == 0 then 0 else (if Valid(tools[0]) then 1 else 0) + ValidCount(tools[1..])
  }

  lemma {:induction false} RegistrationsCount(tools: seq<Option<ToolDef>>)
    ensures |Registrations(tools)| == ValidCount(tools)
    decreases |tools|
  {
    if |tools| > 0 {
      RegistrationsConcat([tools[0]], tools[1..]);
      assert [tools[0]] + tools[1..] == tools;
      assert [tools[0]][..0] == [];
      RegistrationsCount(tools[1..]);
    }
  }

  /** A validation error or a thrown `execute` yields the failure record; a non-error value gives the fixed text. */
  lemma HandleFailures(t: ToolDef, args: Json, cwd: string)
    requires Valid(Some(t))
    ensures t.inputSchema.parse(args).ParseThrew? ==> Handle(t, args, cwd) == Failure(t.inputSchema.parse(args).error)
    ensures
      (t.inputSchema.parse(args).Parsed? && t.execute.run(t.inputSchema.parse(args).args, cwd, EmptyObject).Rejected?)
      ==> Handle(t, args, cwd) == Failure(t.execute.run(t.inputSchema.parse(args).args, cwd, EmptyObject).error)
  {
  }

  /** On success the handler returns `execute`'s result unchanged. */
  lemma HandlePassesThrough(t: ToolDef, args: Json, cwd: string, validated: Json, result: ToolOutput)
    requires Valid(Some(t))
    requires t.inputSchema.parse(args) == Parsed(validated)
    requires t.execute.run(validated, cwd, EmptyObject) == Resolved(result)
    ensures Handle(t, args, cwd) == result
  {
  }

  /** The failure text names the error's message, or the fixed text for a thrown non-error. */
  lemma FailureText(e: Thrown)
    ensures e.ErrorObject? ==> Failure(e).error == Some(FailurePrefix + e.message)
    ensures !e.ErrorObject? ==> Failure(e).error == Some(FailurePrefix + UnknownExecutionError)
  {
  }
}
