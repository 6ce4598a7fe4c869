/** What the two gateway tool handlers share: recovering the bare tool name
    the gateway passes in the invocation context, reading a named argument
    from the event, and the `{statusCode, body}` envelope they answer with. */
module Gateway {
  import opened Optional
  import opened Text
  import opened PyJson

  /** The context key under which the gateway passes the qualified tool name. */
  const ToolNameKey := "bedrockAgentCoreToolName"

  /** The separator between the gateway target's name and the tool's name. */
  const Separator := "___"

  /** `get_tool_name`: the client context's custom map, when the context has
      one, holds `"<Target>___<tool>"`; the tool name is the piece after the
      first separator. A name without separator is returned unchanged, and a
      missing context or key gives the empty name. */
  function ToolName(custom: Option<map<string, string>>): (r: string)
    ensures custom.None? ==> r == ""
    ensures custom.Some? && ToolNameKey !in custom.value ==> r == ""
    ensures custom.Some? && ToolNameKey in custom.value && !Contains(custom.value[ToolNameKey], Separator)
            ==> r == custom.value[ToolNameKey]
    ensures !Contains(r, Separator)
  {
    match custom
    case None => ""
    case Some(m) =>
      var extended := if ToolNameKey in m then m[ToolNameKey] else "";
      if Contains(extended, Separator) then Split(extended, Separator)[1] else extended
  }

  /** A qualified name `"<Target>___<tool>"` yields `<tool>`, for a target
      name that neither contains the separator nor ends in an underscore, and
      a tool name without the separator. */
  lemma ToolNameOfQualified(target: string, tool: string)
    requires !Contains(target, Separator) && (target == [] || target[|target| - 1] != '_')
    requires !Contains(tool, Separator)
    ensures ToolName(Some(map[ToolNameKey := target + Separator + tool])) == tool
  {
    var s := target + Separator + tool;
    assert OccursAt(s, Separator, |target|) by {
      assert s[|target|..|target| + 3] == Separator;
    }
    forall j | 0 <= j < |target|
      ensures !OccursAt(s, Separator, j)
    {
      if j + 3 <= |target| {
        assert s[j..j + 3] == target[j..j + 3];
        assert !OccursAt(target, Separator, j);
      } else {
        assert s[|target| - 1] == target[|target| - 1];
      }
    }
    assert Contains(s, Separator);
    var i := IndexOf(s, Separator).value;
    assert !(i < |target|);
    assert !(|target| < i) by {
      assert !OccursAt(s, Separator, |target|) || i <= |target|;
    }
    assert s[i + 3..] == tool;
    assert Split(s, Separator)[1..] == Split(tool, Separator) == [tool];
  }

  /** A name holding the separator yields the text between its first
      separator and the next one, or the end of the name when there is no
      next one. */
  lemma ToolNameIsSecondPiece(extended: string)
    requires Contains(extended, Separator)
    ensures var i := IndexOf(extended, Separator).value;
      var rest := extended[i + |Separator|..];
      ToolName(Some(map[ToolNameKey := extended]))
        == match IndexOf(rest, Separator) case None => rest case Some(j) => rest[..j]
  {
    var i := IndexOf(extended, Separator).value;
    var rest := extended[i + |Separator|..];
    assert Split(extended, Separator)[1..] == Split(rest, Separator);
  }

  /** `get_named_parameter`: `event.get(name)`, `None` when absent; an event
      that is not a dict has no `get`. */
  function Param(event: Json, name: string): (r: Py<Json>)
    ensures event.Obj? ==> r == Ok(if name in event.fields then event.fields[name] else Null)
    ensures !event.Obj? ==> r.Raised?
  {
    Get(event, name, Null)
  }

  /** The body of a handler response: the tool's result, or `{"error": ...}`. */
  datatype Reply<T> = ToolResult(result: T) | Failure(error: string)

  /** A handler response: exactly a status code and a body. */
  datatype Envelope<T> = Envelope(statusCode: int, body: Reply<T>)

  /** The 400 answer for a tool name the handler does not serve. */
  function UnknownTool<T>(tool: string): (r: Envelope<T>)
    ensures WellFormed(r) && !r.body.ToolResult?
    ensures r.statusCode == 400 && r.body == Failure("Unknown tool: " + tool)
  {
    Envelope(400, Failure("Unknown tool: " + tool))
  }

  /** The 500 answer for an exception that escapes the tool. */
  function InternalError<T>(text: string): (r: Envelope<T>)
    ensures WellFormed(r) && !r.body.ToolResult?
    ensures r.statusCode == 500 && r.body == Failure("Internal error: " + text)
  {
    Envelope(500, Failure("Internal error: " + text))
  }

  /** The shape every handler answer has: 200 exactly when it carries the
      tool's result, 400 or 500 with an error otherwise. */
  predicate WellFormed<T>(r: Envelope<T>) {
    && (r.statusCode == 200 || r.statusCode == 400 || r.statusCode == 500)
    && (r.statusCode == 200 <==> r.body.ToolResult?)
  }
}
