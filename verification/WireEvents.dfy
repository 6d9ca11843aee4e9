/** The engine's events as a client reads them: every event comes back from its payload. */
module WireEvents {
  import opened GoStrings
  import opened Json
  import opened Transcript
  import opened Printer
  import opened Extractors
  import L = ToolLoop

  /** A delta counts exactly when the object is of that type and has a text in that field. */
  lemma DeltaIff(m: map<string, Value>, kind: string, field: string, text: string)
    requires text != ""
    ensures DeltaOf(m, kind, field) == text <==>
            "type" in m && m["type"] == Str(kind) && field in m && m[field] == Str(text)
  {
  }

  /** A text at a key. */
  function TextAt(m: map<string, Value>, key: string): string {
    OrEmpty(StringAt(m, key))
  }

  function ObjectOr(m: map<string, Value>, key: string): map<string, Value> {
    match ObjectAt(m, key) case None => map[] case Some(inner) => inner
  }

  function ToolIn(m: map<string, Value>): ToolCall {
    var tool := ObjectOr(m, "tool");
    ToolCall(TextAt(tool, "id"), TextAt(tool, "name"), TextAt(tool, "arguments"))
  }

  function ToolStatus(m: map<string, Value>): string {
    TextAt(ObjectOr(m, "tool"), "status")
  }

  function Elapsed(m: map<string, Value>): int {
    var tool := ObjectOr(m, "tool");
    if "elapsed_seconds" in tool && tool["elapsed_seconds"].Number? then NumberOf(tool["elapsed_seconds"].digits)
    else -1
  }

  function StatusEvent(status: map<string, Value>): Option<L.Event> {
    var state := TextAt(status, "state");
    if state == "working" then Some(L.Working)
    else if state == "failed" then Some(L.Failed(TextAt(status, "message")))
    else if state == "completed" then
      var message := ObjectOr(status, "message");
      if "parts" in message && message["parts"].Arr? && |message["parts"].items| == 1 && message["parts"].items[0].Obj?
      then Some(L.Completed(TextAt(message["parts"].items[0].members, "text")))
      else None
    else None
  }

  function CallEventIn(m: map<string, Value>, kind: string): Option<L.Event> {
    if kind == "tool.call_start" && ToolStatus(m) == "started" then Some(L.CallStart(ToolIn(m)))
    else if kind == "tool.progress" && ToolStatus(m) == "started" && Elapsed(m) >= 0 then
      Some(L.CallProgress(ToolIn(m), Elapsed(m)))
    else if kind == "tool.call_end" then Some(L.CallEnd(ToolIn(m)))
    else if kind == "tool.result" && ToolStatus(m) == "completed" then
      Some(L.CallResult(ToolIn(m).id, ToolIn(m).name, TextAt(ObjectOr(m, "tool"), "result")))
    else None
  }

  function SubEventIn(m: map<string, Value>, kind: string): Option<L.Event> {
    var sub, id := TextAt(m, "subagent_id"), TextAt(m, "tool_call_id");
    if kind == "subagent.started" then Some(L.SubStarted(sub, id))
    else if kind == "subagent.completed" then Some(L.SubCompleted(sub, TextAt(m, "result"), id))
    else if kind == "subagent.error" then Some(L.SubFailed(sub, TextAt(m, "error"), id))
    else None
  }

  /** The event that a payload tells. */
  function EventIn(m: map<string, Value>): Option<L.Event> {
    var kind := TextAt(m, "type");
    if kind == "task.status" then StatusEvent(ObjectOr(m, "status"))
    else if kind == "text.delta" then Some(L.TextDelta(TextAt(m, "text")))
    else if kind == "thinking.delta" then Some(L.ThinkingDelta(TextAt(m, "thinking")))
    else if CallEventIn(m, kind).Some? then CallEventIn(m, kind)
    else SubEventIn(m, kind)
  }

  lemma StatusComesBack(taskId: string, contextId: string, e: L.Event)
    requires e.Working? || e.Failed? || e.Completed?
    ensures var m := Payload(Wire(taskId, contextId, e)); EventIn(m) == Some(e) && TextAt(m, "contextId") == contextId
  {
  }

  lemma DeltaComesBack(taskId: string, contextId: string, e: L.Event)
    requires e.TextDelta? || e.ThinkingDelta?
    ensures EventIn(Payload(Wire(taskId, contextId, e))) == Some(e)
  {
  }

  lemma CallComesBack(taskId: string, contextId: string, e: L.Event)
    requires e.CallStart? || e.CallEnd?
    ensures EventIn(Payload(Wire(taskId, contextId, e))) == Some(e)
  {
  }

  lemma ProgressComesBack(taskId: string, contextId: string, e: L.Event)
    requires e.CallProgress?
    ensures EventIn(Payload(Wire(taskId, contextId, e))) == Some(e)
  {
    DecimalIsNumber(e.elapsed);
  }

  lemma ResultComesBack(taskId: string, contextId: string, e: L.Event)
    requires e.CallResult?
    ensures EventIn(Payload(Wire(taskId, contextId, e))) == Some(e)
  {
  }

  lemma SubComesBack(taskId: string, contextId: string, e: L.Event)
    requires e.SubStarted? || e.SubCompleted? || e.SubFailed?
    ensures EventIn(Payload(Wire(taskId, contextId, e))) == Some(e)
  {
  }

  lemma TaskComesBack(taskId: string, contextId: string, e: L.Event)
    ensures TextAt(Payload(Wire(taskId, contextId, e)), "taskId") == taskId
  {
  }

  /** Every event is read back from its payload, with the task that it belongs to: no two events look alike on
      the wire, and nothing that an event says is lost. */
  lemma EventsComeBack(taskId: string, contextId: string, e: L.Event)
    ensures var m := Payload(Wire(taskId, contextId, e));
            && EventIn(m) == Some(e) && TextAt(m, "taskId") == taskId
            && (e.Working? || e.Failed? || e.Completed? ==> TextAt(m, "contextId") == contextId)
  {
    TaskComesBack(taskId, contextId, e);
    match e
    case Working => StatusComesBack(taskId, contextId, e);
    case Failed(_) => StatusComesBack(taskId, contextId, e);
    case Completed(_) => StatusComesBack(taskId, contextId, e);
    case TextDelta(_) => DeltaComesBack(taskId, contextId, e);
    case ThinkingDelta(_) => DeltaComesBack(taskId, contextId, e);
    case CallStart(_) => CallComesBack(taskId, contextId, e);
    case CallEnd(_) => CallComesBack(taskId, contextId, e);
    case CallProgress(_, _) => ProgressComesBack(taskId, contextId, e);
    case CallResult(_, _, _) => ResultComesBack(taskId, contextId, e);
    case _ => SubComesBack(taskId, contextId, e);
  }
}
