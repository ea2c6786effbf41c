/**
 * The travel planner's request handling: the result-text extraction, the
 * planner-then-reviewer turn, and the process-wide tool-logger slot through
 * which `internet_search` reports its events.
 */
module TravelPlanner {
  import opened Options
  import opened Text
  import opened Redaction
  import opened SearchTool

  /** The attributes of a stage's result object that `extract_text` consults, and its `str()` rendering. */
  datatype RunResult = RunResult(finalOutput: Option<string>, text: Option<string>, rendering: string)

  /** Python truthiness of an optional string attribute: present and non-empty. */
  predicate Truthy(o: Option<string>) {
    o.Some? && o.value != ""
  }

  /** `extract_text`: `final_output`, else `text`, else `str(obj)`. */
  function ExtractText(r: RunResult): (t: string)
    ensures Truthy(r.finalOutput) ==> t == r.finalOutput.value
    ensures !Truthy(r.finalOutput) && Truthy(r.text) ==> t == r.text.value
    ensures !Truthy(r.finalOutput) && !Truthy(r.text) ==> t == r.rendering
  {
    if Truthy(r.finalOutput) then r.finalOutput.value
    else if Truthy(r.text) then r.text.value
    else r.rendering
  }

  /** The extracted text is empty only when all three sources are. */
  lemma ExtractTextEmpty(r: RunResult)
    ensures ExtractText(r) == "" <==> !Truthy(r.finalOutput) && !Truthy(r.text) && r.rendering == ""
  {
  }

  /** A stage invocation: it raises with the given description, or returns a result object. */
  datatype StageResult = Failed(error: string) | Finished(result: RunResult)

  datatype Stage = PlannerStage | ReviewerStage

  /** A stage that was run, with its input and what the logger slot held while it ran. */
  datatype StageRun = StageRun(stage: Stage, input: string, logger: Option<Logger>)

  /**
   * The request's `ui_tool_logger`: it appends the event to the request's
   * tool-event list and then re-renders the sidebar; `renderRaises` says
   * whether that rendering raises.
   */
  datatype Logger = Logger(renderRaises: bool)

  datatype Role = User | Assistant

  datatype ChatMessage = ChatMessage(role: Role, content: string)

  /** The `meta` entry of a successful answer. */
  const OkTrace := "Planner Agent \U{2192} Reviewer Agent"
  /** The `meta` entry of a failed request. */
  const ErrorTrace := "Runtime error."

  /** The chat entry shown for a request whose stage raised `e`. */
  function ErrorEntry(e: string): (r: string)
    ensures Contains(r, e)
  {
    ContainsMiddle("\U{26A0}\U{FE0F} Error while processing your request:\n\n```\n", e, "\n```");
    "\U{26A0}\U{FE0F} Error while processing your request:\n\n```\n" + e + "\n```"
  }

  /** What one turn adds to the two history lists, which stages it runs, and the raw plan shown in the expander (only after a successful review). */
  datatype Turn = Turn(messages: seq<ChatMessage>, meta: seq<Option<string>>, runs: seq<StageRun>, plan: Option<string>)

  /** The failure half of a turn: an error entry for `e`. */
  function FailedTurn(userInput: string, e: string, runs: seq<StageRun>, plan: Option<string>): Turn {
    Turn([ChatMessage(User, userInput), ChatMessage(Assistant, ErrorEntry(e))], [None, Some(ErrorTrace)], runs, plan)
  }

  /** One turn of the handler in assign_2.py (lines 225-304), with the logger `ui` installed while the stages run. */
  function RunTurn(userInput: string, planner: string -> StageResult, reviewer: string -> StageResult, ui: Logger): (t: Turn)
    ensures |t.messages| == |t.meta| == 2
    ensures t.messages[0] == ChatMessage(User, userInput) && t.meta[0] == None
    ensures t.messages[1].role == Assistant && t.meta[1].Some?
    ensures 1 <= |t.runs| <= 2 && t.runs[0] == StageRun(PlannerStage, userInput, Some(ui))
    ensures |t.runs| == 2 <==> planner(userInput).Finished?
    ensures |t.runs| == 2 ==> t.runs[1] == StageRun(ReviewerStage, ExtractText(planner(userInput).result), Some(ui))
    ensures t.plan.Some? <==>
      planner(userInput).Finished? && reviewer(ExtractText(planner(userInput).result)).Finished?
    ensures t.plan.Some? ==> t.plan.value == ExtractText(planner(userInput).result)
  {
    var plannerRun := StageRun(PlannerStage, userInput, Some(ui));
    match planner(userInput)
    case Failed(e) => FailedTurn(userInput, e, [plannerRun], None)
    case Finished(p) =>
      var planText := ExtractText(p);
      var runs := [plannerRun, StageRun(ReviewerStage, planText, Some(ui))];
      match reviewer(planText)
      case Failed(e) => FailedTurn(userInput, e, runs, None)
      case Finished(q) =>
        Turn([ChatMessage(User, userInput), ChatMessage(Assistant, ExtractText(q))], [None, Some(OkTrace)], runs, Some(planText))
  }

  /** When both stages succeed the history gains the reviewer's text, never the planner's (unless they coincide). */
  lemma TurnSuccess(userInput: string, planner: string -> StageResult, reviewer: string -> StageResult, ui: Logger)
    requires planner(userInput).Finished?
    requires reviewer(ExtractText(planner(userInput).result)).Finished?
    ensures var planText := ExtractText(planner(userInput).result);
            var t := RunTurn(userInput, planner, reviewer, ui);
            && t.messages[1] == ChatMessage(Assistant, ExtractText(reviewer(planText).result))
            && t.meta[1] == Some(OkTrace)
            && t.plan == Some(planText)
  {
  }

  /** A raising planner: the reviewer is not run and the history gains an error entry traced "Runtime error.". */
  lemma PlannerFailure(userInput: string, planner: string -> StageResult, reviewer: string -> StageResult, ui: Logger)
    requires planner(userInput).Failed?
    ensures var t := RunTurn(userInput, planner, reviewer, ui);
            && t.runs == [StageRun(PlannerStage, userInput, Some(ui))]
            && t.messages[1] == ChatMessage(Assistant, ErrorEntry(planner(userInput).error))
            && Contains(t.messages[1].content, planner(userInput).error)
            && t.meta[1] == Some(ErrorTrace)
            && t.plan == None
  {
  }

  /** A raising reviewer: both stages ran, the history gains an error entry, and the plan is not shown. */
  lemma ReviewerFailure(userInput: string, planner: string -> StageResult, reviewer: string -> StageResult, ui: Logger)
    requires planner(userInput).Finished?
    requires reviewer(ExtractText(planner(userInput).result)).Failed?
    ensures var t := RunTurn(userInput, planner, reviewer, ui);
            && |t.runs| == 2
            && t.messages[1] == ChatMessage(Assistant, ErrorEntry(reviewer(ExtractText(planner(userInput).result)).error))
            && t.meta[1] == Some(ErrorTrace)
            && t.plan == None
  {
  }

  /** The app's process-wide state: the logger slot, the current request's tool events, the two history lists, and the stages run so far. */
  class Planner {
    /** `TOOL_LOGGER`. */
    var logger: Option<Logger>
    /** `tool_events` of the current request, appended by its `ui_tool_logger`. */
    var toolEvents: seq<Event>
    /** `st.session_state.messages`. */
    var messages: seq<ChatMessage>
    /** `st.session_state.meta`: `None` for a user entry, the trace for an answer. */
    var meta: seq<Option<string>>
    /** Every stage invocation so far, in order. */
    var runs: seq<StageRun>

    /** The two history lists grow in lockstep: `meta[i]` belongs to `messages[i]`. */
    ghost predicate Valid()
      reads this
    {
      |messages| == |meta|
    }

    constructor ()
      ensures Valid()
      ensures logger == None && toolEvents == [] && messages == [] && meta == [] && runs == []
    {
      logger := None;
      toolEvents := [];
      messages := [];
      meta := [];
      runs := [];
    }

    /** `set_tool_logger`: install or remove the logger. */
    method SetToolLogger(l: Option<Logger>)
      modifies this`logger
      ensures logger == l
    {
      logger := l;
    }

    /** Calling the installed `ui_tool_logger`: the event is recorded once, then rendering may raise. */
    method Deliver(e: Event) returns (raised: bool)
      requires logger.Some?
      modifies this`toolEvents
      ensures toolEvents == old(toolEvents) + [e]
      ensures raised == logger.value.renderRaises
    {
      toolEvents := toolEvents + [e];
      raised := logger.value.renderRaises;
    }

    /** `log_tool_event`: a no-op with no logger; otherwise the event is delivered exactly once and a raising logger is ignored. */
    method LogToolEvent(e: Event)
      modifies this`toolEvents
      ensures toolEvents == old(toolEvents) + (if logger.Some? then [e] else [])
    {
      if logger.Some? {
        var raised := Deliver(e);
        // a raising logger is swallowed: nothing depends on `raised`
      }
    }

    /** `internet_search`, with the outside world's answer as `outcome`. */
    method InternetSearch(query: string, outcome: SearchOutcome) returns (r: string)
      modifies this`toolEvents
      ensures r == SearchOutput(outcome)
      ensures toolEvents == old(toolEvents) + (if logger.Some? then SearchEvents(query, outcome) else [])
    {
      LogToolEvent(Call(ToolName, RedactString(query)));
      // try
      match outcome {
        case MissingKey =>
          LogToolEvent(ToolError(ToolName, MissingKeyMessage));
          r := SearchErrorPrefix + MissingKeyMessage;
        case Raised(e) =>
          LogToolEvent(ToolError(ToolName, e));
          r := SearchErrorPrefix + e;
        case Results(items) =>
          var output := FormatResults(items);
          LogToolEvent(ToolResult(ToolName, Preview(output)));
          r := output;
      }
      // finally
      LogToolEvent(End(ToolName));
    }

    /** Runs one stage with the slot as it is, recording the run. */
    method RunStage(stage: Stage, run: string -> StageResult, input: string) returns (res: StageResult)
      modifies this`runs
      ensures runs == old(runs) + [StageRun(stage, input, logger)]
      ensures res == run(input)
    {
      runs := runs + [StageRun(stage, input, logger)];
      res := run(input);
    }

    /** Records the failure entry of a turn. */
    method AppendError(e: string)
      requires Valid()
      modifies this`messages, this`meta
      ensures Valid()
      ensures messages == old(messages) + [ChatMessage(Assistant, ErrorEntry(e))]
      ensures meta == old(meta) + [Some(ErrorTrace)]
    {
      messages := messages + [ChatMessage(Assistant, ErrorEntry(e))];
      meta := meta + [Some(ErrorTrace)];
    }

    /** The turn handler: record the user entry, install a fresh logger, run planner then reviewer, record the answer or the error, and always clear the logger. */
    method HandleTurn(userInput: string, planner: string -> StageResult, reviewer: string -> StageResult, ui: Logger)
      returns (plan: Option<string>)
      requires Valid()
      modifies this
      ensures Valid()
      ensures var t := RunTurn(userInput, planner, reviewer, ui);
              && messages == old(messages) + t.messages
              && meta == old(meta) + t.meta
              && runs == old(runs) + t.runs
              && plan == t.plan
      ensures logger == None
      ensures toolEvents == []
    {
      messages := messages + [ChatMessage(User, userInput)];
      meta := meta + [None];
      toolEvents := [];
      SetToolLogger(Some(ui));
      plan := None;
      // try
      var p := RunStage(PlannerStage, planner, userInput);
      match p {
        case Failed(e) =>
          AppendError(e);
        case Finished(pr) =>
          var planText := ExtractText(pr);
          var q := RunStage(ReviewerStage, reviewer, planText);
          match q {
            case Failed(e) =>
              AppendError(e);
            case Finished(qr) =>
              var reviewText := ExtractText(qr);
              messages := messages + [ChatMessage(Assistant, reviewText)];
              meta := meta + [Some(OkTrace)];
              plan := Some(planText);
          }
      }
      // finally
      SetToolLogger(None);
    }
  }
}
