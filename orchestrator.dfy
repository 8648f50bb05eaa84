/**
 * The per-request logic of the agent: the credential guard of `call_llm`, what
 * `run_code` returns, the choice of answer text, and `ask` as a function of the
 * outcomes of its collaborators. The language model, the interpreter and the
 * chart renderer are not modelled; their outcomes are parameters.
 */
module Orchestrator {
  import opened Wrappers
  import opened PyText
  import opened CodeExtraction

  /** A caught exception: `type(e).__name__` and `str(e)`. */
  datatype Fault = Fault(kind: string, message: string)

  /** What calling the model produced: the first choice's content (which may be None), or an exception. */
  datatype LlmResult = Completed(content: Option<string>) | LlmRaised(fault: Fault)

  /**
   * What executing a snippet did: the text it printed, how many figures are open
   * when it finishes (those open before it started included, unless it closed
   * them), and the exception it raised, if any.
   */
  datatype ExecEffect = ExecEffect(printed: string, openFigures: nat, raised: Option<Fault>)

  /** What `run_code` gives back to `ask`: the stripped captured output, or the exception. */
  datatype RunResult = Output(text: string) | ExecRaised(fault: Fault)

  /** The `{"answer": ..., "plot": ...}` dictionary. */
  datatype Reply = Reply(answer: string, plot: Option<string>)

  /** What drawing the current figure as a base64 PNG gives: the payload, or the exception `savefig` raised. */
  datatype Rendering = Rendered(payload: string) | RenderRaised(fault: Fault)

  /** What `grab_plot` returns or raises. */
  datatype PlotResult = Plot(plot: Option<string>) | PlotRaised(fault: Fault)

  /** An `ask` call either returns a reply or lets an exception escape. */
  datatype AskOutcome = Returned(reply: Reply) | Propagated(fault: Fault)

  /** The remote chat-completion call, for a system prompt and a user message. */
  type Service = (string, string) -> LlmResult

  /** `exec` of a snippet against the dataset bindings, started with the given number of figures open. */
  type Interpreter = (string, nat) -> ExecEffect

  const MissingTokenMessage := "HUGGINGFACEHUB_API_TOKEN is not set. Add it to your .env file or Streamlit secrets."
  const LlmFailedPrefix := "LLM call failed: "
  const ExecErrorPrefix := "Code execution error: "
  const NoResponseMessage := "No response from model. Try rephrasing."
  const ChartMessage := "Here's the chart you asked for."
  const NoOutputMessage := "Done, but there was no output. Try rephrasing?"
  /** What `re.findall` raises when `extract_code` is handed None. */
  const NoContentFault := Fault("TypeError", "expected string or bytes-like object, got 'NoneType'")

  /** `f"{type(e).__name__}: {e}"`, inside the error answers. */
  function Describe(f: Fault): (r: string)
    ensures |r| == |f.kind| + 2 + |f.message|
    ensures r[..|f.kind|] == f.kind && r[|f.kind|..|f.kind| + 2] == ": " && r[|f.kind| + 2..] == f.message
  {
    f.kind + ": " + f.message
  }

  /**
   * `call_llm`: the environment variable (None when unset) is read first, and a
   * missing or empty token raises RuntimeError without consulting the service.
   */
  function CallLlm(env: Option<string>, systemPrompt: string, userMessage: string, service: Service): (r: LlmResult)
    ensures env == None || env == Some("") ==> r == LlmRaised(Fault("RuntimeError", MissingTokenMessage))
    ensures env.Some? && env.value != "" ==> r == service(systemPrompt, userMessage)
  {
    var token := env.GetOr("");
    if token == "" then LlmRaised(Fault("RuntimeError", MissingTokenMessage))
    else service(systemPrompt, userMessage)
  }

  /** What `run_code` returns or raises once the snippet has run. */
  function RunOutcome(e: ExecEffect): (r: RunResult)
    ensures r.Output? <==> e.raised.None?
    ensures r.ExecRaised? ==> r.fault == e.raised.value
    ensures r.Output? ==> NoEdgeSpace(r.text) && exists i :: Pads(e.printed, r.text, i)
  {
    match e.raised
    case Some(f) => ExecRaised(f)
    case None => Output(Strip(e.printed))
  }

  /** What `grab_plot` returns when `figures` figures are open and drawing the current one gives `image`. */
  function PlotOf(figures: nat, image: Rendering): (r: PlotResult)
    ensures r == Plot(None) <==> figures == 0
    ensures r.PlotRaised? <==> figures > 0 && image.RenderRaised?
    ensures r.PlotRaised? ==> r.fault == image.fault
    ensures r.Plot? && r.plot.Some? ==> image == Rendered(r.plot.value)
  {
    if figures == 0 then Plot(None)
    else match image
      case Rendered(payload) => Plot(Some(payload))
      case RenderRaised(f) => PlotRaised(f)
  }

  /** Python truthiness of the optional payload: None and the empty string are false. */
  predicate Truthy(plot: Option<string>): (b: bool)
    ensures b <==> plot != None && plot != Some("")
  {
    plot.Some? && plot.value != ""
  }

  /** The answer text after a successful run: output first, then the chart notice, then the fallback. */
  function SelectAnswer(output: string, plot: Option<string>): (a: string)
    ensures a != ""
    ensures output != "" ==> a == output
    ensures output == "" && Truthy(plot) ==> a == ChartMessage
    ensures output == "" && !Truthy(plot) ==> a == NoOutputMessage
  {
    if output != "" then output
    else if Truthy(plot) then ChartMessage
    else NoOutputMessage
  }

  /** The code `ask` goes on to run for model text `raw`, if any (`if not code` rejects None and ""). */
  function CodeToRun(raw: string): (r: Option<string>)
    ensures r.Some? ==> r.value != "" && ExtractCode(raw) == r
    ensures r.None? ==> ExtractCode(raw) == None || ExtractCode(raw) == Some("")
  {
    match ExtractCode(raw)
    case Some(code) => if code == "" then None else Some(code)
    case None => None
  }

  /** The end of `ask` after a clean run that printed `out` and left `figures` figures open. */
  function Finish(out: string, figures: nat, image: Rendering): (r: AskOutcome)
    ensures r.Returned? ==> r.reply.answer != ""
    ensures r.Returned? && r.reply.plot.Some? ==> image == Rendered(r.reply.plot.value)
    ensures r.Propagated? <==> figures > 0 && image.RenderRaised?
    ensures r.Propagated? ==> r.fault == image.fault
  {
    match PlotOf(figures, image)
    case PlotRaised(f) => Propagated(f)
    case Plot(plot) => Returned(Reply(SelectAnswer(out, plot), plot))
  }

  /**
   * The rest of `ask` once the model has returned the text `raw`. The snippet
   * starts with no figure open, because `ask` closes them all first; a failure
   * while drawing the chart is outside every `try` and escapes.
   */
  function Respond(raw: string, exec: Interpreter, image: Rendering): (r: AskOutcome)
    ensures r.Returned? ==> r.reply.answer != ""
    ensures r.Returned? && r.reply.plot.Some? ==> image == Rendered(r.reply.plot.value)
    ensures r.Propagated? ==> image.RenderRaised? && r.fault == image.fault
  {
    match CodeToRun(raw)
    case None =>
      var text := Strip(raw);
      Returned(Reply(if text != "" then text else NoResponseMessage, None))
    case Some(code) =>
      var e := exec(code, 0);
      match RunOutcome(e)
      case ExecRaised(f) => Returned(Reply(ExecErrorPrefix + Describe(f), None))
      case Output(out) => Finish(out, e.openFigures, image)
  }

  /**
   * `ask` as written: a model reply whose content is None reaches `extract_code`,
   * whose `re.findall` raises TypeError outside any `try`; so does a failure
   * while drawing the chart.
   */
  function AskAsWritten(env: Option<string>, systemPrompt: string, question: string,
                        service: Service, exec: Interpreter, image: Rendering): (r: AskOutcome)
    ensures r.Propagated? ==> r.fault == NoContentFault || (image.RenderRaised? && r.fault == image.fault)
    ensures r.Returned? ==> r.reply.answer != ""
  {
    match CallLlm(env, systemPrompt, question, service)
    case LlmRaised(f) => Returned(Reply(LlmFailedPrefix + Describe(f), None))
    case Completed(None) => Propagated(NoContentFault)
    case Completed(Some(raw)) => Respond(raw, exec, image)
  }

  /**
   * `ask`, with a missing content read as empty text. The only exception that
   * still escapes is one raised while drawing the chart.
   */
  function AskReply(env: Option<string>, systemPrompt: string, question: string,
                    service: Service, exec: Interpreter, image: Rendering): (r: AskOutcome)
    ensures image.Rendered? ==> r.Returned?
    ensures r.Propagated? ==> image.RenderRaised? && r.fault == image.fault
    ensures r.Returned? ==> r.reply.answer != ""
    ensures r.Returned? && r.reply.plot.Some? ==> image == Rendered(r.reply.plot.value)
  {
    match CallLlm(env, systemPrompt, question, service)
    case LlmRaised(f) => Returned(Reply(LlmFailedPrefix + Describe(f), None))
    case Completed(content) => Respond(content.GetOr(""), exec, image)
  }

  /** The model call fails: the reply reports it, and no snippet is extracted or run. */
  lemma AskLlmFailure(env: Option<string>, systemPrompt: string, question: string, service: Service,
                      exec1: Interpreter, image1: Rendering, exec2: Interpreter, image2: Rendering, f: Fault)
    requires CallLlm(env, systemPrompt, question, service) == LlmRaised(f)
    ensures AskReply(env, systemPrompt, question, service, exec1, image1)
         == Returned(Reply(LlmFailedPrefix + Describe(f), None))
    ensures AskReply(env, systemPrompt, question, service, exec1, image1)
         == AskReply(env, systemPrompt, question, service, exec2, image2)
  {
  }

  /** Without a token the model is never asked: the reply is the RuntimeError report, whatever the service. */
  lemma AskMissingToken(env: Option<string>, systemPrompt: string, question: string,
                        service1: Service, service2: Service, exec: Interpreter, image: Rendering)
    requires env == None || env == Some("")
    ensures AskReply(env, systemPrompt, question, service1, exec, image)
         == Returned(Reply(LlmFailedPrefix + Describe(Fault("RuntimeError", MissingTokenMessage)), None))
    ensures AskReply(env, systemPrompt, question, service1, exec, image)
         == AskReply(env, systemPrompt, question, service2, exec, image)
  {
  }

  /** The model text has no usable code: the reply is the stripped text, or the fallback when that is empty. */
  lemma AskNoCode(env: Option<string>, systemPrompt: string, question: string, service: Service,
                  exec: Interpreter, image: Rendering, raw: string)
    requires CallLlm(env, systemPrompt, question, service) == Completed(Some(raw))
    requires ExtractCode(raw) == None || ExtractCode(raw) == Some("")
    ensures AskReply(env, systemPrompt, question, service, exec, image)
         == Returned(Reply(if Strip(raw) != "" then Strip(raw) else NoResponseMessage, None))
  {
  }

  /** The snippet raises: the reply reports the exception, without a plot, and nothing is drawn. */
  lemma AskExecFailure(env: Option<string>, systemPrompt: string, question: string, service: Service,
                       exec: Interpreter, image: Rendering, raw: string, f: Fault)
    requires CallLlm(env, systemPrompt, question, service) == Completed(Some(raw))
    requires CodeToRun(raw).Some? && exec(CodeToRun(raw).value, 0).raised == Some(f)
    ensures AskReply(env, systemPrompt, question, service, exec, image)
         == Returned(Reply(ExecErrorPrefix + Describe(f), None))
  {
  }

  /**
   * The snippet runs and the chart, if any, is drawn: the plot is the payload
   * exactly when the snippet left a figure open, and the answer is its stripped
   * output, else the chart notice when the payload is non-empty, else the fallback.
   */
  lemma AskAnswered(env: Option<string>, systemPrompt: string, question: string, service: Service,
                    exec: Interpreter, image: Rendering, raw: string)
    requires CallLlm(env, systemPrompt, question, service) == Completed(Some(raw))
    requires CodeToRun(raw).Some? && exec(CodeToRun(raw).value, 0).raised == None
    requires exec(CodeToRun(raw).value, 0).openFigures == 0 || image.Rendered?
    ensures var e := exec(CodeToRun(raw).value, 0);
            var r := AskReply(env, systemPrompt, question, service, exec, image);
            var out := Strip(e.printed);
            r.Returned?
            && (e.openFigures == 0 ==> r.reply.plot == None)
            && (e.openFigures > 0 ==> r.reply.plot == Some(image.payload))
            && (out != "" ==> r.reply.answer == out)
            && (out == "" && e.openFigures > 0 && image.payload != "" ==> r.reply.answer == ChartMessage)
            && (out == "" && e.openFigures > 0 && image.payload == "" ==> r.reply.answer == NoOutputMessage)
            && (out == "" && e.openFigures == 0 ==> r.reply.answer == NoOutputMessage)
  {
  }

  /** The snippet leaves a figure open and drawing it fails: `ask` raises that exception, as written and corrected. */
  lemma AskRenderFailure(env: Option<string>, systemPrompt: string, question: string, service: Service,
                         exec: Interpreter, raw: string, f: Fault)
    requires CallLlm(env, systemPrompt, question, service) == Completed(Some(raw))
    requires CodeToRun(raw).Some? && exec(CodeToRun(raw).value, 0).raised == None
    requires exec(CodeToRun(raw).value, 0).openFigures > 0
    ensures AskReply(env, systemPrompt, question, service, exec, RenderRaised(f)) == Propagated(f)
    ensures AskAsWritten(env, systemPrompt, question, service, exec, RenderRaised(f)) == Propagated(f)
  {
  }

  /** The extracted code prints "42" and draws nothing: the reply is `{"answer": "42", "plot": None}`. */
  lemma AskPrinted42(env: Option<string>, systemPrompt: string, question: string, service: Service,
                     exec: Interpreter, image: Rendering, raw: string)
    requires CallLlm(env, systemPrompt, question, service) == Completed(Some(raw))
    requires CodeToRun(raw).Some? && exec(CodeToRun(raw).value, 0) == ExecEffect("42\n", 0, None)
    ensures AskReply(env, systemPrompt, question, service, exec, image) == Returned(Reply("42", None))
  {
    RespondPrinted42(exec, image, raw);
  }

  /** The same, for the part of `ask` after the model call. */
  lemma RespondPrinted42(exec: Interpreter, image: Rendering, raw: string)
    requires CodeToRun(raw).Some? && exec(CodeToRun(raw).value, 0) == ExecEffect("42\n", 0, None)
    ensures Respond(raw, exec, image) == Returned(Reply("42", None))
  {
    assert "42\n" == [] + "42" + "\n";
    StripPadded([], "42", "\n");
    assert Finish("42", 0, image) == Returned(Reply("42", None));
  }

  /** The extracted code draws a chart and prints nothing: the reply is the chart notice with the payload. */
  lemma AskChartOnly(env: Option<string>, systemPrompt: string, question: string, service: Service,
                     exec: Interpreter, payload: string, raw: string, figures: nat)
    requires CallLlm(env, systemPrompt, question, service) == Completed(Some(raw))
    requires CodeToRun(raw).Some? && exec(CodeToRun(raw).value, 0) == ExecEffect("", figures, None)
    requires figures > 0 && payload != ""
    ensures AskReply(env, systemPrompt, question, service, exec, Rendered(payload))
         == Returned(Reply(ChartMessage, Some(payload)))
  {
    RespondChartOnly(exec, payload, raw, figures);
  }

  /** As written, a reply with no content makes `ask` raise instead of returning. */
  lemma AskAsWrittenRaisesOnNoContent(env: Option<string>, systemPrompt: string, question: string,
                                      service: Service, exec: Interpreter, image: Rendering)
    requires env.Some? && env.value != ""
    requires service(systemPrompt, question) == Completed(None)
    ensures AskAsWritten(env, systemPrompt, question, service, exec, image) == Propagated(NoContentFault)
  {
  }

  /**
   * The corrected `ask` agrees with the code as written except on a completion
   * with no content, where the code as written raises TypeError and the corrected
   * one gives the no-response fallback.
   */
  lemma AskReplyExtendsAsWritten(env: Option<string>, systemPrompt: string, question: string,
                                 service: Service, exec: Interpreter, image: Rendering)
    ensures CallLlm(env, systemPrompt, question, service) != Completed(None) ==>
              AskReply(env, systemPrompt, question, service, exec, image)
              == AskAsWritten(env, systemPrompt, question, service, exec, image)
    ensures CallLlm(env, systemPrompt, question, service) == Completed(None) ==>
              AskAsWritten(env, systemPrompt, question, service, exec, image) == Propagated(NoContentFault)
              && AskReply(env, systemPrompt, question, service, exec, image) == Returned(Reply(NoResponseMessage, None))
  {
    if CallLlm(env, systemPrompt, question, service) == Completed(None) {
      RespondEmpty(exec, image);
    }
  }

  /** The model text is empty: the no-response fallback. */
  lemma RespondEmpty(exec: Interpreter, image: Rendering)
    ensures Respond("", exec, image) == Returned(Reply(NoResponseMessage, None))
  {
    assert CodeToRun("") == None by { ExtractNoneIff(""); }
    assert Strip("") == "" by { StripPadded([], [], []); }
  }

  /** A clean run that printed nothing and left a figure that draws as a non-empty payload. */
  lemma RespondChartOnly(exec: Interpreter, payload: string, raw: string, figures: nat)
    requires CodeToRun(raw).Some? && exec(CodeToRun(raw).value, 0) == ExecEffect("", figures, None)
    requires figures > 0 && payload != ""
    ensures Respond(raw, exec, Rendered(payload)) == Returned(Reply(ChartMessage, Some(payload)))
  {
    assert Strip("") == "" by { StripPadded([], [], []); }
    assert Finish("", figures, Rendered(payload)) == Returned(Reply(ChartMessage, Some(payload)));
  }
}
