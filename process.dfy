/**
 * The process-wide state that each request touches: pyplot's figure registry
 * (only how many figures are open matters here) and `sys.stdout`, which
 * `run_code` swaps for a capture buffer and puts back.
 */
module AgentProcess {
  import opened Wrappers
  import opened PyText
  import opened CodeExtraction
  import opened Orchestrator

  class Globals {
    /** `len(plt.get_fignums())`. */
    var openFigures: nat
    /** Whether `sys.stdout` is currently a capture buffer rather than the process's own stream. */
    var stdoutRedirected: bool

    /** The state at import time: no figures, stdout untouched. */
    constructor ()
      ensures openFigures == 0 && !stdoutRedirected
    {
      openFigures := 0;
      stdoutRedirected := false;
    }

    /** `plt.close('all')`. */
    method CloseAll()
      modifies this`openFigures
      ensures openFigures == 0
    {
      openFigures := 0;
    }

    /**
     * `run_code`: stdout is redirected into a fresh buffer while the snippet runs
     * and put back on both the normal and the exceptional exit. The snippet starts
     * with the figures already open and nothing here closes any, so the figure
     * count is whatever the snippet leaves; the result is the stripped capture or
     * the exception.
     */
    method RunCode(code: string, exec: Interpreter) returns (r: RunResult)
      modifies this
      ensures stdoutRedirected == old(stdoutRedirected)
      ensures openFigures == exec(code, old(openFigures)).openFigures
      ensures r == RunOutcome(exec(code, old(openFigures)))
    {
      var saved := stdoutRedirected;
      stdoutRedirected := true;
      // the snippet runs against the figures open now; all it prints goes to the buffer
      var effect := exec(code, openFigures);
      openFigures := effect.openFigures;
      // the previous stream is put back on either exit
      stdoutRedirected := saved;
      if effect.raised.Some? {
        r := ExecRaised(effect.raised.value);
        return;
      }
      r := Output(Strip(effect.printed));
    }

    /**
     * `grab_plot`: None when no figure is open. Otherwise the current figure is
     * drawn; if that succeeds every figure is closed and the payload returned, and
     * if it raises the exception escapes before anything is closed.
     */
    method GrabPlot(image: Rendering) returns (r: PlotResult)
      modifies this`openFigures
      ensures old(openFigures) == 0 ==> r == Plot(None)
      ensures old(openFigures) > 0 && image.Rendered? ==> r == Plot(Some(image.payload))
      ensures old(openFigures) > 0 && image.RenderRaised? ==> r == PlotRaised(image.fault)
      ensures r == PlotOf(old(openFigures), image)
      ensures openFigures == if r.PlotRaised? then old(openFigures) else 0
    {
      if openFigures == 0 {
        return Plot(None);
      }
      match image
      case RenderRaised(f) =>
        r := PlotRaised(f);
      case Rendered(payload) =>
        r := Plot(Some(payload));
        openFigures := 0;
    }

    /**
     * Two `grab_plot` calls with nothing drawn in between: once one has returned,
     * the next finds no figure and gives None; after a drawing failure the figures
     * are still there for the second call.
     */
    method GrabPlotTwice(first: Rendering, second: Rendering) returns (p1: PlotResult, p2: PlotResult)
      modifies this`openFigures
      ensures old(openFigures) == 0 ==> p1 == Plot(None) && p2 == Plot(None)
      ensures old(openFigures) > 0 && first.Rendered? ==> p1 == Plot(Some(first.payload))
      ensures p1.Plot? ==> p2 == Plot(None)
      ensures p1.PlotRaised? ==> p2 == PlotOf(old(openFigures), second)
      ensures openFigures == if p2.PlotRaised? then old(openFigures) else 0
    {
      p1 := GrabPlot(first);
      p2 := GrabPlot(second);
    }

    /**
     * `ask`: the outcome is AskReply's, because every figure is closed before the
     * snippet runs; stdout ends as it started; figures stay open only after a
     * snippet that raised or a chart that could not be drawn, and the next
     * request's first step clears them.
     */
    method Ask(question: string, env: Option<string>, systemPrompt: string,
               service: Service, exec: Interpreter, image: Rendering) returns (outcome: AskOutcome)
      modifies this
      ensures outcome == AskReply(env, systemPrompt, question, service, exec, image)
      ensures stdoutRedirected == old(stdoutRedirected)
      ensures openFigures ==
        match CallLlm(env, systemPrompt, question, service)
        case LlmRaised(_) => 0
        case Completed(content) =>
          match CodeToRun(content.GetOr(""))
          case None => 0
          case Some(code) =>
            var e := exec(code, 0);
            if e.raised.Some? || (e.openFigures > 0 && image.RenderRaised?) then e.openFigures else 0
    {
      CloseAll();
      var llm := CallLlm(env, systemPrompt, question, service);
      if llm.LlmRaised? {
        return Returned(Reply(LlmFailedPrefix + Describe(llm.fault), None));
      }
      var raw := llm.content.GetOr("");
      var code := CodeToRun(raw);
      if code.None? {
        var text := Strip(raw);
        return Returned(Reply(if text != "" then text else NoResponseMessage, None));
      }
      var output := RunCode(code.value, exec);
      if output.ExecRaised? {
        return Returned(Reply(ExecErrorPrefix + Describe(output.fault), None));
      }
      var plot := GrabPlot(image);
      if plot.PlotRaised? {
        return Propagated(plot.fault);
      }
      var answer := SelectAnswer(output.text, plot.plot);
      outcome := Returned(Reply(answer, plot.plot));
    }
  }
}
