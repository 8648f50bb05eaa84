# Titanic chat agent: a Dafny model of `agent.py`

The agent answers a question about the Titanic dataset in a fixed sequence. It
asks a hosted language model for Python code. It pulls the code out of the
model's fenced code block and runs it with stdout captured. Then it takes
the current matplotlib figure as a base64 PNG. A failed model call, a
reply without code and a snippet that raises all end up in a
`{"answer", "plot"}` reply; a failure while drawing the chart does not. This project models that
request loop and proves what each step promises:

- `wrappers.dfy`, module `Wrappers`: the `Option` type that stands for Python's `None`-or-value.
- `pytext.dfy`, module `PyText`: Python's whitespace, `str.lstrip`/`rstrip`/`strip`, and literal substring search.
- `extraction.dfy`, module `CodeExtraction`: `extract_code`, its two regex tiers (tagged, then bare), and a declarative statement of what the regex matches (`IsMatchAt`).
- `extraction_examples.dfy`, module `CodeExtractionExamples`: worked model replies derived from the tier lemmas.
- `orchestrator.dfy`, module `Orchestrator`: the token guard of `call_llm`, what `run_code` returns, the choice of answer, and `ask` as a pure function of its collaborators' outcomes.
- `process.dfy`, module `AgentProcess`: class `Globals` holds the process-wide state a request touches. That is the number of open pyplot figures and whether `sys.stdout` is redirected. Its methods `CloseAll`, `RunCode`, `GrabPlot` and `Ask` update that state. The snippet always sees the figures that are open when it starts, so the reply of `Ask` depends on `CloseAll` having emptied the registry first.

Collaborators that cannot be given meaning are parameters:
- the `HUGGINGFACEHUB_API_TOKEN` variable is an `Option<string>`, `None` when unset;
- the chat-completion service maps (system prompt, user message) to a completion or an exception;
- `exec` maps a snippet and the number of figures open when it starts to what it printed, how many figures are open when it ends, and what it raised;
- drawing the current figure gives either the payload string or the exception `savefig` raised (`Rendering`);
- `SYSTEM_PROMPT` is a string parameter.

Regex semantics used for `extract_code`: `opener\s*(.*?)```` with DOTALL matches at offset `i` exactly when the opener is there and some fence begins at or after the end of the whitespace run that follows it. The group runs from that point to the first such fence. A fence cannot begin inside the whitespace run, so the greedy `\s*` never has to give anything back. `findall(...)[0]` is the leftmost match, and only that element is used.

Where the design description and the code differ, the model follows the code:
- the tagged tier wins even when its block is empty, because `if matches:` tests whether the list is empty. `extract_code` then returns `""`, the bare tier is never tried, and `ask` treats `""` as "no code" (`ExtractEmptyTaggedThenBare`, `AskNoCode`);
- `grab_plot` is called only when the snippet did not raise. After an execution error, the snippet's figures stay open until the next request's `plt.close('all')` (`Globals.Ask`);
- `grab_plot` runs outside both `try` blocks, so an exception raised while drawing the chart (a malformed mathtext label, say, which matplotlib parses only when drawing) escapes `ask`, although the design says `ask` never raises. The figures then stay open, because `plt.close('all')` comes after `savefig` (`AskRenderFailure`, `Globals.GrabPlot`). The model keeps this behaviour; there is no evident intended reply for it.

## Model

| member | source | states |
|---|---|---|
| `PyText.LStrip` | agent.py:71 | the result is the suffix left after a prefix made only of whitespace, and it does not start with whitespace |
| `PyText.RStrip` | agent.py:71 | the result is the prefix left before a suffix made only of whitespace, and it does not end with whitespace |
| `PyText.Strip` | agent.py:71 | the result has no whitespace at either end and occurs in the input with only whitespace around it |
| `PyText.StripPadded` | agent.py:71 | conversely, text with no whitespace at its ends is exactly what `strip()` recovers from it padded with whitespace, so Strip is fully determined |
| `PyText.FindFrom` | agent.py:69 | the first offset at or after `k` where a fence occurs, with none in between, or None when there is none at or after `k` (the lazy `.*?` up to a fence) |
| `PyText.SkipSpace` | agent.py:69 | the end of the whitespace run starting at `k` (the greedy `\s*`): everything before it is whitespace and the character at it is not |
| `CodeExtraction.MatchAt` | agent.py:69 | a match found at `i` satisfies the declarative `IsMatchAt`; there is no match exactly when the opener is absent at `i` or no fence follows it |
| `CodeExtraction.MatchUnique` | agent.py:69 | a match at a given offset has only one group span |
| `CodeExtraction.FirstMatch` | agent.py:69 | the leftmost offset at or after `i` where the regex matches, with no match before it; None when it matches nowhere |
| `CodeExtraction.FirstGroup` | agent.py:69-71 | `findall(...)[0]` when the list is non-empty: None exactly when the regex matches at no offset; otherwise a stretch of the text that a fence follows |
| `CodeExtraction.FirstGroupAt` | agent.py:69-71 | if the regex matches at `i` with group `sp` and nowhere earlier, `findall(...)[0]` is that group |
| `CodeExtraction.ExtractCode` | agent.py:66-76 | any code returned has no whitespace at either end |
| `CodeExtraction.TaggedTier` | agent.py:69-71 | if the first ```` ```python ```` is closed by a later fence, the result is the stripped text from after it and its trailing whitespace to the next fence, whatever bare blocks come before or after |
| `CodeExtraction.BareTier` | agent.py:73-75 | if no ```` ```python ```` is followed by a fence, the result is the stripped text from the first fence (after its whitespace) to the next fence |
| `CodeExtraction.ExtractNoneIff` | agent.py:66-76 | the result is None exactly when no fence is followed, at least three characters on, by another fence |
| `CodeExtractionExamples.ExtractTaggedThenBare` | agent.py:69-71 | a tagged block followed by a bare block yields only the tagged block's content |
| `CodeExtractionExamples.ExtractBareThenTagged` | agent.py:69-75 | a bare block before a tagged block is ignored: the tagged block's content is returned |
| `CodeExtractionExamples.ExtractOtherLanguage` | agent.py:73-75 | a block tagged `py` falls to the bare tier and keeps `py` at the start of the result |
| `CodeExtractionExamples.ExtractEmptyTaggedThenBare` | agent.py:69-71 | an empty tagged block yields `""` even though a non-empty bare block follows |
| `CodeExtractionExamples.ExtractNoFences` | agent.py:73-76 | prose without fences yields None |
| `Orchestrator.Describe` | agent.py:109 | the `f"{type(e).__name__}: {e}"` text: the exception's kind, then `": "`, then its message, and nothing else |
| `Orchestrator.CallLlm` | agent.py:45-53 | an unset or empty token gives RuntimeError with the fixed message and does not consult the service; otherwise the result is the service's |
| `Orchestrator.RunOutcome` | agent.py:84-88 | output is returned exactly when the snippet did not raise, and it is the printed text stripped; otherwise the snippet's exception is passed on |
| `Orchestrator.PlotOf` | agent.py:93-100 | `grab_plot` gives None exactly when no figure is open; with a figure open it raises exactly when drawing raises, with that exception, and otherwise gives the drawn payload |
| `Orchestrator.Truthy` | agent.py:126 | `elif plot` is false exactly for None and for the empty payload |
| `Orchestrator.SelectAnswer` | agent.py:123-129 | the answer is never empty: the output if non-empty, else the chart notice if the plot is truthy, else the no-output fallback |
| `Orchestrator.CodeToRun` | agent.py:111-112 | code is run only when extraction gives a non-empty string; None or `""` means no code |
| `Orchestrator.Finish` | agent.py:121-131 | after a clean run the request raises exactly when a figure is open and drawing it raises, with that exception; otherwise the answer is non-empty and any plot is the drawn payload |
| `Orchestrator.Respond` | agent.py:111-131 | once the model has answered with text, the request raises only with the drawing exception; a reply's answer is non-empty and any plot it carries is the drawn payload |
| `Orchestrator.AskAsWritten` | agent.py:103-131 | `ask` as written: it raises only with the TypeError of a missing content or with the drawing exception, and any reply it returns has a non-empty answer |
| `Orchestrator.AskReply` | agent.py:103-131 | the corrected `ask` returns a reply whenever the chart draws, and raises only with the drawing exception; the answer is non-empty and any plot is the drawn payload |
| `Orchestrator.AskLlmFailure` | agent.py:106-109 | a failed model call gives `"LLM call failed: <kind>: <msg>"` with no plot, and the reply does not depend on the interpreter or the renderer |
| `Orchestrator.AskMissingToken` | agent.py:47-52 | without a token the reply is the RuntimeError report, the same for every service |
| `Orchestrator.AskNoCode` | agent.py:111-114 | with no usable code the answer is the stripped model text, or `"No response from model. Try rephrasing."` when that is empty, with no plot |
| `Orchestrator.AskExecFailure` | agent.py:116-119 | a snippet that raises gives `"Code execution error: <kind>: <msg>"` with no plot, whatever drawing would give |
| `Orchestrator.AskAnswered` | agent.py:121-131 | after a clean run, with the chart drawn if there is one: the plot is the payload exactly when a figure is open, and the answer is the output, else the chart notice for a non-empty payload, else the fallback |
| `Orchestrator.AskRenderFailure` | agent.py:93-121 | after a clean run that leaves a figure open, a drawing exception escapes `ask`, in the code as written and in the corrected version |
| `Orchestrator.AskPrinted42` | agent.py:121-125 | a snippet that prints `42` and draws nothing gives `{"answer": "42", "plot": None}` |
| `Orchestrator.RespondPrinted42` | agent.py:121-125 | the same, for the part of `ask` after the model call |
| `Orchestrator.AskChartOnly` | agent.py:121-127 | a snippet that draws and prints nothing gives the chart notice together with the payload |
| `Orchestrator.RespondChartOnly` | agent.py:121-127 | the same, for the part of `ask` after the model call |
| `Orchestrator.RespondEmpty` | agent.py:111-114 | an empty model text gives `"No response from model. Try rephrasing."` with no plot |
| `Orchestrator.AskAsWrittenRaisesOnNoContent` | agent.py:107-111 | as written, a completion whose content is None makes `ask` raise TypeError instead of returning |
| `Orchestrator.AskReplyExtendsAsWritten` | agent.py:103-131 | the corrected `ask` behaves exactly as the code as written on every completion that has content; on one without content the code as written raises TypeError and the corrected one gives the no-response fallback |
| `AgentProcess.Globals.CloseAll` | agent.py:104 | no figure is open afterwards |
| `AgentProcess.Globals.RunCode` | agent.py:79-88 | stdout is restored to its prior state on both exits; the snippet runs with the figures already open and the count afterwards is what it leaves; the result is `RunOutcome` of that run |
| `AgentProcess.Globals.GrabPlot` | agent.py:91-100 | None when no figure is open; otherwise the drawn payload with every figure closed, or the drawing exception with the figures left open |
| `AgentProcess.Globals.GrabPlotTwice` | agent.py:91-100 | with no figure open both calls give None; once a call has returned, the next gives None; after a drawing exception the second call still sees the figures |
| `AgentProcess.Globals.Ask` | agent.py:103-131 | the outcome is `AskReply` of the inputs, because the snippet starts with every figure closed; stdout ends as it began; figures stay open only after a raising snippet or a drawing exception |

## Left out

- The chat-completion request (agent.py:53-63) is a foreign client. Only its outcome is modelled, so the model id, `temperature=0.1` and `max_tokens=1024` are not represented.
- `exec` of the generated code (agent.py:85) cannot be given meaning. Its effect is a parameter of the snippet and of the figures open when it starts: the printed text, the figure count when it ends, and the exception it raised. Which figure is current, and what the snippet draws on it, is not modelled.
- Exceptions that do not derive from `Exception` (`SystemExit`, `KeyboardInterrupt`) escape both `except Exception` clauses in the source. The model treats every failure as caught.
- Rendering (`savefig` with PNG, `dpi=150`, tight bounding box and white background) and base64 encoding (agent.py:95-98) are left out. Their outcome is a parameter: an opaque payload string, of which only its Python truthiness (`elif plot`) matters, or the exception drawing raised.
- Building `SYSTEM_PROMPT` from the dataframe (agent.py:26-40) and loading the dataset (agent.py:20-23) are left out: they depend on pandas output and file I/O. The prompt is a parameter.
- The Agg backend and the `plt.show` override (agent.py:5, agent.py:17) are left out: they only affect rendering.
- Loading the environment and secrets (`load_dotenv`, `st.secrets`) is left out: the token is a parameter.
- The Streamlit UIs (`app.py`, `streamlit_app.py`) and the FastAPI wrapper (`main.py`) are presentation and routing around `ask`, so they are left out.
- `re.findall` computes every match, but the code only uses the first one and whether there is one. Only the leftmost match is modelled.
- `Globals.RunCode`: stdout is modelled as a flag, redirected or not, so the restore is stated as the flag's prior value rather than the identity of the previous stream object. What reaches the real stdout is not modelled.
- Concurrent requests sharing the figure registry and stdout are not modelled: every method runs alone.

## Findings

| source | as written | input that shows it | evidently intended | confidence | as-written member | corrected member |
|---|---|---|---|---|---|---|
| agent.py:63 | `call_llm` returns `response.choices[0].message.content` as is. huggingface_hub types it `Optional[str]`, so `extract_code(None)` makes `re.findall` raise TypeError at agent.py:111, outside every `try` in `ask` | a completion whose first choice has `content = None` (for example a reply that carries only tool calls) | `ask` does not raise on a completion without content; an empty model reply gets `"No response from model. Try rephrasing."` | medium; not executed | `Orchestrator.AskAsWritten`, shown by `Orchestrator.AskAsWrittenRaisesOnNoContent` | `Orchestrator.AskReply`, with `Orchestrator.AskReplyExtendsAsWritten`; used by `AgentProcess.Globals.Ask` |
