# Steel-LLMSense: the LLM-evaluation debate, modelled in Dafny

Steel-LLMSense asks a local LLM (served by Ollama) to explain a regression
equation for a steel plant's energy use, then has the LLM evaluated by LLMs.
This project models the evaluation orchestration of `scripts/evaluate_llm.py`:

- **Iterative debate** (`run_iterative_debate`): for each of `rounds` rounds
  it makes a Pro call and then a Con call, both at temperature 0.5. Each prompt
  carries the debate history so far, and each reply is appended to that
  history as `Round {i+1} (Pro|Con): <reply>`. One judge call at the default
  temperature 0.1 follows. If the judge's reply is not JSON, it becomes a
  fallback object.
- **Prompt builders**: the two debate agent prompts, chosen by stance; the
  judge prompt; and the three single-shot prompts (reflection, chain of
  thought, one-round debate). Each is modelled as a template of fixed text and
  holes, and the holes are filled verbatim.
- **The revised record** (`save_revised_reasoning`): the JSON record built
  from a revised reasoning, and the path of the file it is written to.

`send_to_ollama` is an oracle: `Ollama.Backend` holds a script giving the
outcome of its k-th request, and a log of every request it receives. The
debate method is proved to send exactly the calls that `Debate.DebateCalls`
describes, in order. It is also proved to return exactly what
`Debate.JudgeVerdict` makes of the backend's reply to the judge. The lemmas
about `DebateCalls` then state the schedule, the history growth and what each
prompt contains. `json.loads` is a parameter `Parser = string ->
Option<JsonValue>`, where `None` stands for `JSONDecodeError`.

Files:

- `wrappers.dfy`: `Option`.
- `json.dfy`: JSON values and `dict.get`.
- `prompts.dfy`: templates and prompt builders.
- `ollama.dfy`: the backend oracle.
- `debate.dfy`: the debate, as specification functions and lemmas, and as methods.
- `revised.dfy`: the revised record and its path.

The model follows the code where it and the source's own comments differ.
The docstring (scripts/evaluate_llm.py:14) and the comment in the exception
handler (scripts/evaluate_llm.py:28) describe retries:

- `send_to_ollama` is decorated with a three-attempt retry, but it catches
  every `RequestException` itself. So no retry happens for a
  `RequestException`: the first such failure already yields the error
  sentinel string. The model has no retry.
- That sentinel is then treated as an ordinary reply: it is appended to the
  history, or handed to the judge-reply parser.

## Model

| member | source | states |
|---|---|---|
| Ollama.Backend.Send | scripts/evaluate_llm.py:11-29 | Each call appends exactly one request (prompt, model, temperature) to the log and returns the reply scripted for that request's position. A failed request returns the error sentinel instead of raising. |
| Ollama.ErrorSentinel | scripts/evaluate_llm.py:27-29 | The text returned when the request raises a request exception. `Ollama.ErrorSentinelNamesReason` states what it contains. |
| Ollama.ReplyText | scripts/evaluate_llm.py:24-29 | The string `send_to_ollama` returns for one outcome: the response text, or the error sentinel. `Ollama.Backend.Send` returns it for the request's scripted outcome. |
| Ollama.ErrorSentinelNamesReason | scripts/evaluate_llm.py:27-29 | The error sentinel opens with the fixed connection-failure message and contains the exception's text verbatim. |
| Prompts.FillContainsSlot | scripts/evaluate_llm.py:132-144 | Every hole a template names is filled into the prompt verbatim, as in an f-string. |
| Prompts.BuildReflectionPrompt | scripts/evaluate_llm.py:35-57 | The reflection prompt contains both the equation and the LLM's reasoning verbatim. |
| Prompts.BuildChainOfThoughtPrompt | scripts/evaluate_llm.py:63-87 | The chain-of-thought prompt contains both the equation and the LLM's reasoning verbatim. |
| Prompts.BuildSingleDebatePrompt | scripts/evaluate_llm.py:93-123 | The single-round debate prompt contains both the equation and the LLM's reasoning verbatim. |
| Prompts.DefendIsNotCritique | scripts/evaluate_llm.py:132-139 | No prompt opens both as a defend prompt and as a critique prompt. |
| Prompts.JudgeIsNoAgent | scripts/evaluate_llm.py:164 | A prompt that opens as the judge's prompt is neither agent's prompt. |
| Prompts.BuildDebateAgentPrompt | scripts/evaluate_llm.py:129-144 | `_build_debate_agent_prompt`: the DEFEND template for stance "pro" and the CRITIQUE template otherwise. `Prompts.AgentPromptShape` states its properties. |
| Prompts.AgentPromptShape | scripts/evaluate_llm.py:129-144 | The agent prompt defends if and only if the stance is "pro", and critiques for every other stance. It contains the equation, the reasoning and the history verbatim. |
| Prompts.JudgePrompt | scripts/evaluate_llm.py:163-184 | The judge prompt built inline in `run_iterative_debate`. `Prompts.JudgePromptShape` states its properties. |
| Prompts.JudgePromptShape | scripts/evaluate_llm.py:163-184 | The judge prompt contains the equation, the reasoning and the whole history, and is neither agent's prompt. |
| Debate.DecimalDigits | scripts/evaluate_llm.py:155 | A round number is rendered as a non-empty string of decimal digits. |
| Debate.DecimalRoundTrip | scripts/evaluate_llm.py:155 | The rendered round number reads back as that number, so distinct rounds get distinct labels. |
| Debate.TurnParity | scripts/evaluate_llm.py:151-160 | In round i, turn 2i is the "pro" turn labelled " (Pro): ", and turn 2i+1 is the "con" turn labelled " (Con): ". |
| Debate.TurnLine | scripts/evaluate_llm.py:155-160 | The line one turn appends: `Round {i+1} (Pro): <reply>` or `Round {i+1} (Con): <reply>`, then a newline. `Debate.TurnParity` and `Debate.TurnInHistory` state its properties. |
| Debate.History | scripts/evaluate_llm.py:150-160 | The history after a sequence of agent replies: the header, then each turn's line in order. `Debate.HistoryAppend` and `Debate.HistoryGrows` state how it grows. |
| Debate.HistoryAppend | scripts/evaluate_llm.py:155 | Taking one more turn appends exactly that turn's line to the history. |
| Debate.HistoryGrows | scripts/evaluate_llm.py:150-160 | The history after j turns is a prefix of the history after any k >= j turns, and a proper prefix when j < k. |
| Debate.TurnInHistory | scripts/evaluate_llm.py:155-160 | Every turn's line, `Round {i+1} (Pro/Con): <reply>`, stays in every later history. |
| Debate.AgentCalls | scripts/evaluate_llm.py:151-160 | The debate loop makes one agent call per reply. |
| Debate.AgentCallsAppend | scripts/evaluate_llm.py:153-159 | The next agent call carries the agent prompt for that turn, built on the history of all earlier turns, at temperature 0.5. |
| Debate.AgentPromptStance | scripts/evaluate_llm.py:153-158 | The prompt of turn t defends if and only if t is even, and critiques if and only if t is odd. It contains the equation, the reasoning and the history it was built on. |
| Debate.AgentPromptOfRound | scripts/evaluate_llm.py:153-158 | In round i, turn 2i is built with stance "pro" and turn 2i+1 with stance "con". |
| Debate.AgentCallIs | scripts/evaluate_llm.py:153-159 | Call t of the debate is the agent call of turn t, carrying the history of turns 0..t-1. |
| Debate.DebateCalls | scripts/evaluate_llm.py:151-185 | Every call the debate sends, given the agents' replies: the agent calls, then the judge call. `Debate.DebateSchedule` states its shape, and `Debate.RunIterativeDebate` is proved to send exactly these calls. |
| Debate.DebateSchedule | scripts/evaluate_llm.py:151-185 | The debate makes exactly one call per agent turn, plus one more: Pro on even turns and Con on odd turns, all at 0.5 on the default model, each carrying the history before it. The last call is the judge's, on the full history, at 0.1. |
| Debate.AgentSeesEarlierTurns | scripts/evaluate_llm.py:151-160 | Every agent prompt contains the line of every earlier turn. |
| Debate.ConSeesSameRoundPro | scripts/evaluate_llm.py:153-158 | The Con prompt of round i+1 is a critique prompt and contains that round's Pro reply line. |
| Debate.ProSeesPreviousCon | scripts/evaluate_llm.py:153-160 | The Pro prompt of round i+2 is a defend prompt and contains round i+1's Con reply line. |
| Debate.JudgeSeesEverything | scripts/evaluate_llm.py:163-174 | The judge prompt contains the equation, the reasoning, the full history and every turn's line. |
| Debate.JudgeVerdict | scripts/evaluate_llm.py:186-189 | A parseable judge reply is returned as parsed. Otherwise the result is an object with exactly the keys "error" and "raw_output": the fixed parse-failure message and the reply text. |
| Debate.ScriptedReplyAt | scripts/evaluate_llm.py:154-159 | The k-th agent reply is the backend's reply to the k-th request of the debate. |
| Debate.ScriptedRepliesNext | scripts/evaluate_llm.py:154-159 | The reply to the next request extends the replies received so far by one. |
| Debate.AgentTurn | scripts/evaluate_llm.py:153-160 | One agent turn sends the agent prompt on the current history at 0.5. The history and the log then extend by exactly that turn, and the reply is the backend's next scripted reply. |
| Debate.PlayRound | scripts/evaluate_llm.py:152-160 | One round is a Pro turn followed by a Con turn. Afterwards the history and the log are those of a debate two turns longer. |
| Debate.DebateRounds | scripts/evaluate_llm.py:150-160 | After the loop there are exactly 2·max(rounds, 0) agent turns. The history is `Debate History:\n` followed by their lines, and the log holds their calls in order. |
| Debate.RunIterativeDebate | scripts/evaluate_llm.py:146-189 | The backend receives exactly the debate's calls and nothing else: 2·rounds agent calls and then one judge call when rounds > 0, and only the judge call when rounds <= 0. The result is the verdict for the backend's reply to the judge call. |
| Revised.RevisedReasoning | scripts/evaluate_llm.py:204-207 | `reasoning_data`: the parsed document, or the input wrapped under "raw_revised_output". `Revised.RevisedReasoningKeepsInput` states both cases. |
| Revised.RevisedRecord | scripts/evaluate_llm.py:204-212 | The record has exactly the keys "summary_equation" and "revised_reasoning", in that order, holding the equation and the revised reasoning. |
| Revised.RevisedReasoningKeepsInput | scripts/evaluate_llm.py:204-207 | A string that parses is stored as its parsed value. Any other input, whether unparseable or not a string, is stored as an object whose only key is "raw_revised_output", holding the input unchanged. |
| Revised.RevisedPath | scripts/evaluate_llm.py:213 | The path ends in "_revised.json". Before the suffix is the base name alone when the base is absolute (starts with '/'), as `os.path.join` drops the folder, and "outputs/" followed by the base name otherwise. |
| Revised.RevisedPathRoundTrip | scripts/evaluate_llm.py:213 | The base name can be read back from the path. |
| Revised.RevisedPathInjective | scripts/evaluate_llm.py:213 | Distinct base names get distinct revised files. |

## Left out

- The HTTP request to Ollama and the extraction of the `response` field: they are network I/O. The backend's script stands for them. A `Delivered` outcome carries the text after `.strip()`, a string post-processing step folded into the outcome.
- The `@retry` decorator: every `RequestException` is caught inside `send_to_ollama`, so no retry happens for one.
- Ollama.Backend.Send: exceptions other than a `RequestException` raised at scripts/evaluate_llm.py:26 are not modelled. Examples: a 2xx body that is a JSON array (`.get` raises `AttributeError`), or a null `"response"` (`.strip()` raises `AttributeError`). Such a body makes the decorator retry three times, 2 s apart, and then `RetryError` escapes `send_to_ollama` and `run_iterative_debate`. `Ollama.Outcome` has no such case, so the model promises a reply for every request.
- `json.loads` is a parameter, not a parser. `json.dump` and its indentation are not modelled: both are library calls.
- `os.makedirs`, writing the record file and the `print` calls: these are disk and console side effects. Only the record value and the path string are modelled.
- Exact prompt wording and whitespace: the fixed text of each template is abbreviated. The holes, their order and the opening words that tell the prompts apart are modelled.
- Temperatures are the tags `PointOne` and `PointFive`: the source only passes these floats through.
- app.py (the Streamlit front end) is not part of this model. This includes its filter on `_revised.json` file names and its `.json` suffix stripping.
- scripts/generate_daily_summaries.py (pandas summaries and an interactive menu) is not part of this model.
