# LLM lifecycle supervisor, modelled in Dafny

This project models the lifecycle supervisor of the GreenPrompt LLM wrapper.

- `LLMModel` (src/app/llm_model.py) is a handle with a status. The status is one of "not ready", "ready", "failure" or "idle".
  - Deploying builds the text-generation engine and runs a self-test question through it.
  - Shutting down releases the engine and checks resident memory against 1.4 times the baseline taken at construction.
  - Restarting is a shutdown followed by a fresh deploy, guarded by a counter with a ceiling of three attempts.
  - Answering a question shapes the prompt (plain, or one chat turn through the engine's chat template), generates once, and keeps the text between the first `<|assistant|>\n` marker and the next one (or the end of the text); without a marker it keeps the whole text.
- `LLMWrapper` (src/app/wrapper/llm_wrapper.py) owns one handle. It forwards shutdown and restart requests only while the handle is "ready". One health-monitor tick requests a restart when more than 240 seconds have passed since the last question was asked (whether or not it has been answered), and marks the handle unhealthy (and requests a restart) when it is in failure. Monitoring can be switched on and off.
- `WrapperManager.create_wrapper` (src/app/wrapper/llm_wrapper_manager.py) checks the shape of a decoded JSON configuration, fills in defaults, turns the string `"torch.bfloat16"` into the bfloat16 dtype and builds a wrapper.

The outside world enters as parameters:
- the engine the pipeline factory builds, or the exception it raises (`Outcome<Engine>`);
- the engine's generation and chat-template calls, which are total functions inside `Engine` that return a string or raise;
- the resident-memory reading after release (`Outcome<nat>`);
- the clock, as an integer `now` in seconds;
- JSON decoding, as `Option<Json>`.

Each operation of the handle is first a pure step on a `ModelState` (`DownloadStep`, `ShutdownStep`, `RestartStep`, `AnswerStep`). The class methods update the fields in place and are proved to produce exactly that step; the class invariant `Valid()` is that same invariant (`Coherent`) on the fields, and every method keeps it. The wrapper's gates and its tick are pure functions too (`ShutdownGate`, `RestartGate`, `TickStep`), and the wrapper's methods are proved against them.

Files:
- `outcomes.dfy`: Option and Result.
- `json.dfy`: decoded JSON, `dict.get` and Python truthiness.
- `text.dfy`: `str.split` and `join`, and answer extraction.
- `llm_model.dfy`: the handle.
- `llm_wrapper.dfy`: the supervisor.
- `llm_wrapper_manager.dfy`: the configuration validator.

Where a reader might expect otherwise, the model follows the code:
- A new handle starts in "not ready", not "idle".
- Deploying is not refused in any status.
- The memory factor is 1.4.
- A shutdown of the handle itself runs the memory check even when it is already idle. Only the wrapper ignores that request.
- A restart deploys again even after its shutdown ended in failure.
- The prompting start time is set when a question is asked and never cleared. So every tick more than 240 seconds after the last question restarts a "ready" handle, even when that question was answered long ago (`StaleQuestionRestartsReadyHandle`).
- Answering a question checks only that an engine is loaded, never the status (src/app/llm_model.py:146). A handle in failure that still holds an engine goes on answering. A restart at the ceiling keeps the engine, and so does a deploy whose factory raises.

Consequences of the code that the model proves:
- Through the wrapper, restarts start only from "ready", where the counter is always 0. So the counter never exceeds 1 and the three-attempt ceiling is never reached from the wrapper (`WrapperNeverReachesRestartCeiling`).
- Failure is terminal under the wrapper (`FailureIsTerminalUnderWrapper`).
- When a restart goes ahead, the memory verdict of its shutdown has no effect on the outcome (`RestartIgnoresShutdownVerdict`).

## Model

| member | source | states |
|---|---|---|
| `LlmModel.FreshState` | src/app/llm_model.py:40-47 | a fresh handle is "not ready" with counter 0, no engine, and no message, prompt or answer |
| `LlmModel.LLMModel.constructor` | src/app/llm_model.py:34-47 | the configuration is stored as given, the memory baseline is the reading at construction, and the state is the fresh state |
| `LlmModel.AnswerStep` | src/app/llm_model.py:144-170 | with no engine nothing changes and `None` is returned, and `None` is returned only then (an engine exception is reported as an exception); without the chat flag, message and prompt are the question; with it, the message is the user turn, the prompt is the rendered template, and when rendering raises the prompt is kept and the exception is reported; an answer is returned exactly when every engine call returns, and it is the extracted text, stored as the answer; status, counter and engine are never touched; a failed call leaves the previous answer |
| `LlmModel.LLMModel.AnswerQuestion` | src/app/llm_model.py:144-170 | updates message, prompt and answer and returns the reply exactly as `AnswerStep` describes |
| `LlmModel.LLMModel.IsResponsive` | src/app/llm_model.py:123-142 | asks the canned question and is true exactly when the reply is an answer string (no engine or an exception gives false) |
| `LlmModel.DownloadStep` | src/app/llm_model.py:57-77 | a factory exception gives failure and changes nothing else (counter and engine included); otherwise the new engine is installed, and message, prompt and answer are those the self-test question leaves; "ready" exactly when the self-test answers, with the counter reset to 0; "not ready" exactly when it does not, with the counter unchanged; never "idle" |
| `LlmModel.LLMModel.DownloadModel` | src/app/llm_model.py:57-77 | performs `DownloadStep` on the handle's fields, keeps the invariant, and asks the pipeline factory exactly once |
| `LlmModel.ShutdownStep` | src/app/llm_model.py:80-100 | the engine reference is always cleared; "idle" exactly when memory was read and is at most 1.4 times the baseline, failure otherwise (an exception included); counter, message, prompt and answer unchanged |
| `LlmModel.LLMModel.Shutdown` | src/app/llm_model.py:80-100 | performs `ShutdownStep` against the construction-time baseline |
| `LlmModel.RestartStep` | src/app/llm_model.py:102-117 | at counter 3 or more: failure and nothing else changes; when idle or without an engine: no change; otherwise the counter goes up by exactly one, then shutdown, then deploy, in that order; the counter stays within 0..3; when the restart goes ahead, the counter ends at 0 only on "ready"; a factory exception ends in failure with no engine |
| `LlmModel.LLMModel.Restart` | src/app/llm_model.py:102-117 | performs `RestartStep` on the handle's fields, asking the pipeline factory once exactly when the restart goes ahead |
| `LlmModel.AnswerDependsOnEngineOnly` | src/app/llm_model.py:150-162 | whether a question is answered depends only on the engine, the chat flag and the question |
| `LlmModel.Apply` | src/app/llm_model.py:67-117 | every operation keeps the invariant: counter within 0..3, "ready" implies counter 0 and an engine, "idle" implies no engine |
| `LlmModel.RunKeepsCoherent` | src/app/llm_model.py:104-114 | the invariant survives any sequence of deploys, shutdowns, restarts and questions, whatever the outside world does |
| `LlmModel.FreshRunCounterBounded` | src/app/llm_model.py:47-47 | from a fresh handle the counter never leaves 0..3, and "ready" always comes with counter 0 |
| `LlmModel.UnresponsiveEngineExhaustsRestarts` | src/app/llm_model.py:104-117 | with an engine that never passes the self-test, each restart adds one attempt and leaves the handle "not ready"; the restart after the counter reaches 3 ends in failure with the counter at 3 |
| `LlmModel.RestartIgnoresShutdownVerdict` | src/app/llm_model.py:116-117 | a restart's outcome is the same whatever memory reading its shutdown saw |
| `Text.IndexOf` | src/app/llm_model.py:163-163 | a found index is an occurrence of the separator |
| `Text.IndexOfIsLeftmost` | src/app/llm_model.py:163-163 | the found index is the leftmost occurrence, and nothing is found exactly when the separator does not occur |
| `Text.Split` | src/app/llm_model.py:163-163 | a split always yields at least one piece |
| `Text.JoinSplit` | src/app/llm_model.py:163-163 | joining the pieces of a split with the separator gives back the text |
| `Text.SplitPiecesAreSeparatorFree` | src/app/llm_model.py:163-163 | no piece of a split contains the separator |
| `Text.SplitHasSeveralPiecesIffContains` | src/app/llm_model.py:163-164 | a split has more than one piece exactly when the separator occurs |
| `Text.ExtractAnswer` | src/app/llm_model.py:163-167 | the answer never contains the marker, and text without the marker is its own answer |
| `Text.ExtractAnswerFindsAnswer` | src/app/llm_model.py:163-165 | for text made of a marker-free prefix, the marker, a marker-free answer and a rest that is empty or starts with the marker, the extracted answer is that answer |
| `Text.MarkedTextDecomposes` | src/app/llm_model.py:163-165 | every text containing the marker has that shape, with the extracted answer in the answer position |
| `Text.ExtractAnswerWithoutMarker` | src/app/llm_model.py:166-167 | without the marker the whole generated text is the answer |
| `LlmWrapper.ShutdownGate` | src/app/wrapper/llm_wrapper.py:88-96 | outside "ready" the handle is untouched; from "ready" the result is exactly the handle's own shutdown: the engine is released, the handle ends idle or failed by the memory verdict, and counter, message, prompt and answer are kept |
| `LlmWrapper.LLMWrapper.ShutdownLlm` | src/app/wrapper/llm_wrapper.py:88-96 | performs `ShutdownGate` on the owned handle |
| `LlmWrapper.RestartGate` | src/app/wrapper/llm_wrapper.py:100-108 | outside "ready" (failure, idle, "not ready") the handle is untouched; from "ready" with an engine and room under the ceiling it is one counted shutdown and redeploy; the invariant is kept |
| `LlmWrapper.LLMWrapper.RestartLlm` | src/app/wrapper/llm_wrapper.py:100-108 | performs `RestartGate` on the owned handle |
| `LlmWrapper.TickStep` | src/app/wrapper/llm_wrapper.py:50-65 | healthy exactly when the status after the timeout check is not failure; the handle changes only when strictly more than the limit has passed since the last question was asked and the handle was "ready", and then by exactly one restart; in failure the tick changes nothing and reports unhealthy |
| `LlmWrapper.LLMWrapper.HealthCheck` | src/app/wrapper/llm_wrapper.py:50-65 | performs `TickStep` at time `now` and leaves the start time and monitoring state alone |
| `LlmWrapper.LLMWrapper.constructor` | src/app/wrapper/llm_wrapper.py:42-48 | healthy, timeout 240, no monitoring task, no start time, and the handle is a fresh handle deployed exactly once (the pipeline factory is asked once) |
| `LlmWrapper.Constructed` | src/app/wrapper/llm_wrapper.py:42-48 | right after construction the handle satisfies the invariant with counter at most 1 |
| `LlmWrapper.LLMWrapper.StartMonitoring` | src/app/wrapper/llm_wrapper.py:67-71 | afterwards a task exists; a job is registered only when no task existed, so a second start changes nothing |
| `LlmWrapper.LLMWrapper.StopMonitoring` | src/app/wrapper/llm_wrapper.py:73-78 | afterwards no task exists; with no task it changes nothing; registered jobs stay registered |
| `LlmWrapper.LLMWrapper.GetAnswer` | src/app/wrapper/llm_wrapper.py:80-85 | the start time becomes `now` before asking and stays set; the reply is the handle's reply unchanged |
| `LlmWrapper.StartTimeKeptWithoutQuestions` | src/app/wrapper/llm_wrapper.py:80-81 | only asking a question sets the start time; no other request or tick clears or moves it |
| `LlmWrapper.LastQuestionSetsStartTime` | src/app/wrapper/llm_wrapper.py:80-81 | after a question and any requests that are not questions, the start time is the time that question was asked |
| `LlmWrapper.TimeoutRestartsReadyHandle` | src/app/wrapper/llm_wrapper.py:52-55 | a tick more than 240 seconds after the last question was asked restarts a coherent "ready" handle: one counted shutdown and redeploy |
| `LlmWrapper.StaleQuestionRestartsReadyHandle` | src/app/wrapper/llm_wrapper.py:52-55 | the same through the wrapper's request model, whether or not the question was answered |
| `LlmWrapper.Serve` | src/app/wrapper/llm_wrapper.py:50-108 | every wrapper request keeps the counter at most 1 with the invariant, and from failure leaves status, counter and engine as they were |
| `LlmWrapper.WrapperNeverReachesRestartCeiling` | src/app/wrapper/llm_wrapper.py:100-102 | over any sequence of ticks, shutdowns, restarts and questions the counter stays at most 1, below the ceiling of 3 |
| `LlmWrapper.ConstructedWrapperNeverReachesRestartCeiling` | src/app/wrapper/llm_wrapper.py:42-48 | from construction on, the counter never exceeds 1 |
| `LlmWrapper.FailureIsTerminalUnderWrapper` | src/app/wrapper/llm_wrapper.py:62-65 | once failed, no sequence of wrapper requests or ticks changes the status, the counter or the engine reference |
| `WrapperManager.ParseConfig` | src/app/wrapper/llm_wrapper_manager.py:28-66 | undecodable text and a non-object are rejected with ValueError; a non-object "args" fails with AttributeError at the `.get`, so the later ValueError check on "args" never fires; then "prompting" and then "deployment" must be objects (ValueError); a configuration passing all these checks is accepted; on success model, modeltyp and uses_chat_template pass through (`None` when missing) and missing sections default to empty maps |
| `WrapperManager.NormaliseDtype` | src/app/wrapper/llm_wrapper_manager.py:57-59 | same keys; every other entry unchanged; "torch_dtype" becomes the bfloat16 dtype exactly when it is the string "torch.bfloat16", and is unchanged otherwise |
| `WrapperManager.CreateWrapper` | src/app/wrapper/llm_wrapper_manager.py:19-66 | fails exactly when `ParseConfig` does, with the same error; otherwise builds a fresh wrapper that is healthy, has timeout 240, no monitoring task, no registered jobs and no start time, and whose handle gets model, modeltyp, prompting, the normalised deployment and `uses_chat_template` as its only extra option, deployed once (the pipeline factory is asked once) |

## Left out

- Logging is left out everywhere. This includes the status descriptions at src/app/llm_model.py:50-55, which only feed log lines. It also includes the logging setup at src/app/llm_model.py:12-20. That call passes `filename`, `filemode` and `format` twice each; a repeated keyword argument is a Python `SyntaxError`, so the module as written does not compile. The model assumes the evident single-argument call, which only configures logging.
- The scheduler thread (`run_continuously`, src/app/wrapper/llm_wrapper.py:17-39) and `schedule.every(60)` are concurrency and are not modelled. One tick is `HealthCheck` with the time as a parameter. Monitoring keeps only whether a task exists and how many jobs were registered. Ticks interleaving with caller requests are not modelled: each operation is atomic.
- The engine is an oracle. This covers the pipeline factory, the chat template, generation, and how they depend on model type, model name and options.
- Resident-memory reads and garbage collection are parameters.
- JSON decoding is a parameter. JSON numbers are exact rationals. A configuration argument that is not text at all is not modelled.
- The torch dtype is the value `BFloat16`.
- Of the extra options, only `uses_chat_template` is kept. No other extra option is ever read.
- The read-only properties (`modeltyp`, `model`, `message`, `answer`, `prompt`, `status`) are the class's fields.
- LlmModel.LLMModel.Restart: the retry branch at src/app/llm_model.py:118-121 is not modelled. It can only be entered if shutdown or deploy raises, and both catch every `Exception` themselves.
- LlmModel.LLMModel.IsResponsive: the branch for a reply that is neither `None` nor a string (src/app/llm_model.py:138-139) cannot arise. Generated text is modelled as a string.
- LlmModel.ShutdownStep: compares `rss * 10` with `baseline * 14` exactly. Python compares the reading with the floating-point product `baseline * 1.4`, which can differ by rounding right at the boundary.
- The clock is an integer number of seconds. The source reads `time.time()` as floating-point seconds (src/app/wrapper/llm_wrapper.py:53, 81), so a tick a fraction of a second past the limit is not distinguished.
