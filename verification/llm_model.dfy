/**
 * The LLM handle of src/app/llm_model.py: a status state machine over
 * "not ready", "ready", "failure" and "idle", a restart counter bounded by 3,
 * a memory guard on shutdown, and the prompt shaping and answer extraction of
 * a question.
 *
 * The outside world is made into parameters: the engine that the pipeline
 * factory builds (or the exception it raises instead), the engine's two calls
 * (chat-template rendering and generation), and the resident-memory reading
 * taken after the engine is released. Each operation is specified first as a
 * pure step on a `ModelState`; the class `LLMModel` carries out the same steps
 * on its fields, and its methods are proved to agree with them.
 */
module LlmModel {
  import opened Outcomes
  import opened Json
  import opened Text

  /** The four statuses, the string constants "not ready", "ready", "failure" and "idle" in that order. */
  datatype Status = NotReady | Ready | Failure | Idle

  /**
   * A deployed engine, as the pipeline factory returns it. `generate` is the
   * engine called on a prompt with the prompting options, already reduced to the
   * `generated_text` of its first output (a malformed output raises);
   * `chatTemplate` renders a single user turn with the given content into a
   * prompt.
   */
  datatype Engine = Engine(generate: string -> Outcome<string>, chatTemplate: string -> Outcome<string>)

  /** The message handed to the engine: the bare question, or a one-turn chat with the user role. */
  datatype Message = Bare(text: string) | UserTurn(content: string)

  /** What `answer_question` gives its caller: `None`, the answer text, or an exception. */
  datatype Reply = NoEngine | Answer(text: string) | AnswerRaised

  /** The mutable part of an `LLMModel`. */
  datatype ModelState = ModelState(
    status: Status,
    restartAttempt: int,
    pipe: Option<Engine>,
    message: Option<Message>,
    prompt: Option<string>,
    answer: Option<string>)

  /** The restart ceiling. */
  const MaxRestartAttempts: int := 3

  /** The question the self-test asks. */
  const SelfTestQuestion: string := "What's the capital of Germany?"

  /** Every reachable state keeps its restart counter between 0 and the ceiling. */
  predicate CounterInRange(s: ModelState)
  {
    0 <= s.restartAttempt <= MaxRestartAttempts
  }

  /** The state of a freshly constructed model. */
  function FreshState(): (s: ModelState)
    ensures s.status == NotReady && s.restartAttempt == 0 && s.pipe == None
    ensures s.message == None && s.prompt == None && s.answer == None
  {
    ModelState(NotReady, 0, None, None, None, None)
  }

  /**
   * The chat-template flag: the `uses_chat_template` option is present and truthy.
   * `None` stands for the option being absent.
   */
  predicate UsesChatTemplate(option: Option<Json>)
  {
    option.Some? && Truthy(option.value)
  }

  /**
   * Memory guard of shutdown: after release, resident memory must not exceed
   * 1.4 times the construction-time baseline (written as `rss * 10 <= baseline * 14`).
   */
  predicate ExceedsMemoryThreshold(rss: int, baseline: int)
  {
    rss * 10 > baseline * 14
  }

  /** The self-test's verdict on a reply: only an answer string counts as responsive. */
  predicate Responsive(reply: Reply)
  {
    match reply
    case Answer(_) => true
    case NoEngine => false
    case AnswerRaised => false
  }

  /** Answering a question: prompt shaping, one generation, answer extraction. */
  function AnswerStep(s: ModelState, chat: bool, question: string): (r: (ModelState, Reply))
    ensures s.pipe == None ==> r == (s, NoEngine)
    ensures r.1 == NoEngine <==> s.pipe == None
    ensures r.0.status == s.status && r.0.restartAttempt == s.restartAttempt && r.0.pipe == s.pipe
    ensures s.pipe != None && !chat ==>
              r.0.message == Some(Bare(question)) && r.0.prompt == Some(question)
    ensures s.pipe != None && chat ==> r.0.message == Some(UserTurn(question))
    ensures s.pipe != None && chat && s.pipe.value.chatTemplate(question).Returned? ==>
              r.0.prompt == Some(s.pipe.value.chatTemplate(question).value)
    ensures s.pipe != None && chat && s.pipe.value.chatTemplate(question).Raised? ==>
              r.0.prompt == s.prompt && r.1 == AnswerRaised
    ensures r.1.Answer? <==> s.pipe != None && r.0.prompt != None && r.0.message != None &&
                             s.pipe.value.generate(r.0.prompt.value).Returned? &&
                             (chat ==> s.pipe.value.chatTemplate(question).Returned?)
    ensures r.1.Answer? ==>
              r.0.answer == Some(r.1.text) &&
              r.1.text == ExtractAnswer(s.pipe.value.generate(r.0.prompt.value).value)
    ensures !r.1.Answer? ==> r.0.answer == s.answer
  {
    match s.pipe
    case None => (s, NoEngine)
    case Some(engine) =>
      var (s1, prompted) :=
        if chat then
          var s1 := s.(message := Some(UserTurn(question)));
          match engine.chatTemplate(question)
          case Raised => (s1, false)
          case Returned(p) => (s1.(prompt := Some(p)), true)
        else (s.(message := Some(Bare(question)), prompt := Some(question)), true);
      if !prompted then (s1, AnswerRaised)
      else
        match engine.generate(s1.prompt.value)
        case Raised => (s1, AnswerRaised)
        case Returned(text) =>
          var answer := ExtractAnswer(text);
          (s1.(answer := Some(answer)), Answer(answer))
  }

  /** The reply of the self-test that a deploy runs on a freshly built engine. */
  function SelfTestReply(s: ModelState, chat: bool, engine: Engine): Reply
  {
    AnswerStep(s.(pipe := Some(engine)), chat, SelfTestQuestion).1
  }

  /**
   * Deploying: build the engine, then self-test it. A factory exception means
   * failure; a responsive engine means ready with the counter reset; an
   * unresponsive one means "not ready".
   */
  function DownloadStep(s: ModelState, chat: bool, init: Outcome<Engine>): (r: ModelState)
    ensures init.Raised? ==>
              r.status == Failure && r.restartAttempt == s.restartAttempt && r.pipe == s.pipe &&
              r.message == s.message && r.prompt == s.prompt && r.answer == s.answer
    ensures init.Returned? ==> r.pipe == Some(init.value)
    ensures init.Returned? ==>
              var t := AnswerStep(s.(pipe := Some(init.value)), chat, SelfTestQuestion).0;
              r.message == t.message && r.prompt == t.prompt && r.answer == t.answer
    ensures r.status == Ready <==> init.Returned? && SelfTestReply(s, chat, init.value).Answer?
    ensures r.status == NotReady <==> init.Returned? && !SelfTestReply(s, chat, init.value).Answer?
    ensures r.status != Idle
    ensures r.status == Ready ==> r.restartAttempt == 0
    ensures r.status != Ready ==> r.restartAttempt == s.restartAttempt
  {
    match init
    case Raised => s.(status := Failure)
    case Returned(engine) =>
      var (s1, reply) := AnswerStep(s.(pipe := Some(engine)), chat, SelfTestQuestion);
      if Responsive(reply) then s1.(status := Ready, restartAttempt := 0)
      else s1.(status := NotReady)
  }

  /**
   * Shutting down: release the engine, then compare resident memory with the
   * baseline. Any exception while doing so is a failure.
   */
  function ShutdownStep(s: ModelState, baseline: int, rss: Outcome<nat>): (r: ModelState)
    ensures r.pipe == None
    ensures r.status == Idle <==> rss.Returned? && !ExceedsMemoryThreshold(rss.value, baseline)
    ensures r.status == Failure <==> !(rss.Returned? && !ExceedsMemoryThreshold(rss.value, baseline))
    ensures r.restartAttempt == s.restartAttempt
    ensures r.message == s.message && r.prompt == s.prompt && r.answer == s.answer
  {
    var released := s.(status := NotReady, pipe := None);
    match rss
    case Raised => released.(status := Failure)
    case Returned(after) =>
      if ExceedsMemoryThreshold(after, baseline) then released.(status := Failure)
      else released.(status := Idle)
  }

  /** A restart goes ahead: below the ceiling, not idle, and an engine is loaded. */
  predicate RestartProceeds(s: ModelState)
  {
    s.restartAttempt < MaxRestartAttempts && s.status != Idle && s.pipe != None
  }

  /**
   * Restarting: at the ceiling, fail; with nothing running, do nothing;
   * otherwise count one more attempt, shut down and deploy again (the deploy runs
   * even when the shutdown ended in failure).
   */
  function RestartStep(s: ModelState, chat: bool, baseline: int, rss: Outcome<nat>, init: Outcome<Engine>): (r: ModelState)
    ensures s.restartAttempt >= MaxRestartAttempts ==> r == s.(status := Failure)
    ensures !RestartProceeds(s) && s.restartAttempt < MaxRestartAttempts ==> r == s
    ensures RestartProceeds(s) ==>
              r == DownloadStep(ShutdownStep(s.(restartAttempt := s.restartAttempt + 1), baseline, rss), chat, init)
    ensures CounterInRange(s) ==> CounterInRange(r)
    ensures RestartProceeds(s) ==>
              (r.status == Ready && r.restartAttempt == 0) ||
              (r.status != Ready && r.restartAttempt == s.restartAttempt + 1)
    ensures RestartProceeds(s) && init.Raised? ==> r.status == Failure && r.pipe == None
  {
    if s.restartAttempt >= MaxRestartAttempts then s.(status := Failure)
    else if s.status == Idle || s.pipe == None then s
    else
      var counted := s.(restartAttempt := s.restartAttempt + 1);
      DownloadStep(ShutdownStep(counted, baseline, rss), chat, init)
  }

  /**
   * The handle itself. Configuration is fixed at construction; the status, the
   * counter, the engine reference and the last message, prompt and answer are
   * updated in place.
   */
  class LLMModel {
    const modeltyp: Json
    const model: Json
    const promptingConfig: map<string, Json>
    const deploymentConfig: map<string, DeployValue>
    /** The `uses_chat_template` entry of the extra options; `None` when it was not given. */
    const usesChatTemplate: Option<Json>
    /** Resident memory when the handle was built, in bytes. */
    const initMemoryUsage: nat

    var pipe: Option<Engine>
    var message: Option<Message>
    var answer: Option<string>
    var prompt: Option<string>
    var status: Status
    var restartAttempt: int
    /** How many times the pipeline factory has been asked for an engine. */
    ghost var deployments: nat

    ghost predicate Valid()
      reads this
    {
      Coherent(State())
    }

    function State(): ModelState
      reads this
    {
      ModelState(status, restartAttempt, pipe, message, prompt, answer)
    }

    predicate Chat()
    {
      UsesChatTemplate(usesChatTemplate)
    }

    constructor (modeltyp: Json, model: Json, promptingConfig: map<string, Json>,
                 deploymentConfig: map<string, DeployValue>, usesChatTemplate: Option<Json>, rss: nat)
      ensures Valid() && State() == FreshState() && deployments == 0
      ensures this.modeltyp == modeltyp && this.model == model
      ensures this.promptingConfig == promptingConfig && this.deploymentConfig == deploymentConfig
      ensures this.usesChatTemplate == usesChatTemplate && initMemoryUsage == rss
    {
      this.modeltyp := modeltyp;
      this.model := model;
      this.promptingConfig := promptingConfig;
      this.deploymentConfig := deploymentConfig;
      this.usesChatTemplate := usesChatTemplate;
      pipe := None;
      message := None;
      answer := None;
      prompt := None;
      status := NotReady;
      initMemoryUsage := rss;
      restartAttempt := 0;
      deployments := 0;
    }

    /** Builds the engine and self-tests it; `init` is what the pipeline factory did. */
    method DownloadModel(init: Outcome<Engine>)
      requires Valid()
      modifies this
      ensures Valid()
      ensures State() == DownloadStep(old(State()), Chat(), init)
      ensures deployments == old(deployments) + 1
    {
      deployments := deployments + 1;
      match init {
        case Raised =>
          status := Failure;
        case Returned(engine) =>
          pipe := Some(engine);
          var responsive := IsResponsive();
          if responsive {
            status := Ready;
            restartAttempt := 0;
          } else {
            status := NotReady;
          }
      }
    }

    /** Releases the engine and checks memory; `rss` is the reading taken after release. */
    method Shutdown(rss: Outcome<nat>)
      requires CounterInRange(State())
      modifies this
      ensures Valid()
      ensures State() == ShutdownStep(old(State()), initMemoryUsage, rss)
      ensures deployments == old(deployments)
    {
      status := NotReady;
      pipe := None;
      match rss {
        case Raised =>
          status := Failure;
        case Returned(after) =>
          if ExceedsMemoryThreshold(after, initMemoryUsage) {
            status := Failure;
          } else {
            status := Idle;
          }
      }
    }

    /** Bounded repair: shutdown followed by a fresh deploy. */
    method Restart(rss: Outcome<nat>, init: Outcome<Engine>)
      requires Valid()
      modifies this
      ensures Valid()
      ensures State() == RestartStep(old(State()), Chat(), initMemoryUsage, rss, init)
      ensures deployments == old(deployments) + (if RestartProceeds(old(State())) then 1 else 0)
    {
      if restartAttempt >= MaxRestartAttempts {
        status := Failure;
        return;
      }
      if status == Idle || pipe == None {
        return;
      }
      restartAttempt := restartAttempt + 1;
      Shutdown(rss);
      DownloadModel(init);
    }

    /** The self-test: asks the canned question and accepts any answer string. */
    method IsResponsive() returns (responsive: bool)
      modifies this
      ensures var (s, reply) := AnswerStep(old(State()), Chat(), SelfTestQuestion);
              State() == s && responsive == Responsive(reply)
      ensures deployments == old(deployments)
    {
      var reply := AnswerQuestion(SelfTestQuestion);
      responsive := Responsive(reply);
    }

    /** Shapes the prompt, runs the engine once and keeps the extracted answer. */
    method AnswerQuestion(question: string) returns (reply: Reply)
      modifies this
      ensures (State(), reply) == AnswerStep(old(State()), Chat(), question)
      ensures deployments == old(deployments)
    {
      if pipe == None {
        return NoEngine;
      }
      var engine := pipe.value;
      if usesChatTemplate.Some? && Truthy(usesChatTemplate.value) {
        message := Some(UserTurn(question));
        var rendered := engine.chatTemplate(question);
        if rendered.Raised? {
          return AnswerRaised;
        }
        prompt := Some(rendered.value);
      } else {
        message := Some(Bare(question));
        prompt := Some(question);
      }
      var output := engine.generate(prompt.value);
      if output.Raised? {
        return AnswerRaised;
      }
      answer := Some(ExtractAnswer(output.value));
      reply := Answer(answer.value);
    }
  }

  /** Whether an engine produces an answer string for `question` (both of its calls return). */
  predicate Answers(engine: Engine, chat: bool, question: string)
  {
    if chat then
      engine.chatTemplate(question).Returned? &&
      engine.generate(engine.chatTemplate(question).value).Returned?
    else engine.generate(question).Returned?
  }

  /** Whether a question gets an answer depends only on the engine, the flag and the question. */
  lemma AnswerDependsOnEngineOnly(s: ModelState, chat: bool, question: string)
    requires s.pipe != None
    ensures AnswerStep(s, chat, question).1.Answer? <==> Answers(s.pipe.value, chat, question)
  {
  }

  /**
   * The invariant of every reachable state: the counter stays within the
   * ceiling, a ready handle has a reset counter and an engine, and an idle
   * handle has none.
   */
  predicate Coherent(s: ModelState)
  {
    && CounterInRange(s)
    && (s.status == Ready ==> s.restartAttempt == 0 && s.pipe != None)
    && (s.status == Idle ==> s.pipe == None)
  }

  /** The operations a caller can invoke on a handle, with what the outside world does during each. */
  datatype Call =
    | Deploy(init: Outcome<Engine>)
    | ShutDown(rss: Outcome<nat>)
    | Repair(rss: Outcome<nat>, init: Outcome<Engine>)
    | Ask(question: string)

  function Apply(s: ModelState, call: Call, chat: bool, baseline: int): (r: ModelState)
    ensures Coherent(s) ==> Coherent(r)
  {
    match call
    case Deploy(init) => DownloadStep(s, chat, init)
    case ShutDown(rss) => ShutdownStep(s, baseline, rss)
    case Repair(rss, init) => RestartStep(s, chat, baseline, rss, init)
    case Ask(question) => AnswerStep(s, chat, question).0
  }

  /** The state after a sequence of calls. */
  function Run(s: ModelState, calls: seq<Call>, chat: bool, baseline: int): ModelState
    decreases |calls|
  {
    if calls == [] then s else Run(Apply(s, calls[0], chat, baseline), calls[1..], chat, baseline)
  }

  /** Whatever the calls and whatever the outside world does, the invariant is kept. */
  lemma {:induction false} RunKeepsCoherent(s: ModelState, calls: seq<Call>, chat: bool, baseline: int)
    requires Coherent(s)
    ensures Coherent(Run(s, calls, chat, baseline))
    decreases |calls|
  {
    if calls != [] {
      RunKeepsCoherent(Apply(s, calls[0], chat, baseline), calls[1..], chat, baseline);
    }
  }

  /** So from a fresh handle the counter never leaves 0..3, and "ready" always means a reset counter. */
  lemma {:induction false} FreshRunCounterBounded(calls: seq<Call>, chat: bool, baseline: int)
    ensures 0 <= Run(FreshState(), calls, chat, baseline).restartAttempt <= MaxRestartAttempts
    ensures Run(FreshState(), calls, chat, baseline).status == Ready ==>
              Run(FreshState(), calls, chat, baseline).restartAttempt == 0
  {
    RunKeepsCoherent(FreshState(), calls, chat, baseline);
  }

  /** `n` restarts in a row, with the outside world behaving the same way each time. */
  function Restarts(s: ModelState, n: nat, chat: bool, baseline: int, rss: Outcome<nat>, init: Outcome<Engine>): ModelState
    decreases n
  {
    if n == 0 then s else Restarts(RestartStep(s, chat, baseline, rss, init), n - 1, chat, baseline, rss, init)
  }

  /**
   * An engine that never passes the self-test uses up the restart budget: each
   * restart leaves the handle "not ready" with one more attempt counted, and the
   * restart after the third one fails the handle for good.
   */
  lemma {:induction false} UnresponsiveEngineExhaustsRestarts(
    s: ModelState, n: nat, chat: bool, baseline: int, rss: Outcome<nat>, engine: Engine)
    requires CounterInRange(s) && s.pipe != None && s.status != Idle
    requires !Answers(engine, chat, SelfTestQuestion)
    ensures var r := Restarts(s, n, chat, baseline, rss, Returned(engine));
            if n <= MaxRestartAttempts - s.restartAttempt then
              r.restartAttempt == s.restartAttempt + n && (n > 0 ==> r.status == NotReady && r.pipe == Some(engine))
            else
              r.restartAttempt == MaxRestartAttempts && r.status == Failure
    decreases n
  {
    if n > 0 {
      var next := RestartStep(s, chat, baseline, rss, Returned(engine));
      if s.restartAttempt < MaxRestartAttempts {
        AnswerDependsOnEngineOnly(ShutdownStep(s.(restartAttempt := s.restartAttempt + 1), baseline, rss).(pipe := Some(engine)), chat, SelfTestQuestion);
        assert next.status == NotReady && next.pipe == Some(engine);
      }
      UnresponsiveEngineExhaustsRestarts(next, n - 1, chat, baseline, rss, engine);
    }
  }

  /**
   * When a restart goes ahead, its outcome does not depend on the memory reading:
   * the deploy that follows the shutdown overwrites the status the guard set.
   */
  lemma RestartIgnoresShutdownVerdict(s: ModelState, chat: bool, baseline: int,
                                      rss1: Outcome<nat>, rss2: Outcome<nat>, init: Outcome<Engine>)
    ensures RestartStep(s, chat, baseline, rss1, init) == RestartStep(s, chat, baseline, rss2, init)
  {
  }

  /** A deployment option value: a decoded JSON value, or the bfloat16 dtype object. */
  datatype DeployValue = Decoded(json: Json) | BFloat16
}
