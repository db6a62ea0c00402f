/**
 * The supervisor of src/app/wrapper/llm_wrapper.py: it owns one `LLMModel`,
 * forwards shutdown and restart requests only while the model is ready, runs
 * one health-monitor tick at a time (a timeout check on the time since the last
 * question was asked, and a status check), switches monitoring on and off, and
 * records when the last question was asked. That time is never cleared, so the
 * timeout check does not look at whether the question has been answered.
 *
 * The clock is a parameter `now` (seconds). The scheduler thread is left out:
 * `StartMonitoring` and `StopMonitoring` keep only whether a monitoring task
 * exists and how many health-check jobs were registered with the process-wide
 * scheduler.
 */
module LlmWrapper {
  import opened Outcomes
  import opened Json
  import opened LlmModel

  /** Seconds after the last question was asked beyond which a tick requests a restart. */
  const DefaultMaxTimeout: int := 240

  /** The status check of a tick: every status except failure counts as healthy. */
  predicate Healthy(status: Status)
  {
    status == Ready || status == Idle || status == NotReady
  }

  /** The timeout check of a tick: a question was asked, strictly longer than the limit ago. */
  predicate TimeoutExpired(start: Option<int>, now: int, maxTimeout: int)
  {
    start.Some? && now - start.value > maxTimeout
  }

  /** `shutdown_llm`: forwarded only from "ready"; ignored in every other status. */
  function ShutdownGate(s: ModelState, baseline: int, rss: Outcome<nat>): (r: ModelState)
    ensures s.status != Ready ==> r == s
    ensures s.status == Ready ==> r.pipe == None && (r.status == Idle || r.status == Failure)
    ensures s.status == Ready ==> r == ShutdownStep(s, baseline, rss)
    ensures r.restartAttempt == s.restartAttempt
  {
    if s.status == Ready then ShutdownStep(s, baseline, rss) else s
  }

  /** `restart_llm`: forwarded only from "ready"; ignored in every other status. */
  function RestartGate(s: ModelState, chat: bool, baseline: int, rss: Outcome<nat>, init: Outcome<Engine>): (r: ModelState)
    ensures s.status != Ready ==> r == s
    ensures s.status == Ready && s.pipe != None && s.restartAttempt < MaxRestartAttempts ==>
              r == DownloadStep(ShutdownStep(s.(restartAttempt := s.restartAttempt + 1), baseline, rss), chat, init)
    ensures Coherent(s) ==> Coherent(r)
  {
    if s.status == Ready then RestartStep(s, chat, baseline, rss, init) else s
  }

  /**
   * One health-monitor tick: a restart request when the last question was asked
   * longer ago than the limit, then the status check, which marks the model unhealthy and requests a
   * restart when it is in failure. Gives the new model state and the health flag.
   */
  function TickStep(s: ModelState, start: Option<int>, now: int, maxTimeout: int,
                    chat: bool, baseline: int, rss: Outcome<nat>, init: Outcome<Engine>): (r: (ModelState, bool))
    ensures r.1 <==> r.0.status != Failure
    ensures !TimeoutExpired(start, now, maxTimeout) ==> r.0 == s
    ensures TimeoutExpired(start, now, maxTimeout) ==> r.0 == RestartGate(s, chat, baseline, rss, init)
    ensures r.0 != s ==> TimeoutExpired(start, now, maxTimeout) && s.status == Ready
    ensures s.status == Failure ==> r == (s, false)
  {
    var afterTimeout := if TimeoutExpired(start, now, maxTimeout) then RestartGate(s, chat, baseline, rss, init) else s;
    if Healthy(afterTimeout.status) then (afterTimeout, true)
    else (RestartGate(afterTimeout, chat, baseline, rss, init), false)
  }

  /** What the wrapper keeps besides the model's own state. */
  datatype Supervised = Supervised(model: ModelState, healthy: bool, start: Option<int>)

  /** The requests a wrapper serves, with the clock and what the outside world does during each. */
  datatype Request =
    | Tick(now: int, rss: Outcome<nat>, init: Outcome<Engine>)
    | ShutdownRequest(rss: Outcome<nat>)
    | RestartRequest(rss: Outcome<nat>, init: Outcome<Engine>)
    | Question(question: string, now: int)

  /** Restarts through the wrapper only start from "ready", so they never push the counter past one. */
  predicate BelowSecondAttempt(w: Supervised)
  {
    Coherent(w.model) && w.model.restartAttempt <= 1
  }

  function Serve(w: Supervised, req: Request, chat: bool, baseline: int): (r: Supervised)
    ensures BelowSecondAttempt(w) ==> BelowSecondAttempt(r)
    ensures w.model.status == Failure ==>
              r.model.status == Failure && r.model.restartAttempt == w.model.restartAttempt &&
              r.model.pipe == w.model.pipe
  {
    match req
    case Tick(now, rss, init) =>
      var (model, healthy) := TickStep(w.model, w.start, now, DefaultMaxTimeout, chat, baseline, rss, init);
      w.(model := model, healthy := healthy)
    case ShutdownRequest(rss) => w.(model := ShutdownGate(w.model, baseline, rss))
    case RestartRequest(rss, init) => w.(model := RestartGate(w.model, chat, baseline, rss, init))
    case Question(question, now) => w.(model := AnswerStep(w.model, chat, question).0, start := Some(now))
  }

  function ServeAll(w: Supervised, reqs: seq<Request>, chat: bool, baseline: int): Supervised
    decreases |reqs|
  {
    if reqs == [] then w else ServeAll(Serve(w, reqs[0], chat, baseline), reqs[1..], chat, baseline)
  }

  /** The state a wrapper is in right after construction. */
  function Constructed(chat: bool, init: Outcome<Engine>): (w: Supervised)
    ensures BelowSecondAttempt(w)
  {
    Supervised(DownloadStep(FreshState(), chat, init), true, None)
  }

  /**
   * Through the wrapper the restart counter never goes past one, so the
   * three-attempt ceiling of the model is never reached from the wrapper.
   */
  lemma {:induction false} WrapperNeverReachesRestartCeiling(w: Supervised, reqs: seq<Request>, chat: bool, baseline: int)
    requires BelowSecondAttempt(w)
    ensures BelowSecondAttempt(ServeAll(w, reqs, chat, baseline))
    ensures ServeAll(w, reqs, chat, baseline).model.restartAttempt < MaxRestartAttempts
    decreases |reqs|
  {
    if reqs != [] {
      WrapperNeverReachesRestartCeiling(Serve(w, reqs[0], chat, baseline), reqs[1..], chat, baseline);
    }
  }

  /** From construction on, whatever is requested and whatever the world does. */
  lemma ConstructedWrapperNeverReachesRestartCeiling(chat: bool, init: Outcome<Engine>, reqs: seq<Request>, baseline: int)
    ensures ServeAll(Constructed(chat, init), reqs, chat, baseline).model.restartAttempt <= 1
  {
    WrapperNeverReachesRestartCeiling(Constructed(chat, init), reqs, chat, baseline);
  }

  /**
   * Failure is terminal under the wrapper: no request and no tick moves the
   * model out of it, touches its counter or its engine reference.
   */
  lemma {:induction false} FailureIsTerminalUnderWrapper(w: Supervised, reqs: seq<Request>, chat: bool, baseline: int)
    requires w.model.status == Failure
    ensures ServeAll(w, reqs, chat, baseline).model.status == Failure
    ensures ServeAll(w, reqs, chat, baseline).model.restartAttempt == w.model.restartAttempt
    ensures ServeAll(w, reqs, chat, baseline).model.pipe == w.model.pipe
    decreases |reqs|
  {
    if reqs != [] {
      FailureIsTerminalUnderWrapper(Serve(w, reqs[0], chat, baseline), reqs[1..], chat, baseline);
    }
  }

  /** Only asking a question sets the start time; nothing else clears or moves it. */
  lemma {:induction false} StartTimeKeptWithoutQuestions(w: Supervised, reqs: seq<Request>, chat: bool, baseline: int)
    requires forall i :: 0 <= i < |reqs| ==> !reqs[i].Question?
    ensures ServeAll(w, reqs, chat, baseline).start == w.start
    decreases |reqs|
  {
    if reqs != [] {
      StartTimeKeptWithoutQuestions(Serve(w, reqs[0], chat, baseline), reqs[1..], chat, baseline);
    }
  }

  /**
   * The timeout check measures the time since the last question was asked, not
   * how long a question has been running: once more than the limit has passed
   * since then, a tick on a ready handle restarts it.
   */
  lemma TimeoutRestartsReadyHandle(s: ModelState, asked: int, now: int, chat: bool, baseline: int,
                                   rss: Outcome<nat>, init: Outcome<Engine>)
    requires Coherent(s) && s.status == Ready
    requires now - asked > DefaultMaxTimeout
    ensures TickStep(s, Some(asked), now, DefaultMaxTimeout, chat, baseline, rss, init).0 ==
            DownloadStep(ShutdownStep(s.(restartAttempt := 1), baseline, rss), chat, init)
  {
    assert TimeoutExpired(Some(asked), now, DefaultMaxTimeout);
    assert s.restartAttempt == 0 && s.pipe != None;
  }

  /**
   * The start time a tick looks at is the time the last question was asked,
   * whatever has been requested since, as long as it was not another question.
   */
  lemma LastQuestionSetsStartTime(w: Supervised, question: string, asked: int, reqs: seq<Request>, chat: bool, baseline: int)
    requires forall i :: 0 <= i < |reqs| ==> !reqs[i].Question?
    ensures ServeAll(w, [Question(question, asked)] + reqs, chat, baseline).start == Some(asked)
  {
    var asking := Serve(w, Question(question, asked), chat, baseline);
    assert ([Question(question, asked)] + reqs)[1..] == reqs;
    StartTimeKeptWithoutQuestions(asking, reqs, chat, baseline);
  }

  /**
   * However long ago the last question was answered, a tick more than the limit
   * after it was asked restarts a ready handle.
   */
  lemma StaleQuestionRestartsReadyHandle(w: Supervised, asked: int, now: int, chat: bool, baseline: int,
                                         rss: Outcome<nat>, init: Outcome<Engine>)
    requires w.start == Some(asked) && now - asked > DefaultMaxTimeout
    requires Coherent(w.model) && w.model.status == Ready
    ensures Serve(w, Tick(now, rss, init), chat, baseline).model ==
            DownloadStep(ShutdownStep(w.model.(restartAttempt := 1), baseline, rss), chat, init)
  {
    TimeoutRestartsReadyHandle(w.model, asked, now, chat, baseline, rss, init);
  }

  class LLMWrapper {
    var isLlmHealthy: bool
    const llm: LLMModel
    const maxTimeout: int
    /** Whether a monitoring task is running (`_continous_task` is not `None`). */
    var continuousTask: bool
    /** Health-check jobs this wrapper registered with the process-wide scheduler. */
    var scheduledHealthChecks: nat
    /** When the last question was handed to the model, if one ever was. */
    var promptingStartingTime: Option<int>

    ghost predicate Valid()
      reads this, llm
    {
      llm.Valid()
    }

    /**
     * Builds the model and deploys it once; `rss` is resident memory at that
     * moment and `init` what the pipeline factory did.
     */
    constructor (modeltyp: Json, model: Json, promptingConfig: map<string, Json>,
                 deploymentConfig: map<string, DeployValue>, usesChatTemplate: Option<Json>,
                 rss: nat, init: Outcome<Engine>)
      ensures Valid() && fresh(llm) && llm.deployments == 1
      ensures isLlmHealthy && maxTimeout == DefaultMaxTimeout
      ensures !continuousTask && scheduledHealthChecks == 0 && promptingStartingTime == None
      ensures llm.State() == DownloadStep(FreshState(), UsesChatTemplate(usesChatTemplate), init)
      ensures llm.modeltyp == modeltyp && llm.model == model
      ensures llm.promptingConfig == promptingConfig && llm.deploymentConfig == deploymentConfig
      ensures llm.usesChatTemplate == usesChatTemplate && llm.initMemoryUsage == rss
    {
      isLlmHealthy := true;
      llm := new LLMModel(modeltyp, model, promptingConfig, deploymentConfig, usesChatTemplate, rss);
      maxTimeout := DefaultMaxTimeout;
      continuousTask := false;
      scheduledHealthChecks := 0;
      promptingStartingTime := None;
      new;
      llm.DownloadModel(init);
    }

    /** One tick of the health monitor at time `now`. */
    method HealthCheck(now: int, rss: Outcome<nat>, init: Outcome<Engine>)
      requires Valid()
      modifies this, llm
      ensures Valid()
      ensures (llm.State(), isLlmHealthy) ==
              TickStep(old(llm.State()), promptingStartingTime, now, maxTimeout, llm.Chat(), llm.initMemoryUsage, rss, init)
      ensures promptingStartingTime == old(promptingStartingTime)
      ensures continuousTask == old(continuousTask) && scheduledHealthChecks == old(scheduledHealthChecks)
    {
      if promptingStartingTime != None {
        if now - promptingStartingTime.value > maxTimeout {
          RestartLlm(rss, init);
        }
      }
      if llm.status == Ready || llm.status == Idle || llm.status == NotReady {
        isLlmHealthy := true;
      } else {
        isLlmHealthy := false;
        RestartLlm(rss, init);
      }
    }

    /** Starts monitoring unless a monitoring task already exists. */
    method StartMonitoring()
      modifies this
      ensures continuousTask
      ensures scheduledHealthChecks == old(scheduledHealthChecks) + (if old(continuousTask) then 0 else 1)
      ensures isLlmHealthy == old(isLlmHealthy) && promptingStartingTime == old(promptingStartingTime)
    {
      if !continuousTask {
        scheduledHealthChecks := scheduledHealthChecks + 1;
        continuousTask := true;
      }
    }

    /** Stops the monitoring task if there is one; the registered jobs stay registered. */
    method StopMonitoring()
      modifies this
      ensures !continuousTask
      ensures scheduledHealthChecks == old(scheduledHealthChecks)
      ensures isLlmHealthy == old(isLlmHealthy) && promptingStartingTime == old(promptingStartingTime)
    {
      if !continuousTask {
        return;
      }
      continuousTask := false;
    }

    /** Records `now` as the start of prompting, then asks the model. */
    method GetAnswer(question: string, now: int) returns (reply: Reply)
      requires Valid()
      modifies this, llm
      ensures Valid()
      ensures promptingStartingTime == Some(now)
      ensures (llm.State(), reply) == AnswerStep(old(llm.State()), llm.Chat(), question)
      ensures isLlmHealthy == old(isLlmHealthy) && continuousTask == old(continuousTask)
      ensures scheduledHealthChecks == old(scheduledHealthChecks)
    {
      promptingStartingTime := Some(now);
      reply := llm.AnswerQuestion(question);
    }

    /** Forwards a shutdown to the model only when it is ready. */
    method ShutdownLlm(rss: Outcome<nat>)
      requires Valid()
      modifies llm
      ensures Valid()
      ensures llm.State() == ShutdownGate(old(llm.State()), llm.initMemoryUsage, rss)
    {
      // In failure, idle and "not ready" the request is only logged.
      if llm.status == Ready {
        llm.Shutdown(rss);
      }
    }

    /** Forwards a restart to the model only when it is ready. */
    method RestartLlm(rss: Outcome<nat>, init: Outcome<Engine>)
      requires Valid()
      modifies llm
      ensures Valid()
      ensures llm.State() == RestartGate(old(llm.State()), llm.Chat(), llm.initMemoryUsage, rss, init)
    {
      // In failure, idle and "not ready" the request is only logged.
      if llm.status == Ready {
        llm.Restart(rss, init);
      }
    }
  }
}
