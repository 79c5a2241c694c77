/** The guided-deployment dialogue: a chat session that, turn by turn,
    collects a VM's name, CPU count and RAM size, asks for confirmation and
    then deploys. `Turn` is the transition of one chat turn as a function of
    the session state, the user's message and what the external services
    answer; the `Session` class performs the same turn in place. */
module Dialogue {
  import opened Text
  import opened External
  import opened Deployment
  import Agent

  /** The values of `deployment_step`. */
  datatype Step = Normal | AskName | AskCpu | AskRam | Confirm

  function StepName(step: Step): string
  {
    match step
    case Normal => "normal"
    case AskName => "ask_name"
    case AskCpu => "ask_cpu"
    case AskRam => "ask_ram"
    case Confirm => "confirm"
  }

  /** The `vm_details` record; RAM is in GB. */
  datatype VmDetails = VmDetails(name: string, cpu: nat, ram: nat)

  /** `{"name": "", "cpu": 0, "ram": 0}` */
  const NoDetails := VmDetails("", 0, 0)

  const DeployKeywords: seq<string> := ["deploy", "create", "new vm", "provision"]
  const ConfirmKeywords: seq<string> := ["yes", "yep", "sure", "go ahead", "deploy", "confirm"]

  /** The model named for the confirmation and summary requests. */
  const PhrasingModel := "llama3.1:8b"

  // The assistant's fixed replies.
  const StartReply := "Great! Let's deploy a new VM. What would you like to name your virtual machine?"
  const CpuInvalidReply := "Please enter a valid number of CPU cores (e.g., 2, 4, 8):"
  const CpuUnreadableReply := "I didn't understand that. Please enter a number for CPU cores (e.g., 2, 4, 8):"
  const RamInvalidReply := "Please enter a valid amount of RAM in GB (e.g., 4, 8, 16):"
  const RamUnreadableReply := "I didn't understand that. Please enter a number for RAM in GB (e.g., 4, 8, 16):"
  const CancelReply := "Okay, deployment cancelled. How can I help you with something else?"

  function NameReply(name: string): string
  {
    "Perfect! VM name set to '" + name + "'. How many CPU cores would you like?"
  }

  function CpuReply(cpu: nat): string
  {
    "Got it! " + NatToString(cpu) + " CPU cores. How much RAM in GB would you like?"
  }

  function ConfirmPrompt(d: VmDetails): string
  {
    "User provided all VM details: Name: " + d.name + ", CPU: " + NatToString(d.cpu)
      + " cores, RAM: " + NatToString(d.ram) + " GB. Ask for confirmation to deploy in a friendly way."
  }

  function ResultPrompt(deployResult: string): string
  {
    "VM deployment completed. Result: " + deployResult + ". Provide a friendly summary to the user."
  }

  /** A one-message request to the phrasing model, as the confirmation and
      summary calls make. */
  function PhrasingRequest(prompt: string): ChatRequest
  {
    ChatRequest(PhrasingModel, [Message(User, prompt)])
  }

  /** Everything outside the session that a turn depends on: the configured
      chat model and how the language model and the REST API answer. */
  datatype Env = Env(ollamaModel: string, ollama: ChatRequest -> Reply, vcenter: Call -> Reply)

  /** `st.session_state`: the chat history, the step and the VM details. */
  datatype SessionState = SessionState(history: seq<Message>, step: Step, details: VmDetails)

  /** The state of a new session. */
  const Initial := SessionState([], Normal, NoDetails)

  /** The result of one turn: the new state, the REST calls made, and
      whether the turn ran to its end (`false` when the unguarded summary
      request raised). */
  datatype TurnOutcome = TurnOutcome(after: SessionState, calls: seq<Call>, completed: bool)

  function Said(content: string): Message { Message(Assistant, content) }

  /** A completed turn that made no REST call and ended with `reply`. */
  function Answered(s: SessionState, reply: string): TurnOutcome
  {
    TurnOutcome(s.(history := s.history + [Said(reply)]), [], true)
  }

  /** One chat turn of the handler, on the state `s` and the user's message:
      an empty message is ignored; otherwise the message joins the history
      and the step decides what happens next. */
  function Turn(s: SessionState, input: string, env: Env): TurnOutcome
  {
    if input == "" then TurnOutcome(s, [], true)
    else
      var t := s.(history := s.history + [Message(User, input)]);
      if t.step == Normal && MentionsAny(input, DeployKeywords) then StartTurn(t)
      else if t.step == AskName then NameTurn(t, input)
      else if t.step == AskCpu then CpuTurn(t, input)
      else if t.step == AskRam then RamTurn(t, input, env)
      else if t.step == Confirm then ConfirmTurn(t, input, env)
      else ChatTurn(t, input, env)
  }

  // The branches of a turn, each on the state whose history already ends
  // with the user's message.

  function StartTurn(t: SessionState): TurnOutcome
  {
    Answered(t.(step := AskName), StartReply)
  }

  function NameTurn(t: SessionState, input: string): TurnOutcome
  {
    Answered(t.(step := AskCpu, details := t.details.(name := input)), NameReply(input))
  }

  function CpuTurn(t: SessionState, input: string): TurnOutcome
  {
    match ParseCount(input)
    case None => Answered(t, CpuUnreadableReply)
    case Some(cpu) =>
      if cpu > 0 then Answered(t.(step := AskRam, details := t.details.(cpu := cpu)), CpuReply(cpu))
      else Answered(t, CpuInvalidReply)
  }

  /** The reply of the phrasing model to `prompt`, or the apology. */
  function Phrase(prompt: string, env: Env): string
  {
    match env.ollama(PhrasingRequest(prompt))
    case Ok(content) => content
    case Fail(e) => Agent.TroubleConnecting(e)
  }

  function RamTurn(t: SessionState, input: string, env: Env): TurnOutcome
  {
    match ParseCount(input)
    case None => Answered(t, RamUnreadableReply)
    case Some(ram) =>
      if ram > 0 then
        var d := t.details.(ram := ram);
        Answered(t.(step := Confirm, details := d), Phrase(ConfirmPrompt(d), env))
      else Answered(t, RamInvalidReply)
  }

  function ConfirmTurn(t: SessionState, input: string, env: Env): TurnOutcome
  {
    if MentionsAny(input, ConfirmKeywords) then
      var attempt := Deploy(t.details.name, t.details.cpu, t.details.ram, env.vcenter);
      match env.ollama(PhrasingRequest(ResultPrompt(attempt.message)))
      case Ok(content) =>
        TurnOutcome(SessionState(t.history + [Said(content)], Normal, NoDetails), attempt.calls, true)
      case Fail(_) => TurnOutcome(t, attempt.calls, false)
    else Answered(t.(step := Normal, details := NoDetails), CancelReply)
  }

  function ChatTurn(t: SessionState, input: string, env: Env): TurnOutcome
  {
    Answered(t, Agent.ChatWithAgent(input, t.history, StepName(t.step), env.ollamaModel, env.ollama))
  }

  /** The sidebar's cancel button, which is only shown outside `normal`. */
  function Cancel(s: SessionState): SessionState
  {
    if s.step != Normal then s.(step := Normal, details := NoDetails) else s
  }

  /** What the collected details look like at each step of the dialogue. */
  predicate Consistent(s: SessionState)
  {
    match s.step
    case Normal => s.details == NoDetails
    case AskName => s.details == NoDetails
    case AskCpu => s.details.name != "" && s.details.cpu == 0 && s.details.ram == 0
    case AskRam => s.details.name != "" && s.details.cpu > 0 && s.details.ram == 0
    case Confirm => s.details.name != "" && s.details.cpu > 0 && s.details.ram > 0
  }

  /** What can happen to a session: a chat message, or a press of cancel. */
  datatype Event = Say(input: string, env: Env) | CancelPressed

  function Apply(s: SessionState, e: Event): SessionState
  {
    match e
    case Say(input, env) => Turn(s, input, env).after
    case CancelPressed => Cancel(s)
  }

  /** The state after a sequence of events. */
  function Run(s: SessionState, events: seq<Event>): SessionState
    decreases |events|
  {
    if events == [] then s else Run(Apply(s, events[0]), events[1..])
  }

  /** One browser session: `st.session_state` with its three entries,
      changed in place by each chat turn and by the cancel button. */
  class Session {
    var history: seq<Message>
    var step: Step
    var details: VmDetails

    function Snapshot(): SessionState
      reads this
    {
      SessionState(history, step, details)
    }

    /** The session-state initialisation of a fresh session. */
    constructor ()
      ensures Snapshot() == Initial
    {
      history := [];
      step := Normal;
      details := NoDetails;
    }

    /** Handle one message from the chat input; returns the REST calls made
        and whether the turn ran to its end. */
    method HandleTurn(input: string, env: Env) returns (calls: seq<Call>, completed: bool)
      modifies this
      ensures TurnOutcome(Snapshot(), calls, completed) == Turn(old(Snapshot()), input, env)
      ensures old(Consistent(Snapshot())) ==> Consistent(Snapshot())
    {
      ghost var before := Snapshot();
      calls, completed := [], true;
      if input != "" {
        history := history + [Message(User, input)];
        if step == Normal && MentionsAny(input, DeployKeywords) {
          StartDeployment();
        } else if step == AskName {
          StoreName(input);
        } else if step == AskCpu {
          StoreCpu(input);
        } else if step == AskRam {
          StoreRam(input, env);
        } else if step == Confirm {
          calls, completed := ConfirmOrDecline(input, env);
        } else {
          Converse(input, env);
        }
      }
      if Consistent(before) {
        ConsistentAfterTurn(before, input, env);
      }
    }

    method Reply(content: string)
      modifies this
      ensures Snapshot() == old(Snapshot()).(history := old(history) + [Said(content)])
    {
      history := history + [Said(content)];
    }

    method StartDeployment()
      modifies this
      ensures TurnOutcome(Snapshot(), [], true) == StartTurn(old(Snapshot()))
    {
      step := AskName;
      Reply(StartReply);
    }

    method StoreName(input: string)
      modifies this
      ensures TurnOutcome(Snapshot(), [], true) == NameTurn(old(Snapshot()), input)
    {
      details := details.(name := input);
      step := AskCpu;
      Reply(NameReply(input));
    }

    method StoreCpu(input: string)
      modifies this
      ensures TurnOutcome(Snapshot(), [], true) == CpuTurn(old(Snapshot()), input)
    {
      var cpu := ParseCount(input);
      if cpu.None? {
        Reply(CpuUnreadableReply);
      } else if cpu.value > 0 {
        details := details.(cpu := cpu.value);
        step := AskRam;
        Reply(CpuReply(cpu.value));
      } else {
        Reply(CpuInvalidReply);
      }
    }

    method StoreRam(input: string, env: Env)
      modifies this
      ensures TurnOutcome(Snapshot(), [], true) == RamTurn(old(Snapshot()), input, env)
    {
      var ram := ParseCount(input);
      if ram.None? {
        Reply(RamUnreadableReply);
      } else if ram.value > 0 {
        details := details.(ram := ram.value);
        step := Confirm;
        var answer := env.ollama(PhrasingRequest(ConfirmPrompt(details)));
        if answer.Ok? {
          Reply(answer.value);
        } else {
          Reply(Agent.TroubleConnecting(answer.reason));
        }
      } else {
        Reply(RamInvalidReply);
      }
    }

    method ConfirmOrDecline(input: string, env: Env) returns (calls: seq<Call>, completed: bool)
      modifies this
      ensures TurnOutcome(Snapshot(), calls, completed) == ConfirmTurn(old(Snapshot()), input, env)
    {
      if MentionsAny(input, ConfirmKeywords) {
        var success, deployResult;
        success, deployResult, calls := DeployVmAgent(details.name, details.cpu, details.ram, env.vcenter);
        var summary := env.ollama(PhrasingRequest(ResultPrompt(deployResult)));
        if summary.Fail? {
          // the summary request is not guarded: the turn stops here
          return calls, false;
        }
        Reply(summary.value);
        step := Normal;
        details := NoDetails;
      } else {
        step := Normal;
        details := NoDetails;
        Reply(CancelReply);
        calls := [];
      }
      return calls, true;
    }

    method Converse(input: string, env: Env)
      modifies this
      ensures TurnOutcome(Snapshot(), [], true) == ChatTurn(old(Snapshot()), input, env)
    {
      var answer := Agent.ChatWithAgent(input, history, StepName(step), env.ollamaModel, env.ollama);
      Reply(answer);
    }

    /** The sidebar's "Cancel Deployment" button. */
    method PressCancel()
      modifies this
      ensures Snapshot() == Cancel(old(Snapshot()))
      ensures old(Consistent(Snapshot())) ==> Consistent(Snapshot())
    {
      if step != Normal {
        step := Normal;
        details := NoDetails;
      }
    }
  }

  // -----------------------------------------------------------------------
  // Properties of one turn
  // -----------------------------------------------------------------------

  /** Every turn keeps the details consistent with the step. */
  lemma ConsistentAfterTurn(s: SessionState, input: string, env: Env)
    requires Consistent(s)
    ensures Consistent(Turn(s, input, env).after)
  {
  }
}
