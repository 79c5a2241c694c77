/** What the guided-deployment dialogue promises, stated over `Turn`,
    `Cancel` and `Run`. */
module DialogueProperties {
  import opened Text
  import opened External
  import opened Deployment
  import opened Dialogue
  import Agent

  // -----------------------------------------------------------------------
  // One turn, step by step
  // -----------------------------------------------------------------------

  /** An empty chat input is ignored altogether. */
  lemma EmptyInputIgnored(s: SessionState, env: Env)
    ensures Turn(s, "", env) == TurnOutcome(s, [], true)
  {
  }

  /** From `normal`, a message mentioning a deploy keyword starts the
      dialogue, and any other message goes to the chat delegate; the details
      are untouched either way. */
  lemma StartFromNormal(s: SessionState, input: string, env: Env)
    requires s.step == Normal && input != ""
    ensures Turn(s, input, env).after.step == AskName <==> MentionsAny(input, DeployKeywords)
    ensures !MentionsAny(input, DeployKeywords) ==> Turn(s, input, env).after.step == Normal
    ensures Turn(s, input, env).after.details == s.details
    ensures Turn(s, input, env).calls == [] && Turn(s, input, env).completed
    ensures MentionsAny(input, DeployKeywords) ==>
      Turn(s, input, env).after.history == s.history + [Message(User, input), Said(StartReply)]
  {
  }

  /** In `ask_name` the whole message becomes the name, which is therefore
      never empty; CPU and RAM stay as they were. */
  lemma NameStored(s: SessionState, input: string, env: Env)
    requires s.step == AskName && input != ""
    ensures Turn(s, input, env).after.step == AskCpu
    ensures Turn(s, input, env).after.details == VmDetails(input, s.details.cpu, s.details.ram)
    ensures Turn(s, input, env).after.details.name != ""
    ensures Turn(s, input, env).calls == [] && Turn(s, input, env).completed
  {
  }

  /** In `ask_cpu` the step advances exactly when the digits of the message
      spell a positive number, which becomes the CPU count; otherwise the
      step and the details stay and a guidance message is added. */
  lemma CpuParsed(s: SessionState, input: string, env: Env)
    requires s.step == AskCpu && input != ""
    ensures Turn(s, input, env).after.step == AskRam
      <==> !NoDigits(input) && ParseCount(input).value > 0
    ensures Turn(s, input, env).after.step == AskRam ==>
      Turn(s, input, env).after.details == s.details.(cpu := ParseCount(input).value)
    ensures Turn(s, input, env).after.step != AskRam ==>
      Turn(s, input, env).after == s.(history := s.history + [Message(User, input),
        Said(if NoDigits(input) then CpuUnreadableReply else CpuInvalidReply)])
    ensures Turn(s, input, env).calls == [] && Turn(s, input, env).completed
  {
  }

  /** In `ask_ram` the same rule sets the RAM and moves to `confirm`, whatever
      the confirmation request to the language model answers. */
  lemma RamParsed(s: SessionState, input: string, env: Env)
    requires s.step == AskRam && input != ""
    ensures Turn(s, input, env).after.step == Confirm
      <==> !NoDigits(input) && ParseCount(input).value > 0
    ensures Turn(s, input, env).after.step == Confirm ==>
      Turn(s, input, env).after.details == s.details.(ram := ParseCount(input).value)
    ensures Turn(s, input, env).after.step != Confirm ==>
      Turn(s, input, env).after == s.(history := s.history + [Message(User, input),
        Said(if NoDigits(input) then RamUnreadableReply else RamInvalidReply)])
    ensures Turn(s, input, env).calls == [] && Turn(s, input, env).completed
  {
  }

  /** In `confirm`, a message without a confirmation keyword cancels:
      whatever was collected is dropped and the dialogue returns to `normal`. */
  lemma DeclineResets(s: SessionState, input: string, env: Env)
    requires s.step == Confirm && input != "" && !MentionsAny(input, ConfirmKeywords)
    ensures Turn(s, input, env)
      == TurnOutcome(SessionState(s.history + [Message(User, input), Said(CancelReply)], Normal, NoDetails), [], true)
  {
  }

  /** In `confirm`, a confirmation deploys exactly the collected details.
      The state is reset only if the summary request then answers; if it
      raises, the turn stops with the step still `confirm`. */
  lemma ConfirmDeploys(s: SessionState, input: string, env: Env)
    requires s.step == Confirm && input != "" && MentionsAny(input, ConfirmKeywords)
    ensures Turn(s, input, env).calls
      == Deploy(s.details.name, s.details.cpu, s.details.ram, env.vcenter).calls
    ensures Turn(s, input, env).completed
      <==> env.ollama(PhrasingRequest(ResultPrompt(
             Deploy(s.details.name, s.details.cpu, s.details.ram, env.vcenter).message))).Ok?
    ensures Turn(s, input, env).completed ==>
      Turn(s, input, env).after.step == Normal && Turn(s, input, env).after.details == NoDetails
    ensures !Turn(s, input, env).completed ==>
      Turn(s, input, env).after == s.(history := s.history + [Message(User, input)])
  {
  }

  /** A deployment is only ever attempted with a complete specification:
      a non-empty name, at least one CPU and at least 1 GB (1024 MiB). */
  lemma DeploymentUsesCompleteSpec(s: SessionState, input: string, env: Env)
    requires Consistent(s) && s.step == Confirm && input != "" && MentionsAny(input, ConfirmKeywords)
    ensures |Turn(s, input, env).calls| > 1 ==> Turn(s, input, env).calls[1].vmName != ""
    ensures |Turn(s, input, env).calls| > 2 ==> Turn(s, input, env).calls[2].count > 0
    ensures |Turn(s, input, env).calls| > 3 ==> Turn(s, input, env).calls[3].sizeMiB >= MiBPerGB
  {
    ConfirmDeploys(s, input, env);
  }

  /** Every handled turn adds the user's message and then exactly one
      assistant message; a turn cut short by the summary request adds only
      the user's message. Earlier history is never changed. */
  lemma HistoryGrowth(s: SessionState, input: string, env: Env)
    requires input != ""
    ensures |Turn(s, input, env).after.history|
      == |s.history| + (if Turn(s, input, env).completed then 2 else 1)
    ensures Turn(s, input, env).after.history[..|s.history| + 1] == s.history + [Message(User, input)]
    ensures Turn(s, input, env).completed ==>
      Turn(s, input, env).after.history[|s.history| + 1].role == Assistant
  {
    var t := s.(history := s.history + [Message(User, input)]);
    var o := Turn(s, input, env);
    if s.step == Normal && MentionsAny(input, DeployKeywords) {
      assert o == StartTurn(t);
    } else if s.step == AskName {
      assert o == NameTurn(t, input);
    } else if s.step == AskCpu {
      assert o == CpuTurn(t, input);
    } else if s.step == AskRam {
      assert o == RamTurn(t, input, env);
    } else if s.step == Confirm {
      assert o == ConfirmTurn(t, input, env);
    } else {
      assert o == ChatTurn(t, input, env);
    }
  }

  /** A free-chat turn sends the system instruction for step `normal`, the
      history and the message; since the history already ends with the
      message, the language model sees it twice, as the last two entries. */
  lemma ChatSendsInputTwice(s: SessionState, input: string, env: Env)
    requires s.step == Normal && input != "" && !MentionsAny(input, DeployKeywords)
    ensures var m := Agent.AgentMessages(input, s.history + [Message(User, input)], StepName(s.step));
      |m| == |s.history| + 3 && m[|m| - 2] == m[|m| - 1] == Message(User, input)
    ensures Turn(s, input, env).after.history
      == s.history + [Message(User, input),
                      Said(Agent.ChatWithAgent(input, s.history + [Message(User, input)], "normal",
                                               env.ollamaModel, env.ollama))]
  {
  }

  /** The free-chat reply is the language model's answer to that request,
      or, when the call raises, the apology naming the error. */
  lemma ChatReplyOrApology(s: SessionState, input: string, env: Env)
    requires s.step == Normal && input != "" && !MentionsAny(input, DeployKeywords)
    ensures var req := ChatRequest(env.ollamaModel,
                                   Agent.AgentMessages(input, s.history + [Message(User, input)], "normal"));
      Turn(s, input, env).after.history[|s.history| + 1]
        == Said(match env.ollama(req)
                case Ok(content) => content
                case Fail(e) => Agent.TroubleConnecting(e))
    ensures Turn(s, input, env).after.step == Normal && Turn(s, input, env).completed
  {
    ChatSendsInputTwice(s, input, env);
  }

  /** Once the RAM is accepted, the confirmation question is the phrasing
      model's answer to the prompt listing all three details, or, when that
      call raises, the apology; the step is `confirm` either way. */
  lemma ConfirmationQuestionOrApology(s: SessionState, input: string, env: Env)
    requires s.step == AskRam && input != "" && !NoDigits(input) && ParseCount(input).value > 0
    ensures var d := s.details.(ram := ParseCount(input).value);
      Turn(s, input, env).after.history
        == s.history + [Message(User, input),
                        Said(match env.ollama(PhrasingRequest(ConfirmPrompt(d)))
                             case Ok(content) => content
                             case Fail(e) => Agent.TroubleConnecting(e))]
    ensures Turn(s, input, env).after.step == Confirm && Turn(s, input, env).completed
  {
    RamParsed(s, input, env);
  }

  /** The REST API is only ever called by a confirmation in `confirm`, and
      such a confirmation always calls it (at least for the token). */
  lemma OnlyConfirmationCallsTheServer(s: SessionState, input: string, env: Env)
    ensures Turn(s, input, env).calls != []
      <==> input != "" && s.step == Confirm && MentionsAny(input, ConfirmKeywords)
  {
    if input != "" && s.step == Confirm && MentionsAny(input, ConfirmKeywords) {
      ConfirmDeploys(s, input, env);
    }
  }

  // -----------------------------------------------------------------------
  // Cancelling
  // -----------------------------------------------------------------------

  /** The cancel button drops the collected details and returns to
      `normal`, keeping the history; it is the same reset as declining. */
  lemma CancelResets(s: SessionState)
    requires s.step != Normal
    ensures Cancel(s) == SessionState(s.history, Normal, NoDetails)
    ensures Consistent(Cancel(s))
  {
  }

  /** Pressing cancel twice is the same as pressing it once. */
  lemma CancelIdempotent(s: SessionState)
    ensures Cancel(Cancel(s)) == Cancel(s)
  {
  }

  // -----------------------------------------------------------------------
  // Whole sessions
  // -----------------------------------------------------------------------

  /** Every state a session can reach from its initial state, through any
      messages, any service answers and any presses of cancel, is
      consistent: `normal` and `ask_name` hold no details, `ask_ram` has a
      CPU count, and `confirm` has a name, a CPU count and a RAM size. */
  lemma {:induction false} ReachableIsConsistent(s: SessionState, events: seq<Event>)
    requires Consistent(s)
    ensures Consistent(Run(s, events))
    decreases |events|
  {
    if events != [] {
      match events[0] {
        case Say(input, env) => ConsistentAfterTurn(s, input, env);
        case CancelPressed =>
      }
      ReachableIsConsistent(Apply(s, events[0]), events[1..]);
    }
  }

  /** Running two sequences of events one after the other is running their
      concatenation: a session's state depends only on the events so far. */
  lemma {:induction false} RunAppend(s: SessionState, first: seq<Event>, second: seq<Event>)
    ensures Run(s, first + second) == Run(Run(s, first), second)
    decreases |first|
  {
    if first == [] {
      assert first + second == second;
    } else {
      assert (first + second)[1..] == first[1..] + second;
      RunAppend(Apply(s, first[0]), first[1..], second);
    }
  }

  lemma InitialIsConsistent()
    ensures Consistent(Initial)
  {
  }

  /** A message containing the word "deploy" both starts a deployment in
      `normal` and confirms one in `confirm`. */
  lemma DeployWordMentioned(before: string, after: string)
    ensures MentionsAny(before + "deploy" + after, DeployKeywords)
    ensures MentionsAny(before + "deploy" + after, ConfirmKeywords)
  {
    assert Lower("deploy") == "deploy";
    assert OccursAt(Lower("deploy"), DeployKeywords[0], 0);
    assert OccursAt(Lower("deploy"), ConfirmKeywords[4], 0);
    MentionsAnyInContext(before, "deploy", after, DeployKeywords);
    MentionsAnyInContext(before, "deploy", after, ConfirmKeywords);
  }

  /** The guided dialogue of a typical session: "please deploy a new vm",
      "web01", "I'll take 4", "give me 8gb" collects name web01, 4 CPUs and
      8 GB and waits for confirmation, whatever the services answer. */
  lemma ScenarioCollectsSpec(env: Env, request: string, name: string, cpuText: string, ramText: string)
    requires request == "please deploy a new vm" && name == "web01"
    requires cpuText == "I'll take 4" && ramText == "give me 8gb"
    ensures Run(Initial, [Say(request, env), Say(name, env), Say(cpuText, env), Say(ramText, env)]).step
      == Confirm
    ensures Run(Initial, [Say(request, env), Say(name, env), Say(cpuText, env), Say(ramText, env)]).details
      == VmDetails("web01", 4, 8)
  {
    var events := [Say(request, env), Say(name, env), Say(cpuText, env), Say(ramText, env)];
    var s1 := Turn(Initial, request, env).after;
    ScenarioRequest(env, request);
    var s2 := Turn(s1, name, env).after;
    NameStored(s1, name, env);
    var s3 := Turn(s2, cpuText, env).after;
    ScenarioCpu(env, s2, cpuText);
    var s4 := Turn(s3, ramText, env).after;
    ScenarioRam(env, s3, ramText);
    assert Run(Initial, events) == Run(s1, events[1..]);
    assert Run(s1, events[1..]) == Run(s2, events[2..]);
    assert Run(s2, events[2..]) == Run(s3, events[3..]);
    assert Run(s3, events[3..]) == Run(s4, []);
  }

  lemma ScenarioRequest(env: Env, request: string)
    requires request == "please deploy a new vm"
    ensures Turn(Initial, request, env).after.step == AskName
    ensures Turn(Initial, request, env).after.details == NoDetails
  {
    DeployWordMentioned("please ", " a new vm");
    assert request == "please " + "deploy" + " a new vm";
    StartFromNormal(Initial, request, env);
  }

  lemma ScenarioCpu(env: Env, s: SessionState, cpuText: string)
    requires s.step == AskCpu && cpuText == "I'll take 4"
    ensures Turn(s, cpuText, env).after.step == AskRam
    ensures Turn(s, cpuText, env).after.details == s.details.(cpu := 4)
  {
    ParseCountOfEmbedded("I'll take ", 4, "");
    assert cpuText == "I'll take " + NatToString(4) + "";
    CpuParsed(s, cpuText, env);
  }

  lemma ScenarioRam(env: Env, s: SessionState, ramText: string)
    requires s.step == AskRam && ramText == "give me 8gb"
    ensures Turn(s, ramText, env).after.step == Confirm
    ensures Turn(s, ramText, env).after.details == s.details.(ram := 8)
  {
    ParseCountOfEmbedded("give me ", 8, "gb");
    assert ramText == "give me " + NatToString(8) + "gb";
    RamParsed(s, ramText, env);
  }

  /** Digits are never picked apart: "I want like 10 or 12" asks for 1012 CPUs. */
  lemma DigitsAreConcatenated(s: SessionState, input: string, env: Env)
    requires s.step == AskCpu && input == "I want like 10 or 12"
    ensures Turn(s, input, env).after.step == AskRam
    ensures Turn(s, input, env).after.details.cpu == 1012
  {
    assert NatToString(10) == "10" && NatToString(12) == "12";
    ParseCountJoinsNumbers("I want like ", 10, " or ", 12);
    assert input == "I want like " + NatToString(10) + " or " + NatToString(12);
    assert Pow10(2) == 100;
    CpuParsed(s, input, env);
  }

  /** A message with no digits in `ask_cpu` changes nothing but the history. */
  lemma TextWithoutDigitsIsRejected(s: SessionState, env: Env)
    requires s.step == AskCpu
    ensures Turn(s, "abc", env).after.step == AskCpu
    ensures Turn(s, "abc", env).after.details == s.details
  {
    assert NoDigits("abc");
  }

  /** Confirmation is a substring test, so a refusal that names a keyword
      still deploys: "no, don't deploy" confirms. */
  lemma RefusalNamingAKeywordConfirms(s: SessionState, before: string, after: string, env: Env)
    requires s.step == Confirm
    ensures Turn(s, before + "deploy" + after, env).calls
      == Deploy(s.details.name, s.details.cpu, s.details.ram, env.vcenter).calls
  {
    DeployWordMentioned(before, after);
    ConfirmDeploys(s, before + "deploy" + after, env);
  }

  /** When cloning fails, no patch or power-on request is made, the error is
      reported, and (once the summary is phrased) the session is reset. */
  lemma CloneFailureStopsDeployment(s: SessionState, input: string, env: Env)
    requires s.step == Confirm && input != "" && MentionsAny(input, ConfirmKeywords)
    requires env.vcenter(Authenticate).Ok?
    requires env.vcenter(Clone(s.details.name, env.vcenter(Authenticate).value)).Fail?
    ensures Turn(s, input, env).calls == [Authenticate, Clone(s.details.name, env.vcenter(Authenticate).value)]
    ensures !Deploy(s.details.name, s.details.cpu, s.details.ram, env.vcenter).success
    ensures Turn(s, input, env).completed ==>
      Turn(s, input, env).after.step == Normal && Turn(s, input, env).after.details == NoDetails
  {
    var a := Deploy(s.details.name, s.details.cpu, s.details.ram, env.vcenter);
    assert |a.calls| >= 2 ==> |a.calls| == 2;
  }
}
