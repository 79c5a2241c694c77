/** `chat_with_agent`: the free-chat delegate. It sends a system
    instruction, the whole chat history and the user's message to the
    language model and returns the reply, or an apology naming the error. */
module Agent {
  import opened External

  /** The fixed text of the system instruction around the current step. */
  const PromptIntro: string := "You are a friendly VM provisioning assistant.\n   Current deployment step: "
  const PromptModes: string :=
    "\n   MODES:\n"
    + "   1. NORMAL CHAT: For general conversation, be helpful and friendly\n"
    + "   2. DEPLOYMENT FLOW: When user wants to deploy VM, follow this exact step-by-step:\n"
    + "      - Step 1: Ask for VM name only\n"
    + "      - Step 2: Ask for CPU cores only  \n"
    + "      - Step 3: Ask for RAM in GB only\n"
    + "      - Step 4: Confirm and deploy\n"
    + "   Always respond naturally based on the current step. Don't ask for multiple things at once.\n"
    + "   "

  /** The system instruction, with the current step spliced in. */
  function SystemPrompt(currentStep: string): string
  {
    PromptIntro + currentStep + PromptModes
  }

  /** The apology shown when a language-model call raises. */
  function TroubleConnecting(reason: string): string
  {
    "Sorry, I'm having trouble connecting. Error: " + reason
  }

  /** The message list of `chat_with_agent`: the system instruction, then
      the history in order, then the user's message. */
  function AgentMessages(userInput: string, history: seq<Message>, currentStep: string): (m: seq<Message>)
    ensures |m| == |history| + 2
    ensures m[0] == Message(System, SystemPrompt(currentStep))
    ensures forall i :: 0 <= i < |history| ==> m[i + 1] == history[i]
    ensures m[|m| - 1] == Message(User, userInput)
  {
    [Message(System, SystemPrompt(currentStep))] + history + [Message(User, userInput)]
  }

  /** The reply text `chat_with_agent` returns, for a language model that
      answers the request as `ollama` says. */
  function ChatWithAgent(userInput: string, history: seq<Message>, currentStep: string,
                         model: string, ollama: ChatRequest -> Reply): string
  {
    match ollama(ChatRequest(model, AgentMessages(userInput, history, currentStep)))
    case Ok(content) => content
    case Fail(e) => TroubleConnecting(e)
  }

  /** The instruction tells the model which step the dialogue is in:
      different steps never give the same instruction. */
  lemma SystemPromptNamesStep(a: string, b: string)
    requires SystemPrompt(a) == SystemPrompt(b)
    ensures a == b
  {
    var n := |PromptIntro|;
    assert |a| == |b|;
    assert a == SystemPrompt(a)[n..n + |a|];
    assert b == SystemPrompt(b)[n..n + |b|];
  }
}
