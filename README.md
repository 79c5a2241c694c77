# VM deployment chatbot: the guided-deployment dialogue

This project models the core of a chat front-end that provisions virtual machines on a vCenter server. The user chats in a browser session. Saying something like "deploy a VM" starts a guided dialogue. The dialogue asks for a name, a CPU count and a RAM size in GB, then asks for confirmation. A confirmation makes five REST calls in a row: get a session token, clone a template VM, set its CPU count, set its memory, power it on. Free-form messages and two phrasing moments go to a language model served by Ollama.

The model has five modules:

- `Text` (`text.dfy`): the helpers the turn handler uses on the user's message. They are ASCII lower-casing, Python's `in` on strings, the keyword checks, the digit filter `''.join(filter(str.isdigit, s))`, `int()` of the filtered digits, and `str()` of an integer in f-strings. Lemmas show that a number written among digit-free words parses back exactly. They also show that keyword detection ignores case and surrounding text, and that all digits are concatenated.
- `External` (`external.dfy`): what the two services exchange. A `Reply` is either a payload or an exception's text. A chat message has a role and content. A chat request has a model name and a message list.
- `Deployment` (`deployment.dfy`): `deploy_vm_agent`. The method `DeployVmAgent` keeps the source's try-chain and records every REST call it issues. It is proved equal to the function `Deploy`, whose contract fixes four things: the call order, that the chain stops at the first failure, the exact arguments of each call (`cores_per_socket` 2, memory `ram_gb * 1024` MiB), and the returned message.
- `Agent` (`agent.dfy`): `chat_with_agent`. It sends the system instruction, the whole history and the user's message.
- `Dialogue` (`dialogue.dfy`) and `DialogueProperties` (`dialogue_properties.dfy`): the five-step dialogue (`normal`, `ask_name`, `ask_cpu`, `ask_ram`, `confirm`).
  - `Turn` is the transition of one chat turn. `Cancel` is the sidebar's cancel button. `Run` applies a sequence of messages and cancel presses.
  - The class `Session` holds `chat_history`, `deployment_step` and `vm_details` as fields. It changes them in place, branch by branch, as the handler does. Each method is proved to produce exactly the state `Turn` or `Cancel` gives.
  - `Consistent` is the reachable-state invariant: `normal` and `ask_name` hold no details, `ask_cpu` has a name, `ask_ram` also has a CPU count, and `confirm` has all three.

External services are inputs. An `Env` carries the configured chat model (`OLLAMA_MODEL`) and two oracle functions. One gives the language model's answer to each chat request. The other gives the vCenter server's answer to each REST call. Each answer is content or an exception. A turn issues each distinct request at most once, so any behaviour of the services during one turn is some `Env`. A new turn may use a different one.

## Model

| member | source | states |
|---|---|---|
| `Text.Lower` | app.py:135 | `lower()` on ASCII: same length, every letter lowered, no upper-case letter left, every other character unchanged |
| `Text.Contains` | app.py:135 | Python's `sub in s`: `sub` occurs at some position of `s`; a predicate with no contract, whose meaning is used through `ContainsInContext` and `DeployWordMentioned` |
| `Text.MentionsAny` | app.py:135 | `any(keyword in text.lower() ...)`, the test of both keyword lists (also app.py:197); a predicate with no contract, characterised by `MentionsAnyInContext`, `MentionsAnyIgnoresCase` and `DeployWordMentioned` |
| `Text.LowerAppend` | app.py:135 | lower-casing distributes over concatenation |
| `Text.ContainsInContext` | app.py:135 | a substring stays a substring whatever text is put around it |
| `Text.MentionsAnyInContext` | app.py:135 | once a message mentions a keyword, any message containing that message mentions it too (detection ignores the rest of the input) |
| `Text.MentionsAnyIgnoresCase` | app.py:197 | two messages that differ only in the case of letters mention the same keywords |
| `Text.Digits` | app.py:151 | the filtered string holds only digits, is never longer than the input, and is as long exactly when the input is all digits |
| `Text.DigitsAppend` | app.py:151 | the digit filter distributes over concatenation |
| `Text.DigitsOfDigits` | app.py:151 | a digit string passes the filter unchanged |
| `Text.DigitsOfText` | app.py:151 | digit-free text is filtered to nothing |
| `Text.DecimalValue` | app.py:151 | `int()` of k digits is below 10^k |
| `Text.ParseCount` | app.py:151 | the conversion fails (the `int('')` error) exactly when the message has no digit |
| `Text.NatToString` | app.py:155 | the decimal text of n is a non-empty digit string with no leading zero unless n is 0 |
| `Text.DecimalValueOfNatToString` | app.py:155 | reading back the decimal text of n gives n |
| `Text.DecimalValueAppend` | app.py:169 | the value of two digit strings joined is the first shifted by the second's length plus the second |
| `Text.ParseCountOfEmbedded` | app.py:151 | a number written among digit-free words ("I'll take 4", "give me 8gb") is read back exactly |
| `Text.ParseCountJoinsNumbers` | app.py:169 | two numbers in one message are read as their concatenation ("10 or 12" gives 1012) |
| `Deployment.Deploy` | app.py:71-84 | calls come in the order token, clone, CPU, memory, power on; a call is issued only after all earlier ones succeeded; success iff all five succeed; on failure the last call is the failing one and the message is "Deployment failed: " with its error; the clone is named as asked, CPU is patched to `cpu` with 2 cores per socket, memory to `ram_gb * 1024` MiB, all on the cloned VM's id with the one token |
| `Deployment.DeployVmAgent` | app.py:71-84 | the try-chain returns exactly the success flag, message and call trace of `Deploy` |
| `Deployment.FailureStopsTheChain` | app.py:73-84 | a failure at step k means exactly k+1 calls were made and the result is a failure |
| `Deployment.SuccessMessage` | app.py:82 | the success text naming the VM, its CPU count and its RAM in GB; no contract of its own, fixed as the success message by `Deploy`'s contract |
| `Deployment.FailureMessage` | app.py:83-84 | "Deployment failed: " followed by the exception's text; no contract of its own, fixed as the failure message by `Deploy`'s contract |
| `Deployment.OutcomeReadableFromMessage` | app.py:82-84 | the returned message alone tells a success from a failure, so the summary prompt (which sees only the message) can report the outcome |
| `Agent.AgentMessages` | app.py:101-105 | the message list is the system instruction, then the history in order, then the user message: two more than the history |
| `Agent.SystemPrompt` | app.py:90-100 | the system instruction with the current step spliced in; its meaning is given by `SystemPromptNamesStep` and by `AgentMessages`, which puts it first |
| `Agent.SystemPromptNamesStep` | app.py:90-91 | two steps that give the same instruction are the same step: the instruction tells the model which step the dialogue is in |
| `Agent.ChatWithAgent` | app.py:88-110 | the model's reply to the request built from `AgentMessages`, or the "trouble connecting" apology naming the error; no contract of its own, stated at the turn level by `ChatReplyOrApology` and `ChatSendsInputTwice` |
| `Dialogue.Session.constructor` | app.py:116-121 | a new session has an empty history, step `normal` and empty details |
| `Dialogue.Turn` | app.py:130-229 | one chat turn as a function of the state, the message and the services' answers; no contract of its own, its meaning is given by the per-branch lemmas in `DialogueProperties`, by `ConsistentAfterTurn`, and by `Session.HandleTurn`, which is proved to perform it in place |
| `Dialogue.Phrase` | app.py:174-186 | the phrasing model's answer to a one-message prompt, or the apology naming the error; no contract of its own, stated at the turn level by `ConfirmationQuestionOrApology` |
| `Dialogue.Cancel` | app.py:239-241 | the cancel button's reset of step and details; no contract of its own, its meaning is given by `CancelResets`, `CancelIdempotent` and `Session.PressCancel` |
| `Dialogue.Consistent` | app.py:130-241 | the reachable-state invariant (`normal`/`ask_name` hold no details, `ask_cpu` a name, `ask_ram` a name and CPU, `confirm` all three); a predicate, shown invariant by `ConsistentAfterTurn` and `ReachableIsConsistent` |
| `Dialogue.Apply` | app.py:129-241 | one event of a session, a chat message or a cancel press; no contract of its own, used by `ReachableIsConsistent` and `RunAppend` |
| `Dialogue.Run` | app.py:129-241 | the state after a sequence of events; no contract of its own, its meaning is given by `RunAppend`, `ReachableIsConsistent` and `ScenarioCollectsSpec` |
| `Dialogue.Session.HandleTurn` | app.py:130-229 | the session's new state, calls and completion are those of `Turn`, and a consistent session stays consistent |
| `Dialogue.Session.StartDeployment` | app.py:135-139 | step becomes `ask_name` and the start prompt is appended; details untouched |
| `Dialogue.Session.StoreName` | app.py:141-147 | the message is stored as name, step becomes `ask_cpu`, the name acknowledgement is appended |
| `Dialogue.Session.StoreCpu` | app.py:148-165 | positive parsed count stored with step `ask_ram`; otherwise one of the two guidance messages, nothing else changes |
| `Dialogue.Session.StoreRam` | app.py:166-194 | positive parsed size stored with step `confirm` and the phrased confirmation (or apology) appended; otherwise guidance |
| `Dialogue.Session.ConfirmOrDecline` | app.py:195-223 | confirmation deploys the stored details and resets only after the summary answers; anything else resets and says cancelled |
| `Dialogue.Session.Converse` | app.py:224-229 | the delegate's reply to history-plus-message is appended |
| `Dialogue.Session.PressCancel` | app.py:233-241 | outside `normal`, the step becomes `normal` and the details empty, history kept; consistency preserved |
| `Dialogue.ConsistentAfterTurn` | app.py:130-229 | every turn, on every input and every service answer, keeps the step and the details consistent |
| `DialogueProperties.EmptyInputIgnored` | app.py:130 | an empty message changes nothing and calls nothing |
| `DialogueProperties.StartFromNormal` | app.py:135-139 | in `normal`, the step becomes `ask_name` iff the message mentions a deploy keyword, otherwise stays `normal`; details untouched; no REST call |
| `DialogueProperties.NameStored` | app.py:141-147 | in `ask_name`, the whole message becomes the (never empty) name, CPU and RAM unchanged, step `ask_cpu` |
| `DialogueProperties.CpuParsed` | app.py:148-165 | in `ask_cpu`, the step becomes `ask_ram` iff the digits spell a positive number, which is stored; otherwise state unchanged but for user message plus the "didn't understand" (no digits) or "valid number" (zero) guidance |
| `DialogueProperties.RamParsed` | app.py:166-194 | same rule for `ask_ram`, moving to `confirm` whatever the confirmation request answers |
| `DialogueProperties.DeclineResets` | app.py:217-223 | in `confirm`, a message with no confirm keyword resets step and details whatever they held, and appends the cancellation notice |
| `DialogueProperties.ConfirmDeploys` | app.py:195-216 | in `confirm`, a confirmation makes exactly the calls of `Deploy` on the stored name, CPU and RAM; the turn completes iff the summary request answers, and only then resets; otherwise only the user message was added |
| `DialogueProperties.DeploymentUsesCompleteSpec` | app.py:195-204 | in a consistent session, a deployment clones a non-empty name, patches at least one CPU and at least 1024 MiB |
| `DialogueProperties.HistoryGrowth` | app.py:132-229 | a handled turn appends the user message, then exactly one assistant message unless the summary request raised; earlier history never changes |
| `DialogueProperties.ChatSendsInputTwice` | app.py:224-229 | a free-chat turn asks the model with step "normal" and a list of history+3 messages whose last two are both the user message, and appends its reply |
| `DialogueProperties.ChatReplyOrApology` | app.py:106-110 | the free-chat reply appended is the model's answer to the request `chat_with_agent` builds, or, when the call raises, "Sorry, I'm having trouble connecting. Error: " with the error; the step stays `normal` and the turn completes (the call at app.py:227) |
| `DialogueProperties.ConfirmationQuestionOrApology` | app.py:170-186 | once the RAM is accepted, the history gains the user message and then the phrasing model's answer to the prompt listing name, CPU and RAM, or the apology if that call raises; the step is `confirm` either way |
| `DialogueProperties.OnlyConfirmationCallsTheServer` | app.py:195-204 | a turn makes a REST call if and only if the message is non-empty, the step is `confirm` and the message mentions a confirm keyword |
| `DialogueProperties.CancelResets` | app.py:239-241 | cancel outside `normal` empties the details and returns to `normal`, keeping the history, and yields a consistent state |
| `DialogueProperties.CancelIdempotent` | app.py:239-241 | pressing cancel twice leaves the same state as pressing it once |
| `DialogueProperties.ReachableIsConsistent` | app.py:116-241 | every state reached from a consistent one by any messages, service answers and cancel presses is consistent |
| `DialogueProperties.RunAppend` | app.py:129-241 | running two event sequences one after the other is running their concatenation |
| `DialogueProperties.InitialIsConsistent` | app.py:116-121 | the initial session is consistent |
| `DialogueProperties.DeployWordMentioned` | app.py:135 | any message containing "deploy" both starts a deployment and confirms one |
| `DialogueProperties.ScenarioCollectsSpec` | app.py:135-194 | "please deploy a new vm", "web01", "I'll take 4", "give me 8gb" lead to `confirm` with name web01, 4 CPUs, 8 GB |
| `DialogueProperties.ScenarioRequest` | app.py:135-139 | "please deploy a new vm" in a new session moves to `ask_name` with empty details |
| `DialogueProperties.ScenarioCpu` | app.py:148-157 | "I'll take 4" in `ask_cpu` stores 4 CPUs |
| `DialogueProperties.ScenarioRam` | app.py:166-172 | "give me 8gb" in `ask_ram` stores 8 GB |
| `DialogueProperties.DigitsAreConcatenated` | app.py:151-154 | "I want like 10 or 12" in `ask_cpu` stores 1012 CPUs |
| `DialogueProperties.TextWithoutDigitsIsRejected` | app.py:162-165 | "abc" in `ask_cpu` leaves step and details unchanged |
| `DialogueProperties.RefusalNamingAKeywordConfirms` | app.py:197-204 | in `confirm`, any message containing "deploy" (e.g. "no, don't deploy") deploys |
| `DialogueProperties.CloneFailureStopsDeployment` | app.py:73-84 | when the clone call fails, only the token and clone calls are made, the attempt fails, and a completed turn resets the session |

## Left out

- Rendering: Streamlit widgets, the chat display, spinners, the sidebar's text, the help text and `st.rerun`. Only the state effect of the cancel button is modelled.
- HTTP: URLs, headers, JSON bodies and their decoding, disabled TLS verification, and the credentials. Each REST helper is one `Call` value carrying the arguments that vary (name, token, VM id, CPU count, cores per socket, MiB). The configured template, cluster and host of the clone request are not part of the model.
- The `time.sleep(5)` pauses between REST calls: they only affect timing.
- Environment and configuration loading, and the construction of the Ollama client. `OLLAMA_MODEL` is the `ollamaModel` field of `Env`. The hard-coded `"llama3.1:8b"` of the two phrasing calls is `PhrasingModel`.
- The content of language-model replies, and whether any service call succeeds. These are oracle inputs. A reply without the expected `message`/`content` keys counts as a failure of that call, as it raises inside the same `try`.
- `Text.IsDigit`, `Text.Lower`: Unicode is not modelled. `isdigit` and `lower()` are modelled on ASCII only. Python's `isdigit` accepts other digits too, and for some of them (superscripts) `int()` then raises.
- `Text.ParseCount`: reads digit strings of any length. CPython 3.11 and later refuse `int()` on more than 4300 digits, which that interpreter would report as "I didn't understand that".
- What Streamlit does after the unguarded summary request raises (app.py:207): it displays the error. The model ends the turn as not completed, with the state as the exception leaves it.
- Exceptions from the UI calls inside the handler's `try` blocks: they are not modelled.

## Notes on behaviour

- A failure of the summary request after a confirmed deployment is not caught (app.py:207-216). The session therefore stays in `confirm` with its details, and the next confirming message deploys again. The model follows the code here. A description that treats every language-model failure as caught and the reset as unconditional would not match it.
- The success flag of `deploy_vm_agent` is not used by the handler. Only its message reaches the summary prompt.
- Keyword checks are substring tests on the lower-cased message. "no, don't deploy" therefore confirms, and "yesterday" contains "yes". A deploy keyword in `confirm` counts as a confirmation.
