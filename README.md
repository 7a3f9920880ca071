# Portfolio assistant and contact logic in Dafny

This project models the decision logic of a personal portfolio site. The site
has an animated avatar that answers visitors' questions, a contact form with a
serverless mail endpoint behind it, and a light/dark theme switch. The model
covers six pieces:

- **Conversation orchestrator** (`Orchestrator.Agent`). The avatar's agent
  record has listening, speaking and thinking flags, an emotion and a shown
  project. The orchestrator also keeps its own conversation history and the
  last user message.
  - One `handleUserMessage` runs in two steps: before the responder is awaited
    (`BeginTurn`) and after (`CompleteTurn`).
  - The remote responder's outcome, and whether it is ready, are inputs.
  - Without a ready remote responder, the mock classifier `GetMockResponse`
    answers, and it never fails.
  - What the hook asks of the speech devices and the remote service (speaking,
    cancelling, capture, connecting, each message sent, clearing and
    disconnecting) is kept in a ghost log of device requests.
- **Simulated responder service** (`Responder.ResponderService`). It holds a
  connection flag and a conversation log seeded with the system prompt.
  - `simulateResponse` (`Responder.SimulateResponse`) is an order-sensitive,
    case-insensitive keyword classifier.
  - It is proved against an independent rule-table reading (`Responder.FirstMatch`).
- **Speech wrappers** (`Speech.Recognizer`, `Speech.Synthesizer`).
  - The recogniser gates start and stop on its flags and flips them only on
    engine events. Registering a callback replaces the previous one of that
    kind.
  - The synthesiser picks a voice through a fallback chain
    (`Speech.ChooseVoice`) and cancels before every utterance.
  - The browser engines are abstract: the wrappers' calls go into a ghost log,
    and engine events are method calls.
- **Contact form** (`ContactForm`). It covers field editing, validation into
  an error map, the payload with its company prefix, and the submit status
  (idle, success, error). The mail service's outcome is an input.
- **Contact endpoint** (`ContactEndpoint.Handle`). A pure function maps the
  method, the body and the provider's result to a status, a JSON body and the
  CORS headers. It also gives the send request, if one was made.
- **Theme switch** (`Theme.ThemeToggle`). The dark flag, the stored `theme`
  entry and the root's `dark` class.

Shared pieces are in `Text` and `EmailPattern`.
- `Text` models JavaScript's `trim()` with its white-space set, ASCII
  `toLowerCase()`, `includes`, `startsWith` and `length`, which counts UTF-16
  code units (a character outside the Basic Multilingual Plane counts twice).
- `EmailPattern` models the simplified address pattern
  `^[^\s@]+@[^\s@]+\.[^\s@]+$`, which the form and the endpoint share. It is
  proved equal to a direct description: exactly one `@`, no white space, a
  non-empty local part, and a dot inside the domain.

Three behaviours of the code that a reader might expect otherwise, modelled as written:

- `clearConversation` empties the hook's own history, which starts empty. Only
  the service's log is seeded with the system turn and truncated back to it.
- `speak` does not guard against a superseded utterance. Its end or error event
  still clears `isSpeaking` and calls its `onEnd`, even while a later utterance
  plays (`Speech.SupersededUtteranceEnds`).
- A remote responder that is constructed and ready always succeeds in the
  sequential model. The apology path is modelled through the outcome input.

## Model

| member | source | states |
|---|---|---|
| Text.Trim | src/hooks/useAIAgent.ts:74 | the trimmed text is empty exactly when the input is all JavaScript white space, and otherwise starts and ends with non-white-space |
| Text.TrimIsInfix | src/components/ui/ContactOverlay.tsx:96 | trimming keeps one contiguous piece and drops only white space before and after it |
| Text.TrimIdempotent | src/components/ui/ContactOverlay.tsx:109-111 | trimming a trimmed string changes nothing |
| Text.TrimWithoutSpace | src/components/ui/ContactOverlay.tsx:136-137 | a string without white space is its own trim |
| Text.Utf16Length | src/components/ui/ContactOverlay.tsx:111 | the JavaScript length lies between the character count and twice it, and equals the character count for text inside the Basic Multilingual Plane |
| Text.Utf16LengthConcat | src/components/ui/ContactOverlay.tsx:111 | lengths in code units add up over a concatenation |
| Text.ToLower | src/services/openai.ts:121 | only A–Z are lower-cased, so the model keeps the length (JavaScript's `toLowerCase` need not; see "## Left out") |
| Text.ToLowerOfLower | src/services/openai.ts:121 | text without capitals is left unchanged by lower-casing |
| Text.ToLowerIdempotent | src/hooks/useAIAgent.ts:198 | lower-casing twice equals lower-casing once |
| Text.ToLowerConcat | src/services/openai.ts:121 | lower-casing works piece by piece over a concatenation |
| Text.IncludesInfix | src/services/openai.ts:124 | `includes` finds a word wherever it stands inside the text |
| EmailPattern.MatchesEmailPattern | src/components/ui/ContactOverlay.tsx:103-104 | the pattern test is true exactly for an address of the independent shape `WellShaped`: one `@`, no white space, a non-empty local part and a dot inside the domain |
| EmailPattern.EmailPatternIff | src/components/ui/ContactOverlay.tsx:103-104 | the regular expression, read as a choice of split points, matches an address iff it has exactly one `@` with a non-empty part before it, no white space, and a dot with characters on both sides after the `@` |
| EmailPattern.AcceptedShape | src/components/ui/ContactOverlay.tsx:103 | an accepted address has one `@`, at the split point, and no white space |
| EmailPattern.AcceptedIsTrimmed | src/components/ui/ContactOverlay.tsx:100-104 | an accepted address is non-empty and equal to its trim |
| EmailPattern.AcceptsPlainAddress | api/contact.js:31-32 | `a@b.co` is accepted |
| EmailPattern.RejectsLeadingSpace | src/components/ui/ContactOverlay.tsx:104 | ` a@b.co` is rejected, because the pattern is applied to the untrimmed value |
| EmailPattern.RejectsDoubleAt | src/components/ui/ContactOverlay.tsx:103 | `a@@b.co` is rejected |
| EmailPattern.RejectsMissingDot | api/contact.js:31 | `a@bco` is rejected |
| Responder.SimulateResponse | src/services/openai.ts:117-180 | the reply has the emotion, action and project id that the first matching rule of the rule table promises for the lower-cased message |
| Responder.SimulateResponseOutcomes | src/services/openai.ts:121-179 | each reply kind, in both directions, is given exactly when its own keywords occur in the lower-cased message and no earlier category's keywords do; project "1" is named only for a best or favourite project question; every reply has an emotion |
| Responder.FirstMatchIsEarliest | src/services/openai.ts:123-173 | in the rule table, the rule that decides is the first one whose keywords occur |
| Responder.FirstMatchNone | src/services/openai.ts:175-179 | with no rule's keywords present, the default category is chosen |
| Responder.ClassifyFollowsRules | src/services/openai.ts:121-179 | the if-chain over a lower-cased text answers as the first matching rule of the rule table promises |
| Responder.CategoryDeterminedByReply | src/services/openai.ts:121-179 | the category can be read back from the reply, because different categories promise different replies |
| Responder.SimulateBestProjectExample | src/services/openai.ts:124-131 | "show me your best project" names project "1", excited, with show_project |
| Responder.SimulateContactExample | src/services/openai.ts:159-165 | "how can I contact you" gets the contact reply |
| Responder.ContactQuestionMentions | src/services/openai.ts:124-156 | that question names no project, experience or technology keyword |
| Responder.ClassifyContact | src/services/openai.ts:159-165 | a message with only contact keywords among the first four categories gets the happy, show_contact reply |
| Responder.ClassifyBestProject | src/services/openai.ts:124-131 | any project question asking for the best or favourite project names project "1", excited, with show_project |
| Responder.ClassifyGreeting | src/services/openai.ts:168-173 | a message whose only keywords are greetings gets the happy greeting without an action |
| Responder.ClassifyOther | src/services/openai.ts:175-179 | a message with no keyword gets the thinking default without an action |
| Responder.SimulateGreetingExample | src/services/openai.ts:168-173 | every message that lower-cases to "hello" (such as "Hello" or "HELLO") gets the greeting reply |
| Responder.SimulateDefaultExample | src/services/openai.ts:176-179 | a message with no keyword gets the thinking reply without an action |
| Responder.SimulateSubstringExample | src/services/openai.ts:168 | "this" counts as a greeting because it contains "hi" |
| Responder.ResponderService.constructor | src/services/openai.ts:25-34 | the log holds exactly the system turn with the system prompt, and the service is not connected |
| Responder.ResponderService.Connect | src/services/openai.ts:66-77 | connect succeeds and makes the service ready, leaving the log alone |
| Responder.ResponderService.Disconnect | src/services/openai.ts:79-85 | disconnect makes the service not ready, leaving the log alone |
| Responder.ResponderService.IsReady | src/services/openai.ts:190-192 | ready exactly when connected, which only connect sets and disconnect clears |
| Responder.ResponderService.SendMessage | src/services/openai.ts:87-115 | not connected: refused with the log unchanged; connected: the simulated reply is returned and the log grows by exactly the user turn and then the assistant turn with the reply text; the log stays seeded and alternating |
| Responder.ResponderService.ConversationHistory | src/services/openai.ts:182-184 | returns the log, which starts with the system turn |
| Responder.ResponderService.ClearHistory | src/services/openai.ts:186-188 | only the original first entry, the system turn, remains, so clearing twice is clearing once |
| Speech.LastResult | src/services/speech.ts:111-121 | the report is the first alternative of the last result with its transcript trimmed and isFinal and confidence passed through; without such an alternative nothing is reported; a reported transcript is its own trim, so it is non-empty exactly when it is not blank |
| Speech.Recognizer.constructor | src/services/speech.ts:75-98 | supported exactly when the API is present; not listening; no callbacks |
| Speech.Recognizer.StartListening | src/services/speech.ts:131-148 | unsupported: false and nothing happens; already listening: true and no new start; otherwise one start call to the engine, answering false exactly when it throws; `isListening` is not changed |
| Speech.Recognizer.StopListening | src/services/speech.ts:150-154 | the engine is told to stop only while listening |
| Speech.Recognizer.HandleStart | src/services/speech.ts:101-104 | the start event sets listening and notifies the onStart callback |
| Speech.Recognizer.HandleEnd | src/services/speech.ts:106-109 | the end event clears listening and notifies the onEnd callback |
| Speech.Recognizer.HandleResult | src/services/speech.ts:111-122 | the result event reports the last result to onResult and leaves the flags alone |
| Speech.Recognizer.HandleError | src/services/speech.ts:124-127 | the error event passes its code to onError and leaves listening unchanged |
| Speech.Recognizer.OnResult | src/services/speech.ts:156-158 | registering replaces only the result callback |
| Speech.Recognizer.OnStart | src/services/speech.ts:160-162 | registering replaces only the start callback |
| Speech.Recognizer.OnEnd | src/services/speech.ts:164-166 | registering replaces only the end callback |
| Speech.Recognizer.OnError | src/services/speech.ts:168-170 | registering replaces only the error callback |
| Speech.Find | src/services/speech.ts:196-202 | a voice found is listed and passes the test; nothing is found only when no voice passes |
| Speech.FindIndex | src/services/speech.ts:196-202 | the index found is that of the first voice passing the test, or the list's length when none passes |
| Speech.FindIsFirst | src/services/speech.ts:196-202 | `find` gives the first passing voice, and nothing exactly when no voice passes |
| Speech.ChooseVoice | src/services/speech.ts:191-210 | a listed voice is chosen exactly when the list is non-empty |
| Speech.ChooseVoicePreference | src/services/speech.ts:193-203 | a voice is chosen iff the list is non-empty, and it is one of the voices; it is the first Google English voice if there is one; else the first English "Female" voice; else the first English voice; else the first voice; with any English voice on offer the choice is English |
| Speech.Synthesizer.constructor | src/services/speech.ts:186-210 | with voices available the chain chooses now; with none, the voice waits for the voices-changed event |
| Speech.Synthesizer.HandleVoicesChanged | src/services/speech.ts:205-209 | the event re-runs the choice only if the service was waiting for it |
| Speech.Synthesizer.Speak | src/services/speech.ts:212-252 | the engine is told to cancel and then given one utterance with the text, the current voice and the caller's callbacks; speaking is cleared |
| Speech.Synthesizer.Stop | src/services/speech.ts:254-257 | the engine is told to cancel and speaking is cleared |
| Speech.Synthesizer.PauseSpeech | src/services/speech.ts:259-261 | pause is passed on and the flags are left alone |
| Speech.Synthesizer.ResumeSpeech | src/services/speech.ts:263-265 | resume is passed on and the flags are left alone |
| Speech.Synthesizer.HandleUtteranceStart | src/services/speech.ts:234-237 | for an utterance handed to the engine, the start event sets speaking and invokes that utterance's onStart |
| Speech.Synthesizer.HandleUtteranceEnd | src/services/speech.ts:239-242 | for an utterance handed to the engine, the end event clears speaking and invokes that utterance's onEnd |
| Speech.Synthesizer.HandleUtteranceError | src/services/speech.ts:244-248 | for an utterance handed to the engine, the error event also clears speaking and invokes onEnd |
| Speech.Synthesizer.SetVoice | src/services/speech.ts:275-278 | the first voice with exactly that name, or the current voice when no voice has it |
| Speech.Synthesizer.IsSpeaking | src/services/speech.ts:267-269 | reports the speaking flag that the start events set and the end, error and stop paths clear |
| Speech.SupersededUtteranceEnds | src/services/speech.ts:239-242 | after two speak calls the engine got cancel, the first utterance, cancel, the second; the first one's end event, arriving after the second has started, still clears speaking and tells the first caller's onEnd |
| Orchestrator.GetMockResponse | src/hooks/useAIAgent.ts:195-221 | the reply is the one the first matching rule of the two-rule mock table (project or work, then contact or hire) promises, the thinking default when neither matches |
| Orchestrator.MockClassifyFollowsRules | src/hooks/useAIAgent.ts:198-220 | the mock's if-chain over a lower-cased text answers as the first matching rule of its table promises |
| Orchestrator.MockResponseOutcomes | src/hooks/useAIAgent.ts:198-220 | in both directions, a project or work mention gives excited, show_project and project "1"; otherwise contact or hire gives happy and show_contact; anything else gives the thinking reply without an action |
| Orchestrator.MockSubstringExample | src/hooks/useAIAgent.ts:200 | "framework" is a project question because it contains "work" |
| Orchestrator.MockGreetingExample | src/hooks/useAIAgent.ts:217-220 | "Hello" gets the mock default reply |
| Orchestrator.GetProjectById | src/hooks/useAIAgent.ts:224-227 | the project carries the requested id |
| Orchestrator.ProjectsDifferOnlyInId | src/hooks/useAIAgent.ts:224-237 | all other fields of the sample project are fixed |
| Orchestrator.ProjectFor | src/hooks/useAIAgent.ts:111 | a project is shown exactly for a present, non-empty project id, and the shown project carries that id |
| Orchestrator.Respond | src/hooks/useAIAgent.ts:89-95 | the remote outcome is used only when remote is ready, otherwise the mock reply; only the remote responder can fail, and a mock reply always has an emotion and a non-empty text |
| Orchestrator.ShownProjectFollowsQuestion | src/hooks/useAIAgent.ts:106-112 | with either responder, a project (always id "1") is shown exactly for the questions that name one, and the emotion is the reply's own |
| Orchestrator.LatestAssistantMessage | src/components/avatar/AvatarPanel.tsx:30-32 | the bubble text is never empty, and it is the default greeting or the content of some assistant turn |
| Orchestrator.LatestAssistantIsLast | src/components/avatar/AvatarPanel.tsx:30-32 | the bubble is decided by the last assistant turn alone: its content if non-empty, else the default greeting |
| Orchestrator.LatestAssistantWithoutReply | src/components/avatar/AvatarPanel.tsx:32 | without an assistant turn the default greeting shows |
| Orchestrator.LatestAssistantAfterReply | src/components/avatar/AvatarPanel.tsx:30-32 | after a completed turn the bubble shows that turn's reply |
| Orchestrator.LatestAssistantIgnoresUser | src/components/avatar/AvatarPanel.tsx:30-31 | a user turn does not change the bubble |
| Orchestrator.Agent.constructor | src/hooks/useAIAgent.ts:11-44 | a remote service exists iff the key is non-empty, and only then is connecting requested; the initial agent is idle and neutral; history and last message are empty |
| Orchestrator.Agent.BeginTurn | src/hooks/useAIAgent.ts:73-86 | a blank message changes nothing; otherwise thinking is set, the raw message is remembered, and exactly one user turn with it is appended |
| Orchestrator.Agent.CompleteTurn | src/hooks/useAIAgent.ts:97-134 | a reply appends exactly one assistant turn with its text, ends thinking, sets the emotion and project from it, and is spoken when auto-speak is on and the text is non-empty; a failure appends nothing, keeps emotion and project, ends thinking, and returns (and with auto-speak speaks) the neutral apology |
| Orchestrator.Agent.HandleUserMessage | src/hooks/useAIAgent.ts:73-135 | blank input changes nothing and returns nothing; otherwise a whole turn is taken (`TurnTaken`): the message is sent to the remote service exactly when it exists and is ready, one or two turns are added as the chosen responder succeeds or fails, thinking ends false, and speaking is on afterwards exactly when it was before or auto-speak handed the reply (or the apology) to the synthesiser |
| Orchestrator.Agent.SpeakMessage | src/hooks/useAIAgent.ts:137-150 | speaking is shown at once and the text is handed to the synthesiser |
| Orchestrator.Agent.StartListening | src/hooks/useAIAgent.ts:152-158 | capture is requested only when recognition is supported; no flag changes |
| Orchestrator.Agent.StopListening | src/hooks/useAIAgent.ts:160-162 | stopping capture is requested; no flag changes |
| Orchestrator.Agent.StopSpeaking | src/hooks/useAIAgent.ts:164-167 | speech is cancelled and speaking cleared |
| Orchestrator.Agent.SetEmotion | src/hooks/useAIAgent.ts:169-171 | only the emotion changes |
| Orchestrator.Agent.ClearConversation | src/hooks/useAIAgent.ts:173-176 | the hook's history becomes empty; the remote service, if any, is told to clear its log; the agent is untouched |
| Orchestrator.Agent.OnRecognitionStart | src/hooks/useAIAgent.ts:47-49 | listening is shown |
| Orchestrator.Agent.OnRecognitionEnd | src/hooks/useAIAgent.ts:51-53 | listening is no longer shown |
| Orchestrator.Agent.OnRecognitionError | src/hooks/useAIAgent.ts:61-64 | any error clears listening |
| Orchestrator.Agent.OnRecognitionResult | src/hooks/useAIAgent.ts:55-59 | only a final, non-empty transcript becomes a user message, and then it takes the whole turn `HandleUserMessage` describes (`TurnTaken`); anything else changes nothing |
| Orchestrator.Agent.OnSpeechStart | src/hooks/useAIAgent.ts:143-145 | speaking is shown |
| Orchestrator.Agent.OnSpeechEnd | src/hooks/useAIAgent.ts:146-148 | speaking is no longer shown |
| Orchestrator.Agent.Unmount | src/hooks/useAIAgent.ts:66-70 | the remote service, if any, is disconnected; capture is stopped and speech is cancelled |
| Orchestrator.Agent.IsConnected | src/hooks/useAIAgent.ts:190 | connected exactly when a remote service exists and reports ready |
| ContactForm.FormData.With | src/components/ui/ContactOverlay.tsx:86-91 | the named field takes the value and every other field keeps its own |
| ContactForm.ValidateForm | src/components/ui/ContactOverlay.tsx:93-116 | errors are only ever keyed by name, email or message |
| ContactForm.ValidationRules | src/components/ui/ContactOverlay.tsx:93-116 | name error iff the trimmed name is empty; email error iff the untrimmed email fails the pattern, saying "required" when it is blank; message error iff the trimmed message is under 10 UTF-16 code units, saying "required" when it is blank; never a company error; no errors iff all three hold |
| ContactForm.ValidationIgnoresCompany | src/components/ui/ContactOverlay.tsx:93-116 | the company field cannot affect validation |
| ContactForm.EmojiMessageLongEnough | src/components/ui/ContactOverlay.tsx:111 | five emoji are ten code units, so they meet the minimum |
| ContactForm.ShortMessageRefused | src/components/ui/ContactOverlay.tsx:111-113 | five letters are too short and get the minimum-length error |
| ContactForm.Payload | src/components/ui/ContactOverlay.tsx:135-137 | the payload's name and email are the trimmed fields |
| ContactForm.PayloadMessageLayout | src/components/ui/ContactOverlay.tsx:138 | the trimmed message ends the payload message; with a non-blank company it is led by "Company: ", the trimmed company and a blank line, otherwise it is the trimmed message alone |
| ContactForm.AcceptedFormFields | src/components/ui/ContactOverlay.tsx:93-116 | passing validation means a non-blank name, a matching email and a non-blank message |
| ContactForm.AcceptedPayloadBody | src/components/ui/ContactOverlay.tsx:126-141 | the payload of such a form keeps the typed email and passes every check of the endpoint |
| ContactForm.AcceptedFormReachesProvider | src/components/ui/ContactOverlay.tsx:126-141 | a form that passes validation yields a payload whose email is unchanged and which the contact endpoint forwards to the provider, with the trimmed name in the subject |
| ContactForm.BlankNameOnlyRefusedByForm | src/components/ui/ContactOverlay.tsx:96-98 | a one-space name is refused by the form although the endpoint would accept it |
| ContactForm.ContactOverlay.constructor | src/components/ui/ContactOverlay.tsx:12-22 | empty form, idle, no errors, not submitting |
| ContactForm.ContactOverlay.HandleInputChange | src/components/ui/ContactOverlay.tsx:86-91 | only the named field changes |
| ContactForm.ContactOverlay.BeginSubmit | src/components/ui/ContactOverlay.tsx:118-139 | earlier error text is cleared; the shown errors are exactly the computed map; with errors nothing is sent; otherwise submitting begins and the payload of the form is sent; the status is not reset |
| ContactForm.ContactOverlay.CompleteSubmit | src/components/ui/ContactOverlay.tsx:141-158 | success sets the success status and clears all four fields; failure sets the error status, keeps the form and shows the error's message or the fallback; submitting ends in both cases |
| ContactForm.ContactOverlay.HandleSubmit | src/components/ui/ContactOverlay.tsx:118-159 | the whole submission: the payload is sent exactly when the form validates, with the outcomes above |
| ContactForm.ContactOverlay.HandleSuccessTimeout | src/components/ui/ContactOverlay.tsx:147-150 | back to idle and one close request |
| ContactEndpoint.Handle | api/contact.js:5-93 | every response carries the CORS headers and a status of 200, 400, 405 or 500, and a send is requested only for a POST whose body passes both checks |
| ContactEndpoint.SendOnlyWhenValid | api/contact.js:11-69 | a send is attempted iff the request is a POST with all three fields present and non-empty and a matching email; the request carries the fields unchanged with the name in the subject; before that the provider cannot influence the response |
| ContactEndpoint.StatusTable | api/contact.js:5-92 | the CORS headers are always set; a body is missing only for OPTIONS; 200 iff preflight or a delivered message; 405 iff another non-POST method; 400 iff a present but rejected body, naming the first failed check; 500 iff a missing body or a failed send, naming which |
| ContactEndpoint.BlankNameAccepted | api/contact.js:23 | validation does not trim, so a one-space name is sent |
| ContactEndpoint.PaddedEmailRejected | api/contact.js:31-37 | a padded address is answered 400 as invalid, and nothing is sent |
| Theme.InitialIsDark | src/components/ui/ThemeToggle.tsx:5-15 | no window: dark; a saved value is read as dark exactly when it is the one the effect writes for dark; nothing saved: the system preference |
| Theme.InitialChoice | src/components/ui/ThemeToggle.tsx:5-15 | no window: dark; a saved non-empty value: dark iff it is exactly "dark"; otherwise the system preference; an empty saved value counts as none |
| Theme.StoredValue | src/components/ui/ThemeToggle.tsx:23-29 | the stored text is "dark" exactly for dark, and never empty |
| Theme.ReloadRestoresChoice | src/components/ui/ThemeToggle.tsx:8-9 | after persisting, the next mount starts with the same choice whatever the system preference |
| Theme.ThemeToggle.constructor | src/components/ui/ThemeToggle.tsx:5-32 | mounting starts from the initial choice; in a browser the first effect leaves storage and root in step with it; without a window nothing is written and storage keeps what it held |
| Theme.ThemeToggle.PersistEffect | src/components/ui/ThemeToggle.tsx:17-32 | storage holds "dark" iff dark (else "light") and the root has the dark class iff dark |
| Theme.ThemeToggle.Click | src/components/ui/ThemeToggle.tsx:51-54 | the flag is negated; storage and root wait for the effect |
| Theme.ThemeToggle.Toggle | src/components/ui/ThemeToggle.tsx:17-54 | a click with its effect negates the flag and leaves everything in step |
| Theme.ThemeToggle.SystemChange | src/components/ui/ThemeToggle.tsx:35-47 | the new system preference is taken only when nothing is saved |
| Theme.ThemeToggle.SystemChangeWithEffect | src/components/ui/ThemeToggle.tsx:17-47 | a system change followed by the effect it triggers: storage and root follow when the flag changed, and are untouched otherwise |
| Theme.ThemeToggle.StorageCleared | src/components/ui/ThemeToggle.tsx:39-40 | an outside clearing of storage leaves the flag and root alone |
| Theme.SystemChangeAfterPersist | src/components/ui/ThemeToggle.tsx:25-42 | once the effect has run, a system change never alters the theme |
| Theme.SystemChangeAfterClearing | src/components/ui/ThemeToggle.tsx:37-42 | with storage cleared, the next system change is followed |
| Theme.SystemChangeAfterClearingWithEffect | src/components/ui/ThemeToggle.tsx:17-47 | after clearing, a system change that flips the theme is followed and stored again; one that does not flip it leaves storage empty |

## Left out

- Text.ToLower: lower-cases ASCII A–Z only. JavaScript's `toLowerCase` also folds other letters, and a few of them onto ASCII keyword letters: U+212A KELVIN SIGN becomes "k" and U+0130 becomes "i" followed by U+0307 (one code unit becomes two). A message that spells a keyword with such a letter ("wor" followed by U+212A) is a keyword match in JavaScript but gets the default reply in this model from both classifiers (`Orchestrator.GetMockResponse`, `Responder.SimulateResponse`); every other message is classified alike, since all keywords are ASCII.
- Timestamps on conversation turns, the simulated delays (including the random one in the service) and the two-second auto-close timer are not modelled. The timer's effect is the separate event `HandleSuccessTimeout`.
- Overlapping asynchronous calls of `handleUserMessage` and `handleSubmit` are not modelled. Turns and submissions are taken one at a time, each split at its single await.
- React's batching of state updates and re-rendering are not modelled: each state setter is applied at once.
- The browser's recognition and synthesis engines are abstract events and ghost call logs. The recogniser's language, continuity and interim options are not modelled. Utterance rate, pitch and volume are floating point and are left out.
- Speech.Recognizer: `getIsSupported` and `getIsListening` are the fields themselves. Confidence is passed through as an uninterpreted `real`.
- The mail provider library, the HTML template of the mail, and the development-mode simulated send with its random 90% success are not part of this model. The provider's and the mail service's results are inputs.
- ContactEndpoint.Handle: body fields are strings or missing. Other JSON values (numbers, booleans, objects) with their truthiness and string conversion are not modelled.
- Orchestrator.Agent.HandleUserMessage: an exception raised by the speech output inside the turn is not modelled. Only the responder's failure leads to the apology.
- Animations, 3D rendering, the avatar SDK, page meta tags and every other component's markup are presentation and are not modelled.
