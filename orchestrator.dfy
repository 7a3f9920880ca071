/**
 * The conversation orchestrator of `src/hooks/useAIAgent.ts`: the agent
 * record the avatar shows, the hook's own conversation history and the last
 * user message. One call of `handleUserMessage` runs as two steps, the part
 * before the responder is awaited and the part after; turns are taken one at
 * a time. The remote responder's outcome and whether it is ready are inputs;
 * requests to the speech devices and the remote service are kept in a ghost log.
 */
module Orchestrator {
  import opened Wrappers
  import opened Text
  import opened Responder
  import Speech

  /** The `Project` record the agent can display. */
  datatype Project = Project(id: string, title: string, description: string, role: string, duration: string,
                             techStack: seq<string>, achievements: seq<string>, images: seq<string>,
                             demoUrl: string, githubUrl: string)

  /** The `AIAgent` record. */
  datatype AgentState = AgentState(isListening: bool, isSpeaking: bool, isThinking: bool,
                                   currentEmotion: Emotion, currentProject: Option<Project>)

  const InitialAgent := AgentState(false, false, false, Neutral, None)

  /** What the hook asks of the recogniser, the synthesiser and the remote service. */
  datatype DeviceRequest =
    | SpeakText(text: string) | CancelSpeech | StartCapture | StopCapture
    | ConnectRemote | SendRemote(message: string) | DisconnectRemote | ClearRemoteHistory

  const MockProjectWords: seq<string> := ["project", "work"]
  const MockContactWords: seq<string> := ["contact", "hire"]

  const MockProjectText := "I'd love to show you Samuel's projects! His AI Health Tracker is particularly innovative. Which aspect interests you most?"
  const MockContactText := "Samuel is available for new opportunities! Let me show you his contact information."
  const MockDefaultText := "That's interesting! I can tell you about Samuel's projects, experience, or technical skills. What would you like to explore?"
  const ApologyText := "I'm sorry, I'm having trouble processing that right now. Could you try asking again?"

  /** The reply returned when the responder fails. */
  const Apology := Reply(ApologyText, Some(Neutral), None, None)

  /** The mock's two rules in the order it tries them; anything else falls through to `OtherTopic`. */
  const MockRules: seq<(Category, seq<string>)> := [(ProjectTopic, MockProjectWords), (ContactTopic, MockContactWords)]

  /**
   * The reply each mock category promises: project questions are excited and
   * show project "1", contact questions are happy and show the contact
   * details, and anything else is thinking with no action; each has its own text.
   */
  predicate FitsMockCategory(r: Reply, c: Category) {
    match c
    case ProjectTopic => r == Reply(MockProjectText, Some(Excited), Some(ShowProject), Some("1"))
    case ContactTopic => r == Reply(MockContactText, Some(Happy), Some(ShowContact), None)
    case OtherTopic => r == Reply(MockDefaultText, Some(Thinking), None, None)
    case _ => false
  }

  /**
   * `getMockResponse`: a first-match classifier over the lower-cased message,
   * answering as the first rule of `MockRules` it matches promises (the delay
   * is not modelled).
   */
  function GetMockResponse(message: string): (r: Reply)
    ensures FitsMockCategory(r, FirstMatch(MockRules, ToLower(message)))
  {
    var lower := ToLower(message);
    MockClassifyFollowsRules(lower);
    MockClassify(lower)
  }

  /** The if-chain of `getMockResponse` over the already lower-cased message. */
  function MockClassify(lower: string): Reply {
    if MentionsAny(lower, MockProjectWords) then
      Reply(MockProjectText, Some(Excited), Some(ShowProject), Some("1"))
    else if MentionsAny(lower, MockContactWords) then
      Reply(MockContactText, Some(Happy), Some(ShowContact), None)
    else
      Reply(MockDefaultText, Some(Thinking), None, None)
  }

  /** The mock's if-chain answers as the first matching rule of its table promises. */
  lemma MockClassifyFollowsRules(lower: string)
    ensures FitsMockCategory(MockClassify(lower), FirstMatch(MockRules, lower))
  {
    if MentionsAny(lower, MockProjectWords) {
      FirstMatchIsEarliest(MockRules, lower, 0);
    } else if MentionsAny(lower, MockContactWords) {
      FirstMatchIsEarliest(MockRules, lower, 1);
    } else {
      FirstMatchNone(MockRules, lower);
    }
  }

  /**
   * Each mock outcome, both directions: a project keyword always wins and
   * names project "1", contact keywords count only without one, and every
   * other message gets the thinking reply with no action.
   */
  lemma MockResponseOutcomes(message: string)
    ensures var r := GetMockResponse(message); var l := ToLower(message);
      && r.emotion.Some?
      && (r.action == Some(ShowProject) <==> MentionsAny(l, MockProjectWords))
      && (r.projectId.Some? <==> MentionsAny(l, MockProjectWords))
      && (r.projectId.Some? ==> r.projectId == Some("1"))
      && (r.action == Some(ShowContact) <==> !MentionsAny(l, MockProjectWords) && MentionsAny(l, MockContactWords))
      && (r.action == None <==> !MentionsAny(l, MockProjectWords) && !MentionsAny(l, MockContactWords))
      && (r.action == None <==> r == Reply(MockDefaultText, Some(Thinking), None, None))
  {
  }

  /** Substring matching again: "I like your framework" contains "work", so it is a project question. */
  lemma MockSubstringExample()
    ensures GetMockResponse("framework") == Reply(MockProjectText, Some(Excited), Some(ShowProject), Some("1"))
  {
    var t := "framework";
    ToLowerOfLower(t);
    assert MentionsAny(t, MockProjectWords) by {
      assert t == "frame" + "work" + "";
      IncludesInfix("frame", "work", "");
    }
  }

  /** A message naming neither a project nor contact gets the default: "Hello" is not a greeting here. */
  lemma MockGreetingExample()
    ensures GetMockResponse("Hello") == Reply(MockDefaultText, Some(Thinking), None, None)
  {
    var t := "hello";
    assert ToLower("Hello") == t;
    assert !MentionsAny(t, MockProjectWords) by {
      MissingCharExcludes(t, "project", 'p');
      MissingCharExcludes(t, "work", 'w');
    }
    assert !MentionsAny(t, MockContactWords) by {
      MissingCharExcludes(t, "contact", 'c');
      MissingCharExcludes(t, "hire", 'i');
    }
  }

  /** `getProjectById`: a fixed sample project carrying the requested id. */
  function GetProjectById(projectId: string): (p: Project)
    ensures p.id == projectId
  {
    Project(projectId, "Sample Project", "A sample project description", "Developer", "2024",
            ["React", "TypeScript"], ["Built amazing things"], ["https://example.com/image.jpg"],
            "https://example.com", "https://github.com")
  }

  /** Only the id depends on the argument. */
  lemma ProjectsDifferOnlyInId(a: string, b: string)
    ensures GetProjectById(a).(id := b) == GetProjectById(b)
  {
  }

  /**
   * The `currentProject` a reply leads to: a project only for a non-empty
   * (truthy) `projectId`, and then the one carrying that id.
   */
  function ProjectFor(projectId: Option<string>): (p: Option<Project>)
    ensures p.Some? <==> projectId.Some? && projectId.value != ""
    ensures p.Some? ==> p.value.id == projectId.value && p.value.id != ""
    ensures p.Some? ==> p == Some(GetProjectById(projectId.value))
  {
    if projectId.Some? && projectId.value != "" then Some(GetProjectById(projectId.value)) else None
  }

  /** The `currentEmotion` a reply leads to: its own emotion, or neutral when it has none. */
  function EmotionFor(reply: Reply): (e: Emotion)
    ensures reply.emotion.Some? ==> e == reply.emotion.value
    ensures reply.emotion.None? ==> e == Neutral
  {
    reply.emotion.GetOr(Neutral)
  }

  /**
   * The responder used for one turn: the remote one only when it is ready,
   * otherwise the mock. Only the remote responder can fail, and a mock reply
   * always has an emotion and a non-empty text, so with auto-speak it is
   * always spoken.
   */
  function Respond(message: string, useRemote: bool, remoteOutcome: Option<Reply>): (r: Option<Reply>)
    ensures !useRemote ==> r == Some(GetMockResponse(message))
    ensures useRemote ==> r == remoteOutcome
    ensures r.None? ==> useRemote
    ensures !useRemote ==> r.value.emotion.Some? && r.value.text != ""
  {
    if useRemote then remoteOutcome else Some(GetMockResponse(message))
  }

  /**
   * What either responder makes the agent show: a project, always id "1",
   * exactly for the questions that name one, and an emotion of the reply's own.
   */
  lemma ShownProjectFollowsQuestion(message: string)
    ensures var l := ToLower(message);
      && (ProjectFor(GetMockResponse(message).projectId).Some? <==> MentionsAny(l, MockProjectWords))
      && (ProjectFor(SimulateResponse(message).projectId).Some? <==>
            MentionsAny(l, ProjectWords) && MentionsAny(l, FavouriteWords))
      && (ProjectFor(GetMockResponse(message).projectId).Some? ==>
            ProjectFor(GetMockResponse(message).projectId).value.id == "1")
      && (ProjectFor(SimulateResponse(message).projectId).Some? ==>
            ProjectFor(SimulateResponse(message).projectId).value.id == "1")
      && EmotionFor(GetMockResponse(message)) == GetMockResponse(message).emotion.value
      && EmotionFor(SimulateResponse(message)) == SimulateResponse(message).emotion.value
  {
    MockResponseOutcomes(message);
    SimulateResponseOutcomes(message);
  }

  /** The bubble text of `AvatarPanel`: the last assistant turn's content if it is non-empty, else a greeting. */
  const BubbleDefault := "Hi! I'm Samuel's AI assistant. Ask me about his projects!"

  function LatestAssistantMessage(history: seq<Turn>): (m: string)
    ensures m != ""
    ensures m == BubbleDefault || exists i :: 0 <= i < |history| && history[i].role == Assistant && m == history[i].content
    decreases |history|
  {
    if history == [] then BubbleDefault
    else if history[|history| - 1].role == Assistant then
      (if history[|history| - 1].content != "" then history[|history| - 1].content else BubbleDefault)
    else LatestAssistantMessage(history[..|history| - 1])
  }

  /**
   * The bubble text is decided by the last assistant turn alone: its content
   * when non-empty, the greeting when it is empty or there is no assistant turn.
   */
  lemma {:induction false} LatestAssistantIsLast(history: seq<Turn>, i: nat)
    requires i < |history| && history[i].role == Assistant
    requires forall j :: i < j < |history| ==> history[j].role != Assistant
    ensures LatestAssistantMessage(history) == if history[i].content != "" then history[i].content else BubbleDefault
    decreases |history|
  {
    if i < |history| - 1 {
      var front := history[..|history| - 1];
      assert front[i] == history[i];
      LatestAssistantIsLast(front, i);
    }
  }

  lemma {:induction false} LatestAssistantWithoutReply(history: seq<Turn>)
    requires forall j :: 0 <= j < |history| ==> history[j].role != Assistant
    ensures LatestAssistantMessage(history) == BubbleDefault
    decreases |history|
  {
    if history != [] {
      LatestAssistantWithoutReply(history[..|history| - 1]);
    }
  }

  /** The bubble shows the newest assistant turn, whatever came before it. */
  lemma LatestAssistantAfterReply(history: seq<Turn>, user: string, text: string)
    requires text != ""
    ensures LatestAssistantMessage(history + [Turn(User, user), Turn(Assistant, text)]) == text
  {
  }

  /** A user turn does not change the bubble. */
  lemma LatestAssistantIgnoresUser(history: seq<Turn>, user: string)
    ensures LatestAssistantMessage(history + [Turn(User, user)]) == LatestAssistantMessage(history)
  {
    assert (history + [Turn(User, user)])[..|history|] == history;
  }

  /**
   * The state of one `useAIAgent` instance. `hasRemote` records whether a
   * remote service was constructed, which happens exactly for a non-empty key.
   */
  class Agent {
    var agent: AgentState
    var history: seq<Turn>
    var lastMessage: string
    const autoSpeak: bool
    const hasRemote: bool
    const voiceSupported: bool
    ghost var requests: seq<DeviceRequest>

    /** Mounting the hook: initial state, and the mount effect connects the remote service if there is one. */
    constructor (apiKey: string, autoSpeak: bool, voiceSupported: bool)
      ensures this.autoSpeak == autoSpeak && this.voiceSupported == voiceSupported
      ensures hasRemote <==> apiKey != ""
      ensures agent == InitialAgent && history == [] && lastMessage == ""
      ensures requests == if apiKey != "" then [ConnectRemote] else []
    {
      this.autoSpeak := autoSpeak;
      this.voiceSupported := voiceSupported;
      hasRemote := apiKey != "";
      agent := InitialAgent;
      history := [];
      lastMessage := "";
      requests := if apiKey != "" then [ConnectRemote] else [];
    }

    /**
     * `handleUserMessage` up to the await: a blank message changes nothing;
     * otherwise the agent is thinking, the raw message is remembered and one
     * user turn with it is appended.
     */
    method BeginTurn(message: string) returns (started: bool)
      modifies this
      ensures started <==> Trim(message) != []
      ensures !started ==> agent == old(agent) && history == old(history) && lastMessage == old(lastMessage)
      ensures started ==> agent == old(agent).(isThinking := true) && lastMessage == message
                          && history == old(history) + [Turn(User, message)]
      ensures requests == old(requests)
    {
      if Trim(message) == [] {
        return false;
      }
      agent := agent.(isThinking := true);
      lastMessage := message;
      history := history + [Turn(User, message)];
      started := true;
    }

    /**
     * `handleUserMessage` after the await. A reply adds one assistant turn,
     * sets the emotion and the shown project from it, and is spoken when
     * auto-speak is on and its text is non-empty. A failure adds no turn,
     * keeps the emotion and project, and answers (and speaks) the apology.
     */
    method CompleteTurn(outcome: Option<Reply>) returns (r: Reply)
      modifies this
      ensures lastMessage == old(lastMessage)
      ensures outcome.Some? ==>
                && r == outcome.value
                && history == old(history) + [Turn(Assistant, r.text)]
                && agent == old(agent).(isThinking := false, currentEmotion := EmotionFor(r),
                                       currentProject := ProjectFor(r.projectId),
                                       isSpeaking := old(agent).isSpeaking || (autoSpeak && r.text != ""))
                && requests == old(requests) + (if autoSpeak && r.text != "" then [SpeakText(r.text)] else [])
      ensures outcome.None? ==>
                && r == Apology
                && history == old(history)
                && agent == old(agent).(isThinking := false, isSpeaking := old(agent).isSpeaking || autoSpeak)
                && requests == old(requests) + (if autoSpeak then [SpeakText(ApologyText)] else [])
    {
      if outcome.Some? {
        r := outcome.value;
        history := history + [Turn(Assistant, r.text)];
        agent := agent.(isThinking := false, currentEmotion := EmotionFor(r), currentProject := ProjectFor(r.projectId));
        if autoSpeak && r.text != "" {
          SpeakMessage(r.text);
        }
      } else {
        agent := agent.(isThinking := false);
        r := Apology;
        if autoSpeak {
          SpeakMessage(ApologyText);
        }
      }
    }

    /**
     * What one non-blank `handleUserMessage` leaves behind: the remote
     * responder is used only when a service exists and is ready, and then the
     * message is sent to it; otherwise the mock answers. The agent is no longer
     * thinking, one or two turns are added as the responder succeeds or fails,
     * and the agent is speaking when it already was or the reply was handed to
     * the synthesiser.
     */
    twostate predicate TurnTaken(message: string, remoteReady: bool, remoteOutcome: Option<Reply>, new r: Option<Reply>)
      reads this
    {
      var outcome := Respond(message, hasRemote && remoteReady, remoteOutcome);
      var sent := if hasRemote && remoteReady then [SendRemote(message)] else [];
      && lastMessage == message && r.Some? && !agent.isThinking
      && agent.isListening == old(agent).isListening
      && (outcome.Some? ==>
            && r == outcome
            && history == old(history) + [Turn(User, message), Turn(Assistant, outcome.value.text)]
            && agent.currentEmotion == EmotionFor(outcome.value)
            && agent.currentProject == ProjectFor(outcome.value.projectId)
            && agent.isSpeaking == (old(agent).isSpeaking || (autoSpeak && outcome.value.text != ""))
            && requests == old(requests) + sent +
                 (if autoSpeak && outcome.value.text != "" then [SpeakText(outcome.value.text)] else []))
      && (outcome.None? ==>
            && r == Some(Apology)
            && history == old(history) + [Turn(User, message)]
            && agent.currentEmotion == old(agent).currentEmotion
            && agent.currentProject == old(agent).currentProject
            && agent.isSpeaking == (old(agent).isSpeaking || autoSpeak)
            && requests == old(requests) + sent + (if autoSpeak then [SpeakText(ApologyText)] else []))
    }

    /** One whole `handleUserMessage`: a blank message yields nothing and changes nothing; any other takes a turn. */
    method HandleUserMessage(message: string, remoteReady: bool, remoteOutcome: Option<Reply>)
      returns (r: Option<Reply>)
      modifies this
      ensures Trim(message) == [] ==>
                r == None && agent == old(agent) && history == old(history)
                && lastMessage == old(lastMessage) && requests == old(requests)
      ensures Trim(message) != [] ==> TurnTaken(message, remoteReady, remoteOutcome, r)
    {
      var started := BeginTurn(message);
      if !started {
        return None;
      }
      if hasRemote && remoteReady {
        requests := requests + [SendRemote(message)];
      }
      var outcome := Respond(message, hasRemote && remoteReady, remoteOutcome);
      var reply := CompleteTurn(outcome);
      r := Some(reply);
    }

    /** `speakMessage`: the agent shows speaking at once and the text goes to the synthesiser. */
    method SpeakMessage(text: string)
      modifies this
      ensures agent == old(agent).(isSpeaking := true)
      ensures history == old(history) && lastMessage == old(lastMessage)
      ensures requests == old(requests) + [SpeakText(text)]
    {
      agent := agent.(isSpeaking := true);
      requests := requests + [SpeakText(text)];
    }

    /** `startListening`: capture is requested only where recognition is supported; the flag waits for the start event. */
    method StartListening()
      modifies this
      ensures agent == old(agent) && history == old(history) && lastMessage == old(lastMessage)
      ensures requests == old(requests) + (if voiceSupported then [StartCapture] else [])
    {
      if voiceSupported {
        requests := requests + [StartCapture];
      }
    }

    /** `stopListening`: passed to the recogniser, which ignores it unless listening. */
    method StopListening()
      modifies this
      ensures agent == old(agent) && history == old(history) && lastMessage == old(lastMessage)
      ensures requests == old(requests) + [StopCapture]
    {
      requests := requests + [StopCapture];
    }

    /** `stopSpeaking`: speech is cancelled and the agent no longer shows speaking. */
    method StopSpeaking()
      modifies this
      ensures agent == old(agent).(isSpeaking := false)
      ensures history == old(history) && lastMessage == old(lastMessage)
      ensures requests == old(requests) + [CancelSpeech]
    {
      requests := requests + [CancelSpeech];
      agent := agent.(isSpeaking := false);
    }

    /** `setEmotion`: only the emotion changes. */
    method SetEmotion(e: Emotion)
      modifies this
      ensures agent == old(agent).(currentEmotion := e)
      ensures history == old(history) && lastMessage == old(lastMessage) && requests == old(requests)
    {
      agent := agent.(currentEmotion := e);
    }

    /** `clearConversation`: the hook's history becomes empty and the remote service, if any, is told to clear its own. */
    method ClearConversation()
      modifies this
      ensures history == [] && agent == old(agent) && lastMessage == old(lastMessage)
      ensures requests == old(requests) + (if hasRemote then [ClearRemoteHistory] else [])
    {
      history := [];
      if hasRemote {
        requests := requests + [ClearRemoteHistory];
      }
    }

    /** The recognition start callback: the agent shows listening. */
    method OnRecognitionStart()
      modifies this
      ensures agent == old(agent).(isListening := true)
      ensures history == old(history) && lastMessage == old(lastMessage) && requests == old(requests)
    {
      agent := agent.(isListening := true);
    }

    /** The recognition end callback: the agent stops showing listening. */
    method OnRecognitionEnd()
      modifies this
      ensures agent == old(agent).(isListening := false)
      ensures history == old(history) && lastMessage == old(lastMessage) && requests == old(requests)
    {
      agent := agent.(isListening := false);
    }

    /** The recognition error callback: whatever the error, the agent stops showing listening. */
    method OnRecognitionError(code: string)
      modifies this
      ensures agent == old(agent).(isListening := false)
      ensures history == old(history) && lastMessage == old(lastMessage) && requests == old(requests)
    {
      agent := agent.(isListening := false);
    }

    /**
     * The recognition result callback: only a final, non-empty transcript
     * becomes a user message, taking a whole turn with it; interim and empty
     * results change nothing.
     */
    method OnRecognitionResult(result: Speech.SpeechResult, remoteReady: bool, remoteOutcome: Option<Reply>)
      returns (r: Option<Reply>)
      modifies this
      ensures !(result.isFinal && |result.transcript| > 0) ==>
                r == None && agent == old(agent) && history == old(history)
                && lastMessage == old(lastMessage) && requests == old(requests)
      ensures result.isFinal && |result.transcript| > 0 && Trim(result.transcript) == [] ==>
                r == None && agent == old(agent) && history == old(history)
                && lastMessage == old(lastMessage) && requests == old(requests)
      ensures result.isFinal && Trim(result.transcript) != [] ==>
                r.Some? && lastMessage == result.transcript && |history| > |old(history)|
                && history[|old(history)|] == Turn(User, result.transcript)
      ensures result.isFinal && Trim(result.transcript) != [] ==>
                TurnTaken(result.transcript, remoteReady, remoteOutcome, r)
    {
      r := None;
      if result.isFinal && |result.transcript| > 0 {
        r := HandleUserMessage(result.transcript, remoteReady, remoteOutcome);
      }
    }

    /** The utterance start callback of `speakMessage`. */
    method OnSpeechStart()
      modifies this
      ensures agent == old(agent).(isSpeaking := true)
      ensures history == old(history) && lastMessage == old(lastMessage) && requests == old(requests)
    {
      agent := agent.(isSpeaking := true);
    }

    /** The utterance end callback of `speakMessage`. */
    method OnSpeechEnd()
      modifies this
      ensures agent == old(agent).(isSpeaking := false)
      ensures history == old(history) && lastMessage == old(lastMessage) && requests == old(requests)
    {
      agent := agent.(isSpeaking := false);
    }

    /** Unmounting: disconnect the remote service, stop capture, cancel speech. */
    method Unmount()
      modifies this
      ensures agent == old(agent) && history == old(history) && lastMessage == old(lastMessage)
      ensures requests == old(requests) + (if hasRemote then [DisconnectRemote] else []) + [StopCapture, CancelSpeech]
    {
      if hasRemote {
        requests := requests + [DisconnectRemote];
      }
      requests := requests + [StopCapture, CancelSpeech];
    }

    /** `isConnected`: a remote service exists and reports ready. */
    function IsConnected(remoteReady: bool): (c: bool)
      reads this
      ensures c <==> hasRemote && remoteReady
    {
      hasRemote && remoteReady
    }
  }
}
