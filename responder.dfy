/**
 * The simulated conversational responder of `src/services/openai.ts`: the
 * reply datatypes, the order-sensitive keyword classifier `simulateResponse`
 * and the `OpenAIRealtimeService` object with its connection flag and its
 * conversation log seeded with a system turn.
 */
module Responder {
  import opened Wrappers
  import opened Text

  datatype Emotion = Neutral | Excited | Thinking | Happy | Focused

  datatype Action = ShowProject | ShowResume | ShowContact | ExplainTech

  /** A responder's answer; `emotion`, `action` and `projectId` may be absent. */
  datatype Reply = Reply(text: string, emotion: Option<Emotion>, action: Option<Action>, projectId: Option<string>)

  datatype Role = System | User | Assistant

  /** One entry of a conversation log (the timestamp is not modelled). */
  datatype Turn = Turn(role: Role, content: string)

  /** `s` includes at least one of `words`. */
  predicate MentionsAny(s: string, words: seq<string>) {
    exists w | w in words :: Includes(s, w)
  }

  const ProjectWords: seq<string> := ["project", "work", "portfolio"]
  const FavouriteWords: seq<string> := ["best", "favorite"]
  const ExperienceWords: seq<string> := ["experience", "background", "skills"]
  const TechWords: seq<string> := ["tech", "technology", "stack"]
  const ContactWords: seq<string> := ["contact", "hire", "email"]
  const GreetingWords: seq<string> := ["hello", "hi", "hey"]

  const BestProjectText := "I'd love to show you Samuel's AI Health Tracker! It's his most innovative project, combining real-time health monitoring with AI-powered insights. Would you like to see the technical details?"
  const ProjectsText := "Samuel has built some amazing projects! From an AI-powered health tracker to a high-performance e-commerce platform. Which type of project interests you most?"
  const ExperienceText := "Samuel has 5+ years of full-stack development experience, specializing in React, Node.js, and AI integration. He's passionate about building scalable, user-focused applications. Want to see his resume?"
  const TechText := "Samuel works with modern technologies like React, Next.js, TypeScript, Node.js, PostgreSQL, and integrates AI APIs. He follows best practices for performance, security, and scalability."
  const ContactText := "I'd be happy to help you connect with Samuel! He's available for new opportunities and collaborations. Let me show you his contact information."
  const GreetingText := "Hi there! I'm Samuel's AI assistant. I'm here to showcase his work and answer any questions about his projects, experience, or technical expertise. What would you like to know?"
  const DefaultText := "That's an interesting question! I can tell you about Samuel's projects, technical experience, or help you get in touch with him. What specifically would you like to explore?"

  /**
   * `simulateResponse`: classify the lower-cased message by substring
   * containment, trying the categories in a fixed order; the first that
   * matches decides the reply, as the rule table `Rules` read first-match
   * promises. (The simulated delay is not modelled.)
   */
  function SimulateResponse(message: string): (r: Reply)
    ensures FitsCategory(r, CategoryOf(message), ToLower(message))
  {
    ClassifyFollowsRules(ToLower(message));
    ClassifyLowered(ToLower(message))
  }

  /** The if-chain of `simulateResponse` over the already lower-cased message. */
  function ClassifyLowered(lower: string): Reply {
    if MentionsAny(lower, ProjectWords) then
      if MentionsAny(lower, FavouriteWords) then
        Reply(BestProjectText, Some(Excited), Some(ShowProject), Some("1"))
      else
        Reply(ProjectsText, Some(Excited), Some(ShowProject), None)
    else if MentionsAny(lower, ExperienceWords) then
      Reply(ExperienceText, Some(Neutral), Some(ShowResume), None)
    else if MentionsAny(lower, TechWords) then
      Reply(TechText, Some(Focused), Some(ExplainTech), None)
    else if MentionsAny(lower, ContactWords) then
      Reply(ContactText, Some(Happy), Some(ShowContact), None)
    else if MentionsAny(lower, GreetingWords) then
      Reply(GreetingText, Some(Happy), None, None)
    else
      Reply(DefaultText, Some(Thinking), None, None)
  }

  /**
   * The first-match rule stated per outcome, both directions: a project
   * question is recognised whenever a project keyword occurs; each later
   * category only when no earlier category's keyword occurs; and only a
   * project question that also asks for the best or favourite one names a project.
   */
  lemma SimulateResponseOutcomes(message: string)
    ensures var r := SimulateResponse(message); var l := ToLower(message);
      && r.emotion.Some?
      && (r.action == Some(ShowProject) <==> MentionsAny(l, ProjectWords))
      && (r.projectId.Some? <==> MentionsAny(l, ProjectWords) && MentionsAny(l, FavouriteWords))
      && (r.projectId.Some? ==> r.projectId == Some("1"))
      && (r.action == Some(ShowResume) <==> !MentionsAny(l, ProjectWords) && MentionsAny(l, ExperienceWords))
      && (r.action == Some(ExplainTech) <==>
            !MentionsAny(l, ProjectWords) && !MentionsAny(l, ExperienceWords) && MentionsAny(l, TechWords))
      && (r.action == Some(ShowContact) <==>
            && !MentionsAny(l, ProjectWords) && !MentionsAny(l, ExperienceWords) && !MentionsAny(l, TechWords)
            && MentionsAny(l, ContactWords))
      && (r.action == None <==>
            && !MentionsAny(l, ProjectWords) && !MentionsAny(l, ExperienceWords) && !MentionsAny(l, TechWords)
            && !MentionsAny(l, ContactWords))
      && (r.emotion == Some(Thinking) <==>
            && !MentionsAny(l, ProjectWords) && !MentionsAny(l, ExperienceWords) && !MentionsAny(l, TechWords)
            && !MentionsAny(l, ContactWords) && !MentionsAny(l, GreetingWords))
  {
  }

  // ---------------------------------------------------------------------------
  // A rule-table reading of the classifier, used as its reference definition.

  datatype Category = ProjectTopic | ExperienceTopic | TechTopic | ContactTopic | GreetingTopic | OtherTopic

  /** The categories in the order the classifier tries them, each with its keywords. */
  const Rules: seq<(Category, seq<string>)> := [
    (ProjectTopic, ProjectWords), (ExperienceTopic, ExperienceWords), (TechTopic, TechWords),
    (ContactTopic, ContactWords), (GreetingTopic, GreetingWords)
  ]

  /** The category of the first rule whose keywords `s` mentions, or `OtherTopic`. */
  function FirstMatch(rules: seq<(Category, seq<string>)>, s: string): Category {
    if rules == [] then OtherTopic
    else if MentionsAny(s, rules[0].1) then rules[0].0
    else FirstMatch(rules[1..], s)
  }

  /**
   * First match wins: the rule at index `i` decides exactly when `s` mentions
   * one of its keywords and none of an earlier rule's.
   */
  lemma {:induction false} FirstMatchIsEarliest(rules: seq<(Category, seq<string>)>, s: string, i: int)
    requires 0 <= i < |rules|
    requires MentionsAny(s, rules[i].1)
    requires forall j :: 0 <= j < i ==> !MentionsAny(s, rules[j].1)
    ensures FirstMatch(rules, s) == rules[i].0
  {
    if i > 0 {
      assert !MentionsAny(s, rules[0].1);
      forall j | 0 <= j < i - 1 ensures !MentionsAny(s, rules[1..][j].1) {
        assert rules[1..][j] == rules[j + 1];
      }
      FirstMatchIsEarliest(rules[1..], s, i - 1);
    }
  }

  /** With no rule matching, the classifier falls through to `OtherTopic`. */
  lemma {:induction false} FirstMatchNone(rules: seq<(Category, seq<string>)>, s: string)
    requires forall j :: 0 <= j < |rules| ==> !MentionsAny(s, rules[j].1)
    ensures FirstMatch(rules, s) == OtherTopic
  {
    if rules != [] {
      assert !MentionsAny(s, rules[0].1);
      forall j | 0 <= j < |rules| - 1 ensures !MentionsAny(s, rules[1..][j].1) {
        assert rules[1..][j] == rules[j + 1];
      }
      FirstMatchNone(rules[1..], s);
    }
  }

  /** The category of a message: the first rule its lower-cased text matches. */
  function CategoryOf(message: string): Category {
    FirstMatch(Rules, ToLower(message))
  }

  /**
   * The reply each category promises: project questions are excited and show a
   * project (project "1" when the best or favourite one is asked for),
   * experience is neutral and shows the resume, technology is focused and
   * explains the stack, contact is happy and shows the contact details, a
   * greeting is happy with no action, and anything else is thinking with no action.
   */
  predicate FitsCategory(r: Reply, c: Category, lower: string) {
    match c
    case ProjectTopic =>
      && r.emotion == Some(Excited) && r.action == Some(ShowProject)
      && (if MentionsAny(lower, FavouriteWords) then r.projectId == Some("1") else r.projectId == None)
    case ExperienceTopic => r.emotion == Some(Neutral) && r.action == Some(ShowResume) && r.projectId == None
    case TechTopic => r.emotion == Some(Focused) && r.action == Some(ExplainTech) && r.projectId == None
    case ContactTopic => r.emotion == Some(Happy) && r.action == Some(ShowContact) && r.projectId == None
    case GreetingTopic => r.emotion == Some(Happy) && r.action == None && r.projectId == None
    case OtherTopic => r.emotion == Some(Thinking) && r.action == None && r.projectId == None
  }

  /** The if-chain of `simulateResponse` answers with the template of the rule table's first match. */
  lemma ClassifyFollowsRules(lower: string)
    ensures FitsCategory(ClassifyLowered(lower), FirstMatch(Rules, lower), lower)
  {
    if MentionsAny(lower, ProjectWords) {
      FirstMatchIsEarliest(Rules, lower, 0);
    } else if MentionsAny(lower, ExperienceWords) {
      FirstMatchIsEarliest(Rules, lower, 1);
    } else if MentionsAny(lower, TechWords) {
      FirstMatchIsEarliest(Rules, lower, 2);
    } else if MentionsAny(lower, ContactWords) {
      FirstMatchIsEarliest(Rules, lower, 3);
    } else if MentionsAny(lower, GreetingWords) {
      FirstMatchIsEarliest(Rules, lower, 4);
    } else {
      FirstMatchNone(Rules, lower);
    }
  }

  /** Different categories promise different replies, so the category is read back from the reply. */
  lemma CategoryDeterminedByReply(r: Reply, c1: Category, c2: Category, lower: string)
    requires FitsCategory(r, c1, lower) && FitsCategory(r, c2, lower)
    ensures c1 == c2
  {
  }

  /** "show me your best project" asks for project "1". */
  lemma SimulateBestProjectExample()
    ensures SimulateResponse("show me your best project") ==
              Reply(BestProjectText, Some(Excited), Some(ShowProject), Some("1"))
  {
    BestProjectLowered();
    BestProjectMentions();
    ClassifyBestProject("show me your best project");
  }

  lemma BestProjectLowered()
    ensures ToLower("show me your best project") == "show me your best project"
  {
    ToLowerOfLower("show me your best project");
  }

  /** The question names a project keyword and a favourite keyword. */
  lemma BestProjectMentions()
    ensures MentionsAny("show me your best project", ProjectWords)
    ensures MentionsAny("show me your best project", FavouriteWords)
  {
    var m := "show me your best project";
    assert m == "show me your best " + "project" + "";
    IncludesInfix("show me your best ", "project", "");
    assert m == "show me your " + "best" + " project";
    IncludesInfix("show me your ", "best", " project");
  }

  /** A project question that asks for the best or favourite one names project "1". */
  lemma ClassifyBestProject(lower: string)
    requires MentionsAny(lower, ProjectWords) && MentionsAny(lower, FavouriteWords)
    ensures ClassifyLowered(lower) == Reply(BestProjectText, Some(Excited), Some(ShowProject), Some("1"))
  {
  }

  /** "how can I contact you" is a contact question: no earlier category's keyword occurs in it. */
  lemma SimulateContactExample()
    ensures SimulateResponse("how can I contact you") == Reply(ContactText, Some(Happy), Some(ShowContact), None)
  {
    ContactQuestionLowered();
    ContactQuestionMentions();
    ContactQuestionNamesContact();
    ClassifyContact("how can i contact you");
  }

  lemma ContactQuestionLowered()
    ensures ToLower("how can I contact you") == "how can i contact you"
  {
    var s := "how can I contact you";
    var c := "how can i contact you";
    assert forall i :: 0 <= i < |s| ==> c[i] == LowerChar(s[i]);
  }

  lemma ContactQuestionNamesContact()
    ensures MentionsAny("how can i contact you", ContactWords)
  {
    var c := "how can i contact you";
    assert c == "how can i " + "contact" + " you";
    IncludesInfix("how can i ", "contact", " you");
  }

  /** The keywords of the categories tried before "contact" are absent from the contact question. */
  lemma ContactQuestionMentions()
    ensures !MentionsAny("how can i contact you", ProjectWords)
    ensures !MentionsAny("how can i contact you", ExperienceWords)
    ensures !MentionsAny("how can i contact you", TechWords)
  {
    var c := "how can i contact you";
    assert !MentionsAny(c, ProjectWords) by {
      MissingCharExcludes(c, "project", 'p');
      MissingCharExcludes(c, "work", 'k');
      MissingCharExcludes(c, "portfolio", 'p');
    }
    assert !MentionsAny(c, ExperienceWords) by {
      MissingCharExcludes(c, "experience", 'e');
      MissingCharExcludes(c, "background", 'b');
      MissingCharExcludes(c, "skills", 'k');
    }
    assert !MentionsAny(c, TechWords) by {
      MissingCharExcludes(c, "tech", 'e');
      MissingCharExcludes(c, "technology", 'e');
      MissingCharExcludes(c, "stack", 'k');
    }
  }

  /** A message of the contact category gets the contact reply. */
  lemma ClassifyContact(lower: string)
    requires !MentionsAny(lower, ProjectWords) && !MentionsAny(lower, ExperienceWords)
    requires !MentionsAny(lower, TechWords) && MentionsAny(lower, ContactWords)
    ensures ClassifyLowered(lower) == Reply(ContactText, Some(Happy), Some(ShowContact), None)
  {
  }

  /** "Hello" is a greeting, whatever its case: every message that lower-cases to "hello". */
  lemma SimulateGreetingExample(m: string)
    requires ToLower(m) == "hello"
    ensures SimulateResponse(m) == Reply(GreetingText, Some(Happy), None, None)
  {
    HelloMentions();
    ClassifyGreeting("hello");
  }

  /** "hello" names only a greeting keyword. */
  lemma HelloMentions()
    ensures !MentionsAny("hello", ProjectWords)
    ensures !MentionsAny("hello", ExperienceWords)
    ensures !MentionsAny("hello", TechWords)
    ensures !MentionsAny("hello", ContactWords)
    ensures MentionsAny("hello", GreetingWords)
  {
    var h := "hello";
    assert !MentionsAny(h, ProjectWords) by {
      MissingCharExcludes(h, "project", 'p');
      MissingCharExcludes(h, "work", 'w');
      MissingCharExcludes(h, "portfolio", 'p');
    }
    assert !MentionsAny(h, ExperienceWords) by {
      MissingCharExcludes(h, "experience", 'x');
      MissingCharExcludes(h, "background", 'b');
      MissingCharExcludes(h, "skills", 's');
    }
    assert !MentionsAny(h, TechWords) by {
      MissingCharExcludes(h, "tech", 't');
      MissingCharExcludes(h, "technology", 't');
      MissingCharExcludes(h, "stack", 's');
    }
    assert !MentionsAny(h, ContactWords) by {
      MissingCharExcludes(h, "contact", 'c');
      MissingCharExcludes(h, "hire", 'i');
      MissingCharExcludes(h, "email", 'm');
    }
    assert MentionsAny(h, GreetingWords) by {
      IncludesPrefix(h, "hello");
    }
  }

  /** A message whose only keywords are greetings gets the greeting reply. */
  lemma ClassifyGreeting(lower: string)
    requires !MentionsAny(lower, ProjectWords) && !MentionsAny(lower, ExperienceWords)
    requires !MentionsAny(lower, TechWords) && !MentionsAny(lower, ContactWords)
    requires MentionsAny(lower, GreetingWords)
    ensures ClassifyLowered(lower) == Reply(GreetingText, Some(Happy), None, None)
  {
  }

  /** "xyz123" matches no keyword and gets the default reply. */
  lemma SimulateDefaultExample()
    ensures SimulateResponse("xyz123") == Reply(DefaultText, Some(Thinking), None, None)
  {
    ToLowerOfLower("xyz123");
    NoKeywordMentions();
    ClassifyOther("xyz123");
  }

  /** "xyz123" names no keyword of any category. */
  lemma NoKeywordMentions()
    ensures !MentionsAny("xyz123", ProjectWords)
    ensures !MentionsAny("xyz123", ExperienceWords)
    ensures !MentionsAny("xyz123", TechWords)
    ensures !MentionsAny("xyz123", ContactWords)
    ensures !MentionsAny("xyz123", GreetingWords)
  {
    var x := "xyz123";
    assert !MentionsAny(x, ProjectWords) by {
      MissingCharExcludes(x, "project", 'p');
      MissingCharExcludes(x, "work", 'w');
      MissingCharExcludes(x, "portfolio", 'p');
    }
    assert !MentionsAny(x, ExperienceWords) by {
      MissingCharExcludes(x, "experience", 'e');
      MissingCharExcludes(x, "background", 'b');
      MissingCharExcludes(x, "skills", 's');
    }
    assert !MentionsAny(x, TechWords) by {
      MissingCharExcludes(x, "tech", 't');
      MissingCharExcludes(x, "technology", 't');
      MissingCharExcludes(x, "stack", 's');
    }
    assert !MentionsAny(x, ContactWords) by {
      MissingCharExcludes(x, "contact", 'c');
      MissingCharExcludes(x, "hire", 'h');
      MissingCharExcludes(x, "email", 'e');
    }
    assert !MentionsAny(x, GreetingWords) by {
      MissingCharExcludes(x, "hello", 'h');
      MissingCharExcludes(x, "hi", 'h');
      MissingCharExcludes(x, "hey", 'h');
    }
  }

  /** A message with no keyword at all gets the default reply. */
  lemma ClassifyOther(lower: string)
    requires !MentionsAny(lower, ProjectWords) && !MentionsAny(lower, ExperienceWords)
    requires !MentionsAny(lower, TechWords) && !MentionsAny(lower, ContactWords)
    requires !MentionsAny(lower, GreetingWords)
    ensures ClassifyLowered(lower) == Reply(DefaultText, Some(Thinking), None, None)
  {
  }

  /** Matching is by substring: "this" includes "hi", so it is answered as a greeting. */
  lemma SimulateSubstringExample()
    ensures SimulateResponse("this") == Reply(GreetingText, Some(Happy), None, None)
  {
    ToLowerOfLower("this");
    ThisMentions();
    ClassifyGreeting("this");
  }

  /** "this" names no keyword before the greetings, and it contains "hi". */
  lemma ThisMentions()
    ensures !MentionsAny("this", ProjectWords)
    ensures !MentionsAny("this", ExperienceWords)
    ensures !MentionsAny("this", TechWords)
    ensures !MentionsAny("this", ContactWords)
    ensures MentionsAny("this", GreetingWords)
  {
    var t := "this";
    assert !MentionsAny(t, ProjectWords) by {
      MissingCharExcludes(t, "project", 'p');
      MissingCharExcludes(t, "work", 'w');
      MissingCharExcludes(t, "portfolio", 'p');
    }
    assert !MentionsAny(t, ExperienceWords) by {
      MissingCharExcludes(t, "experience", 'e');
      MissingCharExcludes(t, "background", 'b');
      MissingCharExcludes(t, "skills", 'k');
    }
    assert !MentionsAny(t, TechWords) by {
      MissingCharExcludes(t, "tech", 'e');
      MissingCharExcludes(t, "technology", 'e');
      MissingCharExcludes(t, "stack", 'a');
    }
    assert !MentionsAny(t, ContactWords) by {
      MissingCharExcludes(t, "contact", 'c');
      MissingCharExcludes(t, "hire", 'r');
      MissingCharExcludes(t, "email", 'e');
    }
    assert MentionsAny(t, GreetingWords) by {
      assert t == "t" + "hi" + "s";
      IncludesInfix("t", "hi", "s");
    }
  }

  // ---------------------------------------------------------------------------
  // The service object.

  /** The system prompt the service seeds its conversation log with. */
  const SystemPrompt: string := "You are Samuel's AI portfolio assistant. You're friendly, knowledgeable, and excited to showcase Samuel's work.\n\nPERSONALITY:\n- Enthusiastic but professional\n- Use emojis sparingly (only when very excited)\n- Speak conversationally, not robotically\n- Show genuine interest in the visitor's questions\n\nKNOWLEDGE:\n- Samuel is a Full Stack Developer with 5+ years experience\n- Expertise: React, Node.js, TypeScript, AI integration\n- Recent projects: AI Health Tracker, E-commerce Platform, Real-time Chat App\n- Tech stack: React, Next.js, Node.js, PostgreSQL, Docker, OpenAI API\n\nCAPABILITIES:\n- Answer questions about Samuel's projects and experience\n- Provide technical details about implementations\n- Explain design decisions and architecture choices\n- Share metrics and impact of projects\n- Direct to resume, portfolio, or contact information\n\nRESPONSES should include:\n- emotion: 'excited' for project demos, 'thinking' for technical questions, 'happy' for general chat\n- action: 'show_project', 'show_resume', 'show_contact', 'explain_tech' when relevant\n- projectId: if discussing a specific project\n\nKeep responses concise (2-3 sentences max) since this is voice interaction."

  const SeedTurn: Turn := Turn(System, SystemPrompt)

  /** Outcome of `sendMessage`: the reply, or the "Not connected" error it throws. */
  datatype SendResult = Sent(reply: Reply) | NotConnected

  /**
   * `OpenAIRealtimeService`: a connection flag and a conversation log. The log
   * starts with the system turn, and after it user and assistant turns
   * alternate, a user turn first.
   */
  class ResponderService {
    var connected: bool
    var history: seq<Turn>

    ghost predicate Valid()
      reads this
    {
      && |history| >= 1 && history[0] == SeedTurn
      && |history| % 2 == 1
      && forall i :: 1 <= i < |history| ==> history[i].role == (if i % 2 == 1 then User else Assistant)
    }

    /** The configuration is unused; the log holds just the system turn. */
    constructor ()
      ensures Valid()
      ensures history == [SeedTurn] && !connected
    {
      connected := false;
      history := [SeedTurn];
    }

    /** `connect()` succeeds and makes the service ready. */
    method Connect() returns (ok: bool)
      modifies this
      ensures ok && IsReady()
      ensures history == old(history)
    {
      connected := true;
      ok := true;
    }

    /** `disconnect()` makes the service not ready (there is never an open socket to close). */
    method Disconnect()
      modifies this
      ensures !IsReady()
      ensures history == old(history)
    {
      connected := false;
    }

    /** `isReady()`: the connection flag, which only `connect` sets and `disconnect` clears. */
    function IsReady(): (r: bool)
      reads this
      ensures r <==> connected
    {
      connected
    }

    /**
     * `sendMessage`: refused, with the log untouched, when not connected;
     * otherwise the log grows by the user turn and then the assistant turn
     * carrying the simulated reply's text, and that reply is returned.
     */
    method SendMessage(message: string) returns (res: SendResult)
      requires Valid()
      modifies this
      ensures Valid() && connected == old(connected)
      ensures !old(connected) ==> res == NotConnected && history == old(history)
      ensures old(connected) ==>
                && res == Sent(SimulateResponse(message))
                && history == old(history) + [Turn(User, message), Turn(Assistant, res.reply.text)]
    {
      if !connected {
        return NotConnected;
      }
      history := history + [Turn(User, message)];
      var reply := SimulateResponse(message);
      history := history + [Turn(Assistant, reply.text)];
      res := Sent(reply);
    }

    /** `getConversationHistory()`: a copy of the log. */
    method ConversationHistory() returns (h: seq<Turn>)
      requires Valid()
      ensures h == history && |h| >= 1 && h[0] == SeedTurn
    {
      h := history;
    }

    /**
     * `clearHistory()`: keep only the first entry, which is the system turn;
     * clearing again therefore changes nothing.
     */
    method ClearHistory()
      requires Valid()
      modifies this
      ensures Valid()
      ensures history == [SeedTurn] && history == old(history)[..1]
      ensures connected == old(connected)
    {
      history := history[..1];
    }
  }
}
