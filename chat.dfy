/**
 * The study-assistant chat: a per-user message log that `sendMessage` appends
 * to and `clearChat` empties, the keyword-matched canned replies used when the
 * text-generation service is not configured or fails, and the reference links
 * attached according to the user's message.
 */
module Chat {
  import opened Js

  type UserId = string

  datatype Role = User | Assistant

  datatype Link = Link(title: string, url: string)

  /**
   * The content of a logged message: a text as typed or as the service wrote
   * it, or one of the canned replies, identified by which reply it is.
   */
  datatype Content = Text(text: string) | Canned(reply: Reply)

  /** One logged message; a user message carries no links. */
  datatype Message = Message(role: Role, content: Content, links: seq<Link>)

  /** A message as the text-generation service receives it: role and content only. */
  datatype Turn = Turn(role: Role, content: Content)

  /**
   * The external text-generation service: absent when no key is configured,
   * otherwise a call that answers the conversation with a text or fails (None).
   */
  datatype AiService = Unconfigured | Configured(complete: seq<Turn> -> Option<string>)

  /** The answer of `sendMessage`. */
  datatype ChatResponse = ChatResponse(message: Content, links: seq<Link>)

  /** The 400 answer "Message is required". */
  datatype ChatError = MessageRequired

  // ---------------------------------------------------------------------------
  // Canned replies

  /** The canned replies, in the order `generateDefaultResponse` tests for them. */
  datatype Reply = PomodoroReply | MemoryReply | ScheduleReply | FocusReply | TechniqueReply | GeneralReply

  function ReplyRank(r: Reply): nat {
    match r
    case PomodoroReply => 0
    case MemoryReply => 1
    case ScheduleReply => 2
    case FocusReply => 3
    case TechniqueReply => 4
    case GeneralReply => 5
  }

  /** The words that select each reply; the general reply is selected by none. */
  function Keywords(r: Reply): seq<string> {
    match r
    case PomodoroReply => ["pomodoro", "timer"]
    case MemoryReply => ["memory", "remember"]
    case ScheduleReply => ["schedule", "time"]
    case FocusReply => ["focus", "concentrate"]
    case TechniqueReply => ["technique", "method"]
    case GeneralReply => []
  }

  /** The lower-cased message contains one of the reply's words. */
  predicate Mentions(lower: string, r: Reply) {
    exists k :: 0 <= k < |Keywords(r)| && Includes(lower, Keywords(r)[k])
  }

  lemma MentionsPair(lower: string, r: Reply)
    requires r != GeneralReply
    ensures Mentions(lower, r) <==> Includes(lower, Keywords(r)[0]) || Includes(lower, Keywords(r)[1])
  {
    if Includes(lower, Keywords(r)[0]) {
      assert 0 < |Keywords(r)|;
    }
    if Includes(lower, Keywords(r)[1]) {
      assert 1 < |Keywords(r)|;
    }
  }

  /**
   * The reply `generateDefaultResponse` picks: the first, in rank order, whose
   * words the lower-cased message contains, or the general reply when none match.
   */
  function ClassifyMessage(userMessage: string): (r: Reply)
    ensures r != GeneralReply ==> Mentions(ToLowerCase(userMessage), r)
    ensures forall q: Reply :: ReplyRank(q) < ReplyRank(r) ==> !Mentions(ToLowerCase(userMessage), q)
  {
    var lower := ToLowerCase(userMessage);
    MentionsPair(lower, PomodoroReply);
    MentionsPair(lower, MemoryReply);
    MentionsPair(lower, ScheduleReply);
    MentionsPair(lower, FocusReply);
    MentionsPair(lower, TechniqueReply);
    if Includes(lower, "pomodoro") || Includes(lower, "timer") then PomodoroReply
    else if Includes(lower, "memory") || Includes(lower, "remember") then MemoryReply
    else if Includes(lower, "schedule") || Includes(lower, "time") then ScheduleReply
    else if Includes(lower, "focus") || Includes(lower, "concentrate") then FocusReply
    else if Includes(lower, "technique") || Includes(lower, "method") then TechniqueReply
    else GeneralReply
  }

  /** `generateDefaultResponse(userMessage)` */
  function DefaultResponse(userMessage: string): Content {
    Canned(ClassifyMessage(userMessage))
  }

  /**
   * A message mentioning "timer" gets the pomodoro reply although it also
   * mentions "time", a word of the schedule reply: the first match wins.
   */
  lemma TimerBeatsTime(userMessage: string)
    requires Includes(ToLowerCase(userMessage), "timer")
    ensures ClassifyMessage(userMessage) == PomodoroReply
    ensures Mentions(ToLowerCase(userMessage), ScheduleReply)
  {
    var lower := ToLowerCase(userMessage);
    assert "timer"[0..4] == "time";
    IncludesPart(lower, "timer", "time", 0);
    MentionsPair(lower, ScheduleReply);
  }

  // ---------------------------------------------------------------------------
  // Reference links

  datatype LinkRule = LinkRule(phrase: string, link: Link)

  const PomodoroLink := Link("Pomodoro Technique - Wikipedia", "https://en.wikipedia.org/wiki/Pomodoro_Technique")
  const SpacedRepetitionLink := Link("Spaced Repetition - Research", "https://en.wikipedia.org/wiki/Spaced_repetition")
  const ActiveRecallLink := Link("Active Recall Study Method", "https://www.usa.edu/blog/active-recall-study-method/")

  /** The phrases `extractLinks` looks for, in the order it tests them. */
  const LinkRules: seq<LinkRule> := [
    LinkRule("pomodoro", PomodoroLink),
    LinkRule("spaced repetition", SpacedRepetitionLink),
    LinkRule("active recall", ActiveRecallLink)]

  /** The links of the rules whose phrase the lower-cased message contains, in rule order. */
  function LinksMatching(lower: string, rules: seq<LinkRule>): seq<Link> {
    if rules == [] then []
    else (if Includes(lower, rules[0].phrase) then [rules[0].link] else []) + LinksMatching(lower, rules[1..])
  }

  /**
   * `extractLinks`: three independent phrase tests on the lower-cased user
   * message, each pushing its link; the assistant's reply is not consulted.
   */
  method ExtractLinks(userMessage: string, aiResponse: Content) returns (links: seq<Link>)
    ensures links == LinksMatching(ToLowerCase(userMessage), LinkRules)
  {
    links := [];
    var lowerMessage := ToLowerCase(userMessage);
    if Includes(lowerMessage, "pomodoro") {
      links := links + [PomodoroLink];
    }
    if Includes(lowerMessage, "spaced repetition") {
      links := links + [SpacedRepetitionLink];
    }
    if Includes(lowerMessage, "active recall") {
      links := links + [ActiveRecallLink];
    }
    LinksUnfolded(lowerMessage);
  }

  /** The selection written out phrase by phrase. */
  lemma LinksUnfolded(lower: string)
    ensures LinksMatching(lower, LinkRules)
            == (if Includes(lower, "pomodoro") then [PomodoroLink] else [])
               + (if Includes(lower, "spaced repetition") then [SpacedRepetitionLink] else [])
               + (if Includes(lower, "active recall") then [ActiveRecallLink] else [])
  {
    var r2 := [LinkRule("active recall", ActiveRecallLink)];
    var r1 := [LinkRule("spaced repetition", SpacedRepetitionLink)] + r2;
    assert r2[1..] == [] && r1[1..] == r2 && LinkRules[1..] == r1;
    assert LinksMatching(lower, r2)
           == (if Includes(lower, "active recall") then [ActiveRecallLink] else []) + LinksMatching(lower, []);
    assert LinksMatching(lower, r1)
           == (if Includes(lower, "spaced repetition") then [SpacedRepetitionLink] else []) + LinksMatching(lower, r2);
  }

  /**
   * At most three links, each present exactly when its phrase occurs in the
   * lower-cased message, and in the order pomodoro, spaced repetition, active recall.
   */
  lemma LinksPresentIff(userMessage: string)
    ensures var links := LinksMatching(ToLowerCase(userMessage), LinkRules);
      && |links| <= 3
      && (PomodoroLink in links <==> Includes(ToLowerCase(userMessage), "pomodoro"))
      && (SpacedRepetitionLink in links <==> Includes(ToLowerCase(userMessage), "spaced repetition"))
      && (ActiveRecallLink in links <==> Includes(ToLowerCase(userMessage), "active recall"))
      && forall i, j :: 0 <= i < j < |links| ==> LinkRank(links[i]) < LinkRank(links[j])
  {
    LinksUnfolded(ToLowerCase(userMessage));
    assert PomodoroLink.title[0] == 'P' && SpacedRepetitionLink.title[0] == 'S' && ActiveRecallLink.title[0] == 'A';
  }

  /** The position of a link's rule, read off its title. */
  function LinkRank(link: Link): nat {
    if link == PomodoroLink then 0 else if link == SpacedRepetitionLink then 1 else 2
  }

  /**
   * A message mentioning "pomodoro" but neither other phrase gets exactly the
   * one link titled "Pomodoro Technique - Wikipedia".
   */
  lemma PomodoroOnlyLink(userMessage: string)
    requires Includes(ToLowerCase(userMessage), "pomodoro")
    requires !Includes(ToLowerCase(userMessage), "spaced repetition")
    requires !Includes(ToLowerCase(userMessage), "active recall")
    ensures LinksMatching(ToLowerCase(userMessage), LinkRules) == [PomodoroLink]
    ensures LinksMatching(ToLowerCase(userMessage), LinkRules)[0].title == "Pomodoro Technique - Wikipedia"
  {
    LinksUnfolded(ToLowerCase(userMessage));
  }

  // ---------------------------------------------------------------------------
  // The exchange `sendMessage` appends

  const ContextSize: nat := 5

  function TurnOf(m: Message): Turn {
    Turn(m.role, m.content)
  }

  /** `messages.slice(-5)` stripped to role and content. */
  function ContextWindow(messages: seq<Message>): seq<Turn> {
    var start := if |messages| < ContextSize then 0 else |messages| - ContextSize;
    seq(|messages| - start, k requires 0 <= k < |messages| - start => TurnOf(messages[start + k]))
  }

  /**
   * The service sees the last min(5, n) messages of the log, oldest first,
   * ending with the message just appended.
   */
  lemma ContextWindowIsSuffix(log: seq<Message>, m: Message)
    ensures var w := ContextWindow(log + [m]);
      && |w| == (if |log| + 1 < ContextSize then |log| + 1 else ContextSize)
      && w[|w| - 1] == TurnOf(m)
      && forall k :: 0 <= k < |w| ==> w[k] == TurnOf((log + [m])[|log| + 1 - |w| + k])
  {
  }

  /** The assistant's text: the service's answer, or the canned reply when there is none. */
  function AssistantContent(ai: AiService, withUser: seq<Message>, userMessage: string): Content {
    if ai.Configured? && ai.complete(ContextWindow(withUser)).Some? then Text(ai.complete(ContextWindow(withUser)).value)
    else DefaultResponse(userMessage)
  }

  /** The log after one successful `sendMessage`. */
  function Exchange(log: seq<Message>, userMessage: string, ai: AiService): seq<Message> {
    var withUser := log + [Message(User, Text(userMessage), [])];
    withUser + [Message(Assistant, AssistantContent(ai, withUser, userMessage),
                        LinksMatching(ToLowerCase(userMessage), LinkRules))]
  }

  /**
   * An exchange appends exactly two messages, the user's then the
   * assistant's, and leaves the earlier ones as they were.
   */
  lemma ExchangeAppendsTwo(log: seq<Message>, userMessage: string, ai: AiService)
    ensures var ex := Exchange(log, userMessage, ai);
      && |ex| == |log| + 2
      && ex[..|log|] == log
      && ex[|log|] == Message(User, Text(userMessage), [])
      && ex[|log| + 1].role == Assistant
      && ex[|log| + 1].links == LinksMatching(ToLowerCase(userMessage), LinkRules)
  {
    var ex := Exchange(log, userMessage, ai);
    assert ex[..|log|] == log;
  }

  /** Whenever the service is absent or fails, the assistant's text is the canned reply. */
  lemma ExchangeFallsBack(log: seq<Message>, userMessage: string, ai: AiService)
    requires ai.Unconfigured? || ai.complete(ContextWindow(log + [Message(User, Text(userMessage), [])])).None?
    ensures Exchange(log, userMessage, ai)[|log| + 1].content == DefaultResponse(userMessage)
  {
  }

  /** The service call of `sendMessage`, falling back to the canned reply. */
  method Respond(ai: AiService, withUser: seq<Message>, userMessage: string) returns (content: Content)
    ensures content == AssistantContent(ai, withUser, userMessage)
  {
    if ai.Configured? {
      var answer := ai.complete(ContextWindow(withUser));
      if answer.Some? {
        return Text(answer.value);
      }
    }
    content := DefaultResponse(userMessage);
  }

  /**
   * The body of `sendMessage` once the message is accepted: append the user's
   * message, ask the service (or fall back), attach the links, append the reply.
   */
  method AppendExchange(log: seq<Message>, userMessage: string, ai: AiService)
    returns (messages: seq<Message>, reply: Message)
    ensures messages == Exchange(log, userMessage, ai)
    ensures reply == messages[|messages| - 1]
  {
    messages := log + [Message(User, Text(userMessage), [])];
    var aiResponse := Respond(ai, messages, userMessage);
    var links := ExtractLinks(userMessage, aiResponse);
    reply := Message(Assistant, aiResponse, links);
    messages := messages + [reply];
  }

  // ---------------------------------------------------------------------------
  // The per-user logs

  /** The stored chats, one message log per user. */
  class ChatStore {
    var logs: map<UserId, seq<Message>>

    constructor ()
      ensures logs == map[]
    {
      logs := map[];
    }

    /** The user's log, empty when none has been created yet. */
    function LogOf(user: UserId): seq<Message>
      reads this
    {
      if user in logs then logs[user] else []
    }

    /** `getOrCreateChat`: the existing log unchanged, or a new log with no messages. */
    method GetOrCreateChat(user: UserId) returns (messages: seq<Message>)
      modifies this
      ensures user in old(logs) ==> logs == old(logs) && messages == old(logs)[user]
      ensures user !in old(logs) ==> logs == old(logs)[user := []] && messages == []
    {
      if user !in logs {
        logs := logs[user := []];
      }
      messages := logs[user];
    }

    /**
     * `sendMessage`: an absent or empty message is refused and nothing is
     * stored; otherwise the user's message and the assistant's reply are
     * appended to the user's log and the reply is answered with its links.
     */
    method SendMessage(user: UserId, message: Option<string>, ai: AiService)
      returns (r: Result<ChatResponse, ChatError>)
      modifies this
      ensures !TruthyString(message) ==> r == Err(MessageRequired) && logs == old(logs)
      ensures TruthyString(message) ==>
        var ex := Exchange(old(LogOf(user)), message.value, ai);
        && logs == old(logs)[user := ex]
        && r == Ok(ChatResponse(ex[|ex| - 1].content, ex[|ex| - 1].links))
    {
      if !TruthyString(message) {
        return Err(MessageRequired);
      }
      var text := message.value;
      var messages := GetOrCreateChat(user);
      var reply: Message;
      messages, reply := AppendExchange(messages, text, ai);
      logs := logs[user := messages];
      r := Ok(ChatResponse(reply.content, reply.links));
    }

    /** `getChatHistory`: the user's messages, creating an empty log when there is none. */
    method GetChatHistory(user: UserId) returns (messages: seq<Message>)
      modifies this
      ensures messages == old(LogOf(user))
      ensures logs == old(logs)[user := messages]
    {
      messages := GetOrCreateChat(user);
    }

    /** `clearChat`: the user's log becomes empty; other users' logs are untouched. */
    method ClearChat(user: UserId)
      modifies this
      ensures logs == old(logs)[user := []]
    {
      var _ := GetOrCreateChat(user);
      logs := logs[user := []];
    }
  }
}
