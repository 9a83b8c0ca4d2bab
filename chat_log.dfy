/**
 * `controllers/chatbot.controller.ts`: the assistant chat. The user's message is logged,
 * the session's first ten messages become the history, the prompt is the system entry
 * followed by that history, and the model's reply (or a fixed apology when it has no
 * content) is logged and returned. The language model is a parameter.
 */
module ChatController {
  import opened Wrappers
  import opened Seqs
  import opened Records

  /** A ChatMessage row; the log keeps rows in the order they were written, which is timestamp order. */
  datatype ChatMessage = ChatMessage(sessionId: string, message: string, sender: string)

  /** One entry of the prompt sent to the model. */
  datatype PromptEntry = PromptEntry(role: string, content: string)

  /** `{ message, sessionId }`. */
  datatype ChatReply = ChatReply(message: string, sessionId: string)

  const HistoryLimit: nat := 10

  function SessionIs(sessionId: string): ChatMessage -> bool
  {
    (m: ChatMessage) => m.sessionId == sessionId
  }

  /** The session's messages in log order. */
  function SessionMessages(log: seq<ChatMessage>, sessionId: string): (r: seq<ChatMessage>)
    ensures IsSubsequence(r, log)
    ensures forall m :: m in r <==> m in log && m.sessionId == sessionId
  {
    FilterIsSubsequence(log, SessionIs(sessionId));
    Filter(log, SessionIs(sessionId))
  }

  /** `findMany({ where: { sessionId }, orderBy: { timestamp: 'asc' }, take: 10 })`: the oldest ten. */
  function History(log: seq<ChatMessage>, sessionId: string): (r: seq<ChatMessage>)
    ensures |r| <= HistoryLimit
    ensures r <= SessionMessages(log, sessionId)
    ensures |SessionMessages(log, sessionId)| <= HistoryLimit ==> r == SessionMessages(log, sessionId)
    ensures forall m :: m in r ==> m in log && m.sessionId == sessionId
  {
    Take(SessionMessages(log, sessionId), HistoryLimit)
  }

  /** `msg.sender === 'user' ? 'user' : 'assistant'`. */
  function RoleOf(sender: string): (role: string)
    ensures role == "user" <==> sender == "user"
    ensures role != "user" ==> role == "assistant"
  {
    if sender == "user" then "user" else "assistant"
  }

  /** The system entry, then one entry per history message with its role and text. */
  function Prompt(systemPrompt: string, history: seq<ChatMessage>): (r: seq<PromptEntry>)
    ensures |r| == |history| + 1
    ensures r[0] == PromptEntry("system", systemPrompt)
    ensures forall i :: 0 <= i < |history| ==>
      r[i + 1].content == history[i].message && r[i + 1].role == RoleOf(history[i].sender)
  {
    [PromptEntry("system", systemPrompt)]
      + seq(|history|, i requires 0 <= i < |history| => PromptEntry(RoleOf(history[i].sender), history[i].message))
  }

  /** So the prompt holds at most eleven entries and only the first is a system entry. */
  lemma PromptBounded(systemPrompt: string, log: seq<ChatMessage>, sessionId: string)
    ensures |Prompt(systemPrompt, History(log, sessionId))| <= HistoryLimit + 1
    ensures forall i :: 1 <= i < |Prompt(systemPrompt, History(log, sessionId))| ==>
      Prompt(systemPrompt, History(log, sessionId))[i].role != "system"
  {
    var h := History(log, sessionId);
    var p := Prompt(systemPrompt, h);
    forall i | 1 <= i < |p| ensures p[i].role != "system" {
      assert p[(i - 1) + 1].role == RoleOf(h[i - 1].sender);
    }
  }

  /** `completion.choices[0].message.content || apology`: a missing or empty content is replaced. */
  function ReplyText(content: Option<string>, apology: string): (r: string)
    ensures Given(content) ==> r == content.value
    ensures !Given(content) ==> r == apology
  {
    if Given(content) then content.value else apology
  }

  /** The system prompt of the clinic's assistant, as the controller defines it. */
  function SmileCarePrompt(): string
  {
    "You are an AI dental assistant for SmileCare Dental Clinic. \nYou help patients with:\n"
    + "- Booking appointments\n"
    + "- Answering questions about services (teeth whitening, implants, orthodontics, etc.)\n"
    + "- Providing clinic information (hours: Mon-Fri 8AM-6PM, Sat 9AM-3PM)\n"
    + "- Emergency dental care (24/7 available)\n"
    + "- Insurance questions\n"
    + "- Pricing information\n\n"
    + "Be friendly, professional, and concise. If you don't know something, direct them to call (555) 123-4567."
  }

  function SmileCareApology(): string
  {
    "I apologize, I could not process that request."
  }

  /** The chat log table. */
  class ChatLog {
    var messages: seq<ChatMessage>

    constructor (messages: seq<ChatMessage>)
      ensures this.messages == messages
    {
      this.messages := messages;
    }

    /**
     * `chat`. `model` answers a prompt with the reply content (possibly none), or fails
     * (None), which is a 500 after the user's message was already logged. `systemPrompt` and
     * `apology` are the controller's fixed texts (`SmileCarePrompt()`, `SmileCareApology()`).
     */
    method Chat(message: string, sessionId: string, model: seq<PromptEntry> -> Option<Option<string>>,
                systemPrompt: string, apology: string)
      returns (res: Reply<ChatReply>, prompt: seq<PromptEntry>)
      modifies this
      ensures prompt == Prompt(systemPrompt, History(old(messages) + [ChatMessage(sessionId, message, "user")], sessionId))
      ensures model(prompt).None? ==>
        res == Error(500, "Chatbot service unavailable")
        && messages == old(messages) + [ChatMessage(sessionId, message, "user")]
      ensures model(prompt).Some? ==>
        var text := ReplyText(model(prompt).value, apology);
        res == Reply(200, ChatReply(text, sessionId))
        && messages == old(messages) + [ChatMessage(sessionId, message, "user"), ChatMessage(sessionId, text, "bot")]
    {
      messages := messages + [ChatMessage(sessionId, message, "user")];
      var history := History(messages, sessionId);
      prompt := Prompt(systemPrompt, history);
      var content := model(prompt);
      if content.None? {
        return Error(500, "Chatbot service unavailable"), prompt;
      }
      var text := ReplyText(content.value, apology);
      messages := messages + [ChatMessage(sessionId, text, "bot")];
      res := Reply(200, ChatReply(text, sessionId));
    }
  }

  /** The message just logged is in the history while the session has at most ten messages. */
  lemma NewMessageInHistory(log: seq<ChatMessage>, sessionId: string, message: string)
    requires |SessionMessages(log, sessionId)| < HistoryLimit
    ensures ChatMessage(sessionId, message, "user") in History(log + [ChatMessage(sessionId, message, "user")], sessionId)
  {
    var m := ChatMessage(sessionId, message, "user");
    FilterAppend(log, [m], SessionIs(sessionId));
    assert SessionMessages(log + [m], sessionId) == SessionMessages(log, sessionId) + [m];
  }

  /** Once a session has ten messages, a new one never reaches the history: it is the oldest ten. */
  lemma HistoryIsOldestTen(log: seq<ChatMessage>, sessionId: string, later: seq<ChatMessage>)
    requires |SessionMessages(log, sessionId)| >= HistoryLimit
    ensures History(log + later, sessionId) == History(log, sessionId)
  {
    FilterAppend(log, later, SessionIs(sessionId));
    var s := SessionMessages(log, sessionId);
    assert SessionMessages(log + later, sessionId)[..HistoryLimit] == s[..HistoryLimit];
  }

  /** Appending one session's messages leaves every other session's messages unchanged. */
  lemma OtherSessionsUnchanged(log: seq<ChatMessage>, added: seq<ChatMessage>, sessionId: string, other: string)
    requires forall m :: m in added ==> m.sessionId == sessionId
    requires other != sessionId
    ensures SessionMessages(log + added, other) == SessionMessages(log, other)
  {
    FilterAppend(log, added, SessionIs(other));
    assert Filter(added, SessionIs(other)) == [] by {
      FilterNone(added, SessionIs(other));
    }
  }
}
