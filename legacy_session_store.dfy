/** The older chat server of `api/index.py`: one message history per
    session id, created on first use with the `CONTEXT` system message and
    extended by each accepted request. Nothing is ever cut, so every history
    keeps its system message at the front. */
module LegacySessionStore {
  import opened Wrappers
  import opened ChatMessages
  import LegacyPipeline

  /** `CONTEXT` */
  const Context: string :=
    "You are NOVA, a proactive and adaptable " +
    "customer service agent for Nexobotics. Your " +
    "role is to guide users, particularly business " +
    "owners, on how Nexobotics can transform " +
    "their customer service by handling all customer " +
    "interactions efficiently and attentively " +
    "while maximizing customer satisfaction. " +
    "You also act as a consultant, offering actionable " +
    "insights to enhance customer satisfaction " +
    "and loyalty.\n" +
    "\n" +
    "Adapt your communication style to match " +
    "the user's tone\U{2014}casual if they're laid-back " +
    "(e.g., \"Hey, what's up?\") or professional " +
    "if they're formal but stay formal in the " +
    "beginning of the conversation. Always ensure " +
    "clarity and relevance in your responses " +
    "while minimizing unnecessary explanations " +
    "unless requested. Use unique, engaging opening " +
    "and closing lines but keep them short maximum " +
    "1 to 2 sentences. Keep greetings short and " +
    "dynamic. End conversations with motivational " +
    "and engaging lines. Stay concise, focused, " +
    "and results-oriented, delivering valuable " +
    "insights quickly without overwhelming the " +
    "user. Don't provide too much or too long " +
    "explanation or even greetings, keep them " +
    "short and sweet. You can use bold, italic " +
    "formats to highlight the important parts, " +
    "or any types of list that makes the user " +
    "reading easy. Maintain a friendly and approachable " +
    "tone while ensuring your responses are practical " +
    "and impactful.\n" +
    "\n" +
    "When '/start' will be prompted then that " +
    "means that user has arrived so, you have " +
    "to greet them uniquely but in a very short " +
    "sentence. Avoid long introductions and explanations.\n"

  const RagFallback :=
    "I'm currently having trouble accessing my knowledge base. Please try asking a different question or try again later."
  const MessageRequired := "Message is required"

  /** What `chat_endpoint` answers. */
  datatype ChatReply = Answered(response: string) | Rejected(error: string)

  /** `ai_response`: the pipeline's response, or the fallback when
      `query_rag` raised. */
  function ReplyText(reply: Option<LegacyPipeline.QueryResult>): string {
    if reply.Some? then reply.value.response else RagFallback
  }

  /** The messages one accepted request appends: the user turn, the
      retrieved documents whenever some came back, and the assistant turn
      when the answer is not empty. */
  function Turn(message: string, reply: Option<LegacyPipeline.QueryResult>): (turn: seq<Message>)
    ensures 1 <= |turn| <= 3
    ensures turn[0] == Message(User, message)
    ensures reply.None? ==> turn == [Message(User, message), Message(Assistant, RagFallback)]
    ensures reply.Some? && reply.value.documents != [] ==>
      |turn| >= 2 && turn[1] == Message(System, RetrievedContext(reply.value.documents))
    ensures (reply.Some? && reply.value.documents == []) || reply.None? ==>
      forall k :: 0 <= k < |turn| ==> turn[k].role != System
    ensures ReplyText(reply) != "" <==> turn[|turn| - 1] == Message(Assistant, ReplyText(reply))
  {
    [Message(User, message)]
    + (if reply.Some? && reply.value.documents != []
       then [Message(System, RetrievedContext(reply.value.documents))] else [])
    + (if ReplyText(reply) != "" then [Message(Assistant, ReplyText(reply))] else [])
  }

  /** The history a request starts from: the stored one, or a new one
      holding only the `CONTEXT` system message. */
  function Started(histories: map<string, seq<Message>>, sessionId: string): seq<Message> {
    if sessionId in histories then histories[sessionId] else [Message(System, Context)]
  }

  /** A new session holds the `CONTEXT` system message and then the turn. */
  lemma NewSession(histories: map<string, seq<Message>>, sessionId: string, message: string,
                   reply: Option<LegacyPipeline.QueryResult>)
    requires sessionId !in histories
    ensures Started(histories, sessionId) + Turn(message, reply) == [Message(System, Context)] + Turn(message, reply)
    ensures (Started(histories, sessionId) + Turn(message, reply))[1] == Message(User, message)
  {
  }

  /** An accepted request keeps the whole history and appends one to three
      messages: there is no bound on a history's length. */
  lemma HistoryGrows(histories: map<string, seq<Message>>, sessionId: string, message: string,
                     reply: Option<LegacyPipeline.QueryResult>)
    ensures var before := Started(histories, sessionId);
      var after := before + Turn(message, reply);
      && |before| + 1 <= |after| <= |before| + 3
      && after[..|before|] == before
  {
  }

  class ChatServer {
    /** `chat_histories` */
    var histories: map<string, seq<Message>>
    /** `rag_initialized` */
    var ragInitialized: bool

    /** Every stored history starts with the `CONTEXT` system message. */
    ghost predicate Valid()
      reads this
    {
      forall id :: id in histories ==> |histories[id]| >= 1 && histories[id][0] == Message(System, Context)
    }

    constructor ()
      ensures Valid() && histories == map[] && !ragInitialized
    {
      histories := map[];
      ragInitialized := false;
    }

    /** `chat_endpoint` for a request with the given `message` field, on the
        session `sessionId` (the request's, or a timestamp the caller makes
        up). `init` is what initialising the pipeline does while it is not
        yet initialised (a failure is only logged), `reply` what
        `query_rag(message)` returns (`None` when it raises). A missing or
        empty message is rejected before the history map is touched. */
    method Chat(message: Option<string>, sessionId: string, init: Outcome,
                reply: Option<LegacyPipeline.QueryResult>)
      returns (r: ChatReply)
      requires Valid()
      modifies this
      ensures Valid()
      ensures ragInitialized == (old(ragInitialized) || init.Success?)
      ensures !IsSet(message) ==> r == Rejected(MessageRequired) && histories == old(histories)
      ensures IsSet(message) ==>
        r == Answered(ReplyText(reply))
        && histories == old(histories)[sessionId := Started(old(histories), sessionId) + Turn(message.value, reply)]
    {
      if !ragInitialized && init.Success? {
        ragInitialized := true;
      }
      r := Respond(message, sessionId, reply);
    }

    /** `chat_endpoint` after the initialisation attempt. */
    method Respond(message: Option<string>, sessionId: string, reply: Option<LegacyPipeline.QueryResult>)
      returns (r: ChatReply)
      requires Valid()
      modifies this
      ensures Valid() && ragInitialized == old(ragInitialized)
      ensures !IsSet(message) ==> r == Rejected(MessageRequired) && histories == old(histories)
      ensures IsSet(message) ==>
        r == Answered(ReplyText(reply))
        && histories == old(histories)[sessionId := Started(old(histories), sessionId) + Turn(message.value, reply)]
    {
      if !IsSet(message) {
        return Rejected(MessageRequired);
      }
      var history, aiResponse := ExtendHistory(Started(histories, sessionId), message.value, reply);
      histories := histories[sessionId := history];
      r := Answered(aiResponse);
    }
  }

  /** The steps of one accepted request on a session's history: append
      the user turn, the retrieved documents when some came back, and the
      assistant turn when the answer is not empty. */
  method ExtendHistory(start: seq<Message>, message: string, reply: Option<LegacyPipeline.QueryResult>)
    returns (history: seq<Message>, aiResponse: string)
    ensures history == start + Turn(message, reply)
    ensures aiResponse == ReplyText(reply)
  {
    history := start + [Message(User, message)];
    if reply.Some? {
      aiResponse := reply.value.response;
      if reply.value.documents != [] {
        history := history + [Message(System, RetrievedContext(reply.value.documents))];
      }
    } else {
      aiResponse := RagFallback;
    }
    if aiResponse != "" {
      history := history + [Message(Assistant, aiResponse)];
    }
  }
}
