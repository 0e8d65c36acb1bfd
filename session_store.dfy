/** The chat server of `deployment/api/index.py`: one message history per
    session id, created on first use with the system prompt, extended by
    each accepted request and cut to its last twenty messages; and the
    `clear_session` route that resets a history to the system prompt. */
module SessionStore {
  import opened Wrappers
  import opened Text
  import opened ChatMessages
  import CustomerServicePipeline

  /** `SYSTEM_PROMPT` */
  const SystemPrompt: string :=
    "You are NOVA, a helpful customer service assistant for Nexobotics. Your goal is to provide accurate, \n" +
    "helpful responses to customer inquiries based on the information in our knowledge base.\n" +
    "\n" +
    "Your communication style should be:\n" +
    "- Warm and professional\n" +
    "- Clear and concise\n" +
    "- Solution-oriented\n" +
    "- Friendly but not overly casual\n" +
    "\n" +
    "When greeting users, keep introductions brief and focus on addressing their needs.\n"

  /** The number of messages a history keeps. */
  const MaxHistory: nat := 20

  const RagFallback := "I'm having trouble accessing my knowledge base right now. Is there something else I can help with?"
  const InitFailurePrefix := "Failed to initialize RAG pipeline: "
  const InitFailureResponse :=
    "I apologize, but I am having trouble connecting to my knowledge base. Please try again in a moment."
  const MessageRequired := "Message is required"
  const SessionIdRequired := "session_id is required"
  const SessionCleared := "Session cleared"
  const SessionNotFound := "Session not found"

  /** What `chat_endpoint` answers. */
  datatype ChatReply =
    | Answered(response: string)
    | Rejected(error: string)
    | InitFailed(error: string, response: string)

  /** What `clear_session` answers. */
  datatype ClearReply = Status(message: string) | ClearRejected(error: string)

  /** `os.environ.get('DEBUG', 'false').lower() == 'true'`: on exactly when
      the variable is set to `true` in any letter case. */
  function DebugEnabled(env: Option<string>): (enabled: bool)
    ensures env.None? ==> !enabled
    ensures enabled <==>
      (env.Some? && |env.value| == 4 && forall i :: 0 <= i < 4 ==> LowerChar(env.value[i]) == "true"[i])
  {
    Lower(env.GetOr("false")) == "true"
  }

  /** `history[-20:]` when the history is longer than twenty. */
  function Truncate(history: seq<Message>): (kept: seq<Message>)
    ensures |kept| <= MaxHistory && |kept| <= |history| && kept == history[|history| - |kept|..]
    ensures |history| <= MaxHistory ==> kept == history
    ensures |history| > MaxHistory ==> |kept| == MaxHistory
  {
    if |history| > MaxHistory then history[|history| - MaxHistory..] else history
  }

  /** The assistant's answer: the pipeline's response, or the fallback
      when `query_rag` raised. */
  function ReplyText(reply: Option<CustomerServicePipeline.QueryResult>): string {
    if reply.Some? then reply.value.response else RagFallback
  }

  /** The messages one accepted request appends: the user turn, the
      retrieved documents when debugging is on and some came back, and the
      assistant turn. */
  function Turn(message: string, reply: Option<CustomerServicePipeline.QueryResult>, debug: bool)
    : (turn: seq<Message>)
    ensures 2 <= |turn| <= 3
    ensures turn[0] == Message(User, message)
    ensures turn[|turn| - 1] == Message(Assistant, ReplyText(reply))
    ensures |turn| == 3 <==> debug && reply.Some? && reply.value.documents != []
    ensures |turn| == 3 ==> turn[1] == Message(System, RetrievedContext(reply.value.documents))
  {
    [Message(User, message)]
    + (if debug && reply.Some? && reply.value.documents != []
       then [Message(System, RetrievedContext(reply.value.documents))] else [])
    + [Message(Assistant, ReplyText(reply))]
  }

  /** The history a request starts from: the stored one, or a new one
      holding only the system prompt. */
  function Started(histories: map<string, seq<Message>>, sessionId: string): seq<Message> {
    if sessionId in histories then histories[sessionId] else [Message(System, SystemPrompt)]
  }

  /** The session's history after an accepted request. */
  function AfterChat(histories: map<string, seq<Message>>, sessionId: string, message: string,
                     reply: Option<CustomerServicePipeline.QueryResult>, debug: bool): (after: seq<Message>)
  {
    Truncate(Started(histories, sessionId) + Turn(message, reply, debug))
  }

  /** After an accepted request the history holds at most twenty messages,
      is what remains of the old history and the new turn once the oldest
      are cut, and always ends with the whole new turn. */
  lemma AfterChatShape(histories: map<string, seq<Message>>, sessionId: string, message: string,
                       reply: Option<CustomerServicePipeline.QueryResult>, debug: bool)
    ensures var full := Started(histories, sessionId) + Turn(message, reply, debug);
      var after := AfterChat(histories, sessionId, message, reply, debug);
      && 2 <= |after| <= MaxHistory
      && after == full[|full| - |after|..]
      && after[|after| - |Turn(message, reply, debug)|..] == Turn(message, reply, debug)
  {
    var turn := Turn(message, reply, debug);
    var full := Started(histories, sessionId) + turn;
    var after := AfterChat(histories, sessionId, message, reply, debug);
    assert full[|full| - |turn|..] == turn;
  }

  /** A new session starts with exactly one system message holding the
      system prompt, followed by the turn: nothing is cut yet. */
  lemma NewSession(histories: map<string, seq<Message>>, sessionId: string, message: string,
                   reply: Option<CustomerServicePipeline.QueryResult>, debug: bool)
    requires sessionId !in histories
    ensures AfterChat(histories, sessionId, message, reply, debug)
         == [Message(System, SystemPrompt)] + Turn(message, reply, debug)
  {
  }

  /** The cut does not spare the system prompt: a history of nineteen
      messages loses its first message on the next request (its first two
      when the debug context is added), so the history then starts with
      what was its second (third) message. */
  lemma TruncationDropsSystemPrompt(histories: map<string, seq<Message>>, sessionId: string, message: string,
                                    reply: Option<CustomerServicePipeline.QueryResult>, debug: bool)
    requires sessionId in histories && |histories[sessionId]| == 19
    ensures var after := AfterChat(histories, sessionId, message, reply, debug);
      && |after| == MaxHistory
      && after[0] == histories[sessionId][|Turn(message, reply, debug)| - 1]
      && (!debug ==> after[0] == histories[sessionId][1])
  {
    var turn := Turn(message, reply, debug);
    var full := histories[sessionId] + turn;
    assert |full| > MaxHistory;
    assert AfterChat(histories, sessionId, message, reply, debug)[0] == full[|full| - MaxHistory];
  }

  /** A cleared session answers its next request exactly as a session that
      never existed would. */
  lemma ClearedIsFresh(histories: map<string, seq<Message>>, sessionId: string, message: string,
                       reply: Option<CustomerServicePipeline.QueryResult>, debug: bool)
    ensures AfterChat(histories[sessionId := [Message(System, SystemPrompt)]], sessionId, message, reply, debug)
         == AfterChat(histories - {sessionId}, sessionId, message, reply, debug)
  {
  }

  /** The steps of one accepted request on a session's history: append
      the user turn, the retrieved documents when debugging is on and some
      came back, and the assistant turn, then keep the last twenty. */
  method ExtendHistory(start: seq<Message>, message: string,
                       reply: Option<CustomerServicePipeline.QueryResult>, debug: bool)
    returns (history: seq<Message>, aiResponse: string)
    ensures history == Truncate(start + Turn(message, reply, debug))
    ensures aiResponse == ReplyText(reply)
  {
    history := start + [Message(User, message)];
    if reply.Some? {
      aiResponse := reply.value.response;
      if reply.value.documents != [] && debug {
        history := history + [Message(System, RetrievedContext(reply.value.documents))];
      }
    } else {
      aiResponse := RagFallback;
    }
    history := history + [Message(Assistant, aiResponse)];
    assert history == start + Turn(message, reply, debug);
    if |history| > MaxHistory {
      history := history[|history| - MaxHistory..];
    }
  }

  class ChatServer {
    /** `chat_histories` */
    var histories: map<string, seq<Message>>
    /** `rag_initialized` */
    var ragInitialized: bool

    /** Every stored history holds between one and twenty messages. */
    ghost predicate Valid()
      reads this
    {
      forall id :: id in histories ==> 1 <= |histories[id]| <= MaxHistory
    }

    constructor ()
      ensures Valid() && histories == map[] && !ragInitialized
    {
      histories := map[];
      ragInitialized := false;
    }

    /** `chat_endpoint` for a request with the given `message` field, on the
        session `sessionId` (the request's, or a timestamp the caller makes
        up). `init` is what initialising the pipeline does on the first
        request, `reply` what `query_rag(message)` returns (`None` when it
        raises), `debugEnv` the `DEBUG` variable. The pipeline is
        initialised before the request is looked at; a missing or empty
        message is rejected before any history is touched. */
    method Chat(message: Option<string>, sessionId: string, init: Outcome,
                reply: Option<CustomerServicePipeline.QueryResult>, debugEnv: Option<string>)
      returns (r: ChatReply)
      requires Valid()
      modifies this
      ensures Valid()
      ensures ragInitialized == (old(ragInitialized) || init.Success?)
      ensures !old(ragInitialized) && init.Failure? ==>
        r == InitFailed(InitFailurePrefix + init.error, InitFailureResponse) && histories == old(histories)
      ensures (old(ragInitialized) || init.Success?) && !IsSet(message) ==>
        r == Rejected(MessageRequired) && histories == old(histories)
      ensures (old(ragInitialized) || init.Success?) && IsSet(message) ==>
        r == Answered(ReplyText(reply))
        && histories == old(histories)[sessionId := AfterChat(old(histories), sessionId, message.value, reply,
                                                              DebugEnabled(debugEnv))]
    {
      if !ragInitialized {
        if init.Failure? {
          return InitFailed(InitFailurePrefix + init.error, InitFailureResponse);
        }
        ragInitialized := true;
      }
      r := Respond(message, sessionId, reply, debugEnv);
    }

    /** `chat_endpoint` once the pipeline is initialised. */
    method Respond(message: Option<string>, sessionId: string,
                   reply: Option<CustomerServicePipeline.QueryResult>, debugEnv: Option<string>)
      returns (r: ChatReply)
      requires Valid()
      modifies this
      ensures Valid() && ragInitialized == old(ragInitialized)
      ensures !IsSet(message) ==> r == Rejected(MessageRequired) && histories == old(histories)
      ensures IsSet(message) ==>
        r == Answered(ReplyText(reply))
        && histories == old(histories)[sessionId := AfterChat(old(histories), sessionId, message.value, reply,
                                                              DebugEnabled(debugEnv))]
    {
      if !IsSet(message) {
        return Rejected(MessageRequired);
      }
      var debug := DebugEnabled(debugEnv);
      var history, aiResponse := ExtendHistory(Started(histories, sessionId), message.value, reply, debug);
      histories := histories[sessionId := history];
      r := Answered(aiResponse);
    }

    /** `clear_session`: a missing or empty id is rejected; a known session
        goes back to the system prompt alone and every other session is
        left as it was; an unknown id is reported and creates nothing. */
    method ClearSession(sessionId: Option<string>) returns (r: ClearReply)
      requires Valid()
      modifies this
      ensures Valid() && ragInitialized == old(ragInitialized)
      ensures !IsSet(sessionId) ==> r == ClearRejected(SessionIdRequired) && histories == old(histories)
      ensures IsSet(sessionId) && sessionId.value in old(histories) ==>
        r == Status(SessionCleared)
        && histories == old(histories)[sessionId.value := [Message(System, SystemPrompt)]]
      ensures IsSet(sessionId) && sessionId.value !in old(histories) ==>
        r == Status(SessionNotFound) && histories == old(histories)
    {
      if !IsSet(sessionId) {
        return ClearRejected(SessionIdRequired);
      }
      if sessionId.value in histories {
        histories := histories[sessionId.value := [Message(System, SystemPrompt)]];
        r := Status(SessionCleared);
      } else {
        r := Status(SessionNotFound);
      }
    }
  }
}
