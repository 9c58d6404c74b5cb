/** The chatbot's sessions and messages (jakpa_bot/models.py, views.py and
    admin.py). A session lives 24 hours from its first save; the three
    endpoints create a session holding the greeting, add a user message and
    the assistant's reply to a live session, and list a live session's
    messages. Timestamps are whole seconds. A session is found by its UUID:
    `parseUuid` stands for the UUID field's conversion of the request's
    text (None when the text is not a UUID), and sessions are keyed by the
    canonical text of their UUID. Messages of a session are kept in the
    order they were stored, which is their timestamp order. */
module Chat {
  import opened Base
  import opened ChatPrompt

  /** timedelta(hours=24) in seconds. */
  const SessionLifetime: int := 24 * 60 * 60

  // ---------------------------------------------------------------------
  // ChatSession and ChatMessage
  // ---------------------------------------------------------------------

  /** timezone.now() > expires_at. */
  predicate ExpiredAt(expiresAt: int, now: int) {
    now > expiresAt
  }

  /** Expiry is strict and, once reached, permanent. */
  lemma ExpiryIsMonotone(expiresAt: int, now: int, later: int)
    requires now <= later
    ensures !ExpiredAt(expiresAt, expiresAt)
    ensures ExpiredAt(expiresAt, now) ==> ExpiredAt(expiresAt, later)
    ensures ExpiredAt(expiresAt, now) <==> now >= expiresAt + 1
  {
  }

  class ChatSession {
    var expiresAt: Option<int>
    var isActive: bool

    /** A new session: no expiry yet, active by default. */
    constructor ()
      ensures expiresAt == None && isActive
    {
      expiresAt := None;
      isActive := true;
    }

    /** save: the first save sets the expiry 24 hours after `now`; later
        saves keep it. */
    method Save(now: int)
      modifies this
      ensures old(expiresAt).None? ==> expiresAt == Some(now + SessionLifetime)
      ensures old(expiresAt).Some? ==> expiresAt == old(expiresAt)
      ensures isActive == old(isActive)
    {
      if expiresAt.None? {
        expiresAt := Some(now + SessionLifetime);
      }
    }

    predicate IsExpired(now: int)
      reads this
      requires expiresAt.Some?
    {
      ExpiredAt(expiresAt.value, now)
    }
  }

  datatype Role = User | Assistant

  const RoleChoices: seq<string> := ["user", "assistant"]

  /** The stored role text: one of the two choices, and distinct. */
  function RoleName(r: Role): (s: string)
    ensures s in RoleChoices
    ensures s == "assistant" <==> r == Assistant
  {
    match r
    case User => "user"
    case Assistant => "assistant"
  }

  datatype ChatMessage = ChatMessage(role: Role, content: string)

  // ---------------------------------------------------------------------
  // The request fields and the history window
  // ---------------------------------------------------------------------

  /** data.get('session_id'), when truthy. */
  function SessionIdOf(body: map<string, string>): (r: Option<string>)
    ensures r.Some? <==> "session_id" in body && body["session_id"] != ""
  {
    if "session_id" in body && body["session_id"] != "" then Some(body["session_id"]) else None
  }

  /** data.get('message', '').strip(). */
  function MessageOf(body: map<string, string>): (r: string)
    ensures "message" !in body ==> r == ""
    ensures "message" in body ==> r == Strip(body["message"])
  {
    Strip(if "message" in body then body["message"] else "")
  }

  /** previous_messages[1:-1]. */
  function Window<T>(s: seq<T>): (r: seq<T>)
    ensures |s| < 2 ==> r == []
    ensures |s| >= 2 ==> |r| == |s| - 2 && forall i :: 0 <= i < |r| ==> r[i] == s[i + 1]
  {
    if |s| < 2 then [] else s[1..|s| - 1]
  }

  /** The window after storing the user's message is everything stored
      before it except the first message, the greeting. */
  lemma WindowDropsGreetingAndCurrent<T>(before: seq<T>, current: T)
    requires before != []
    ensures Window(before + [current]) == before[1..]
  {
    var w := Window(before + [current]);
    assert |w| == |before[1..]|;
    forall i | 0 <= i < |w| ensures w[i] == before[1..][i] {
      assert (before + [current])[i + 1] == before[i + 1];
    }
  }

  /** values('role', 'content'). */
  function Items(ms: seq<ChatMessage>): (r: seq<HistoryItem>)
    ensures |r| == |ms|
    ensures forall i :: 0 <= i < |ms| ==> r[i] == HistoryItem(RoleName(ms[i].role), ms[i].content)
  {
    seq(|ms|, i requires 0 <= i < |ms| => HistoryItem(RoleName(ms[i].role), ms[i].content))
  }

  /** ChatMessageAdmin.content_preview: content up to 100 characters as it
      is, longer content cut to 100 characters and marked with "...". */
  function ContentPreview(content: string): (r: string)
    ensures |r| <= 103
    ensures |content| <= 100 ==> r == content
    ensures |content| > 100 ==> |r| == 103 && r[..100] == content[..100] && r[100..] == "..."
  {
    if |content| > 100 then content[..100] + "..." else content
  }

  // ---------------------------------------------------------------------
  // The endpoints
  // ---------------------------------------------------------------------

  class ChatStore {
    /** Sessions by the canonical text of their UUID. */
    var sessions: map<string, ChatSession>
    /** Each session's messages in timestamp order. */
    var messages: map<string, seq<ChatMessage>>

    /** Every session has been saved, each key names its own session
        object, and messages belong to sessions. */
    predicate Valid()
      reads this, sessions.Values
    {
      && messages.Keys == sessions.Keys
      && (forall k :: k in sessions ==> sessions[k].expiresAt.Some?)
      && (forall a, b :: a in sessions && b in sessions && a != b ==> sessions[a] != sessions[b])
    }

    constructor ()
      ensures Valid() && sessions == map[] && messages == map[]
    {
      sessions := map[];
      messages := map[];
    }

    /** ChatSessionAdmin.message_count. */
    function MessageCount(key: string): nat
      reads this
      requires key in messages
    {
      |messages[key]|
    }

    /** initialize_session: a new session, 24 hours to live, holding the
        greeting as its only message. `newId` is the UUID drawn for it; one
        already in use fails the unique constraint (500). */
    method InitializeSession(newId: string, now: int) returns (status: int, greeting: Option<string>)
      requires Valid()
      modifies this
      ensures Valid()
      ensures newId in old(sessions) ==>
                status == 500 && greeting.None? && sessions == old(sessions) && messages == old(messages)
      ensures newId !in old(sessions) ==>
                && status == 200
                && greeting == Some(Greeting)
                && sessions.Keys == old(sessions.Keys) + {newId}
                && (forall k :: k in old(sessions) ==> sessions[k] == old(sessions[k]))
                && fresh(sessions[newId])
                && sessions[newId].expiresAt == Some(now + SessionLifetime)
                && sessions[newId].isActive
                && messages == old(messages)[newId := [ChatMessage(Assistant, Greeting)]]
                && MessageCount(newId) == 1
    {
      if newId in sessions {
        status, greeting := 500, None;
        return;
      }
      var s := new ChatSession();
      s.Save(now);
      sessions := sessions[newId := s];
      messages := messages[newId := [ChatMessage(Assistant, Greeting)]];
      status, greeting := 200, Some(Greeting);
    }

    /** send_message. `body` is the parsed JSON object (None when the body
        is not JSON); the reply comes from the chatbot service over the
        site data and the remote model `gemini`. A reply without text
        cannot be stored (content is NOT NULL): that answers 500 and the
        user's message stays stored. */
    method SendMessage(body: Option<map<string, string>>, now: int, parseUuid: string -> Option<string>,
                       basePrompt: string, site: SiteData, fmt: Formatters,
                       gemini: seq<Turn> -> Answer) returns (status: int, reply: Option<string>)
      requires Valid()
      modifies this, sessions.Values
      ensures Valid()
      ensures sessions == old(sessions)
      ensures status != 200 ==> reply.None?
      ensures status in {400, 403, 404} ==> messages == old(messages)
      ensures status != 403 ==> unchanged(old(sessions).Values)
      ensures body.None? ==> status == 400
      ensures body.Some? && (SessionIdOf(body.value).None? || MessageOf(body.value) == "") ==> status == 400
      ensures body.Some? && SessionIdOf(body.value).Some? && MessageOf(body.value) != "" ==>
                var uuid := parseUuid(SessionIdOf(body.value).value);
                && (uuid.None? ==> status == 500 && messages == old(messages))
                && (uuid.Some? && uuid.value !in old(sessions) ==> status == 404)
                && (uuid.Some? && uuid.value in old(sessions) ==>
                      var key := uuid.value;
                      var s := old(sessions)[key];
                      && (old(s.expiresAt).Some? && ExpiredAt(old(s.expiresAt).value, now) ==>
                            status == 403 && !s.isActive && s.expiresAt == old(s.expiresAt)
                            && messages == old(messages)
                            && unchanged(old(sessions).Values - {s}))
                      && (old(s.expiresAt).Some? && !ExpiredAt(old(s.expiresAt).value, now) ==>
                            var msg := MessageOf(body.value);
                            var before := old(messages)[key];
                            var history := Items(Window(before + [ChatMessage(User, msg)]));
                            var answer := Reply(basePrompt, site, fmt, history, msg, gemini);
                            && (answer.Some? ==>
                                  && status == 200
                                  && reply == answer
                                  && messages == old(messages)[key := before + [ChatMessage(User, msg), ChatMessage(Assistant, answer.value)]]
                                  && MessageCount(key) == old(MessageCount(key)) + 2)
                            && (answer.None? ==>
                                  && status == 500
                                  && messages == old(messages)[key := before + [ChatMessage(User, msg)]]
                                  && MessageCount(key) == old(MessageCount(key)) + 1)))
      ensures status in {200, 400, 403, 404, 500}
    {
      reply := None;
      if body.None? {
        status := 400;
        return;
      }
      var sessionId := SessionIdOf(body.value);
      var msg := MessageOf(body.value);
      if sessionId.None? || msg == "" {
        status := 400;
        return;
      }
      var uuid := parseUuid(sessionId.value);
      if uuid.None? {
        status := 500;
        return;
      }
      var key := uuid.value;
      if key !in sessions {
        status := 404;
        return;
      }
      if sessions[key].IsExpired(now) {
        Deactivate(key, now);
        status := 403;
        return;
      }
      var answer := Converse(key, msg, basePrompt, site, fmt, gemini);
      if answer.Some? {
        status, reply := 200, answer;
      } else {
        status := 500;
      }
    }

    /** The expired branch: is_active=False, then save. */
    method Deactivate(key: string, now: int)
      requires Valid() && key in sessions
      modifies sessions[key]
      ensures Valid()
      ensures !sessions[key].isActive && sessions[key].expiresAt == old(sessions[key].expiresAt)
    {
      var s := sessions[key];
      s.isActive := false;
      s.Save(now);
    }

    /** The live branch: store the user's message, ask the chatbot with
        the window of stored messages, store its reply; a reply without
        text is not stored. */
    method Converse(key: string, msg: string, basePrompt: string, site: SiteData, fmt: Formatters,
                    gemini: seq<Turn> -> Answer) returns (answer: Option<string>)
      requires Valid() && key in sessions
      modifies this
      ensures Valid() && sessions == old(sessions)
      ensures answer == Reply(basePrompt, site, fmt, Items(Window(old(messages)[key] + [ChatMessage(User, msg)])), msg, gemini)
      ensures answer.Some? ==>
                messages == old(messages)[key := old(messages)[key] + [ChatMessage(User, msg), ChatMessage(Assistant, answer.value)]]
      ensures answer.None? ==> messages == old(messages)[key := old(messages)[key] + [ChatMessage(User, msg)]]
    {
      var before := messages;
      var stored := before[key] + [ChatMessage(User, msg)];
      Store(key, ChatMessage(User, msg));
      answer := GenerateResponse(basePrompt, site, fmt, Items(Window(stored)), msg, gemini);
      StoreReply(key, answer);
      if answer.Some? {
        var reply := ChatMessage(Assistant, answer.value);
        assert stored + [reply] == before[key] + [ChatMessage(User, msg), reply];
        UpdateTwice(before, key, stored, stored + [reply]);
      }
    }

    /** Storing the reply: a reply without text fails the NOT NULL content
        column and nothing is stored. */
    method StoreReply(key: string, reply: Option<string>)
      requires Valid() && key in sessions
      modifies this
      ensures Valid() && sessions == old(sessions)
      ensures reply.Some? ==> messages == old(messages)[key := old(messages)[key] + [ChatMessage(Assistant, reply.value)]]
      ensures reply.None? ==> messages == old(messages)
    {
      if reply.Some? {
        Store(key, ChatMessage(Assistant, reply.value));
      }
    }

    /** ChatMessage.objects.create: one message appended to a session. */
    method Store(key: string, m: ChatMessage)
      requires Valid() && key in sessions
      modifies this
      ensures Valid() && sessions == old(sessions)
      ensures messages == old(messages)[key := old(messages)[key] + [m]]
    {
      messages := messages[key := messages[key] + [m]];
    }

    /** get_chat_history: a live session's messages, in order; an expired
        session is refused without being deactivated. */
    method GetChatHistory(sessionId: string, now: int, parseUuid: string -> Option<string>)
      returns (status: int, listed: seq<ChatMessage>)
      requires Valid()
      ensures parseUuid(sessionId).None? ==> status == 500 && listed == []
      ensures parseUuid(sessionId).Some? && parseUuid(sessionId).value !in sessions ==> status == 404 && listed == []
      ensures parseUuid(sessionId).Some? && parseUuid(sessionId).value in sessions ==>
                var key := parseUuid(sessionId).value;
                && (ExpiredAt(sessions[key].expiresAt.value, now) ==> status == 403 && listed == [])
                && (!ExpiredAt(sessions[key].expiresAt.value, now) ==> status == 200 && listed == messages[key])
    {
      var uuid := parseUuid(sessionId);
      if uuid.None? {
        return 500, [];
      }
      var key := uuid.value;
      if key !in sessions {
        return 404, [];
      }
      if sessions[key].IsExpired(now) {
        return 403, [];
      }
      return 200, messages[key];
    }
  }

  /** Two updates of one key leave the later value. */
  lemma UpdateTwice<K, V>(m: map<K, V>, k: K, v1: V, v2: V)
    ensures m[k := v1][k := v2] == m[k := v2]
  {
  }

  /** A successful send shows the model every earlier message but the
      greeting, in order, and the new message as the current turn. */
  lemma SendHistoryIsEarlierMessages(before: seq<ChatMessage>, msg: string)
    requires before != []
    ensures Items(Window(before + [ChatMessage(User, msg)])) == Items(before[1..])
  {
    WindowDropsGreetingAndCurrent(before, ChatMessage(User, msg));
  }
}
