/** The session map of the web application (main.py:90-194): the `/chat`
    endpoint gets or creates the agent of a session, replacing it when the
    request asks for a memory reset, and `/reset` deletes a session. Sessions
    are kept until deleted; the map is a value passed in and returned. The
    generated uuid, the CSV read, the prompt assembly and the agent executor
    are parameters. */
module Server {
  import opened Wrappers
  import Settings
  import QaAgent

  type Agents = map<string, QaAgent.Agent>

  /** The body of a `/chat` request (main.py:121-123). */
  datatype ChatRequest = ChatRequest(message: string, resetMemory: bool)

  /** A chat reply with its session id, or the HTTP error raised instead. */
  datatype Reply = Replied(response: string, sessionId: string) | HttpError(status: nat, detail: string)

  datatype ChatStep = ChatStep(reply: Reply, agents: Agents)

  /** The session cookie when it is set and non-empty, else the fresh id
      (main.py:148-149). */
  function SessionId(cookie: Option<string>, freshId: string): (sid: string)
    ensures cookie.Some? && cookie.value != "" ==> sid == cookie.value
    ensures cookie.None? || cookie.value == "" ==> sid == freshId
  {
    match cookie
    case Some(c) => if c != "" then c else freshId
    case None => freshId
  }

  /** True when the chat for `sid` must build a new agent (main.py:153). */
  predicate NeedsNewAgent(agents: Agents, sid: string, request: ChatRequest)
  {
    sid !in agents || request.resetMemory
  }

  /** The `/chat` endpoint (main.py:143-183). A new agent replaces the
      session's agent when there is none or a reset is asked for; building it
      may raise, which becomes HTTP 500 and leaves the map as it was.
      Otherwise the session's agent answers, and only that session's entry
      changes. */
  function Chat(agents: Agents, config: Settings.Config, csv: Result<QaAgent.Table>,
                cookie: Option<string>, request: ChatRequest, freshId: string,
                compile: QaAgent.PromptCompiler,
                invoke: (string, seq<QaAgent.Message>) -> QaAgent.Invocation): (s: ChatStep)
    ensures var sid := SessionId(cookie, freshId);
            && (s.reply.HttpError? <==>
                  NeedsNewAgent(agents, sid, request) && QaAgent.NewAgent(Some(config), csv, compile).Err?)
            && (s.reply.HttpError? ==>
                  s.agents == agents && s.reply.status == 500
                  && s.reply.detail == "Chat error: " + QaAgent.NewAgent(Some(config), csv, compile).message)
            && (s.reply.Replied? ==> s.reply.sessionId == sid && s.agents.Keys == agents.Keys + {sid})
            && (forall k :: k != sid ==> (k in s.agents <==> k in agents))
            && (forall k :: k != sid && k in agents ==> s.agents[k] == agents[k])
    ensures var sid := SessionId(cookie, freshId);
            s.reply.Replied? ==>
              var before := if NeedsNewAgent(agents, sid, request)
                            then QaAgent.NewAgent(Some(config), csv, compile).value else agents[sid];
              QaAgent.AChat(before, request.message, invoke) == QaAgent.ChatTurn(s.reply.response, s.agents[sid])
  {
    var sid := SessionId(cookie, freshId);
    if NeedsNewAgent(agents, sid, request) then
      match QaAgent.NewAgent(Some(config), csv, compile)
      case Err(e) => ChatStep(HttpError(500, "Chat error: " + e), agents)
      case Ok(created) =>
        var turn := QaAgent.AChat(created, request.message, invoke);
        ChatStep(Replied(turn.answer, sid), agents[sid := turn.agent])
    else
      var turn := QaAgent.AChat(agents[sid], request.message, invoke);
      ChatStep(Replied(turn.answer, sid), agents[sid := turn.agent])
  }

  const ResetDone: string := "Memory reset successfully"
  const NothingToReset: string := "No active session to reset"

  datatype ResetStep = ResetStep(message: string, agents: Agents)

  /** The `/reset` endpoint (main.py:186-194): deletes the session named by a
      non-empty cookie when it exists, and nothing else. */
  function Reset(agents: Agents, cookie: Option<string>): (s: ResetStep)
    ensures var removes := cookie.Some? && cookie.value != "" && cookie.value in agents;
            && (removes ==> s.message == ResetDone && s.agents.Keys == agents.Keys - {cookie.value})
            && (!removes ==> s.message == NothingToReset && s.agents == agents)
            && (forall k :: k in s.agents ==> k in agents && s.agents[k] == agents[k])
  {
    match cookie
    case Some(sid) =>
      if sid != "" && sid in agents then ResetStep(ResetDone, agents - {sid})
      else ResetStep(NothingToReset, agents)
    case None => ResetStep(NothingToReset, agents)
  }

  /** Every stored history is made of whole question/answer exchanges. */
  predicate AllPaired(agents: Agents)
  {
    forall k :: k in agents ==> QaAgent.WellPaired(agents[k].history)
  }

  /** `/chat` keeps every stored history made of whole exchanges. */
  lemma ChatKeepsHistoriesPaired(agents: Agents, config: Settings.Config, csv: Result<QaAgent.Table>,
                                 cookie: Option<string>, request: ChatRequest, freshId: string,
                                 compile: QaAgent.PromptCompiler,
                                 invoke: (string, seq<QaAgent.Message>) -> QaAgent.Invocation)
    requires AllPaired(agents)
    ensures AllPaired(Chat(agents, config, csv, cookie, request, freshId, compile, invoke).agents)
  {
    var sid := SessionId(cookie, freshId);
    var s := Chat(agents, config, csv, cookie, request, freshId, compile, invoke);
    if s.reply.Replied? {
      var before := if NeedsNewAgent(agents, sid, request)
                    then QaAgent.NewAgent(Some(config), csv, compile).value else agents[sid];
      assert QaAgent.WellPaired(before.history);
      QaAgent.AChatKeepsPairs(before, request.message, invoke);
    }
  }

  /** `/reset` keeps every stored history made of whole exchanges. */
  lemma ResetKeepsHistoriesPaired(agents: Agents, cookie: Option<string>)
    requires AllPaired(agents)
    ensures AllPaired(Reset(agents, cookie).agents)
  {
  }

  /** A chat on a session that `/reset` has just deleted starts from an empty
      history: afterwards the session holds at most its one new exchange. */
  lemma ChatAfterResetStartsFresh(agents: Agents, config: Settings.Config, csv: Result<QaAgent.Table>,
                                  sid: string, request: ChatRequest, freshId: string,
                                  compile: QaAgent.PromptCompiler,
                                  invoke: (string, seq<QaAgent.Message>) -> QaAgent.Invocation)
    requires sid != ""
    ensures var after := Reset(agents, Some(sid)).agents;
            var s := Chat(after, config, csv, Some(sid), request, freshId, compile, invoke);
            s.reply.Replied? ==>
              s.reply.sessionId == sid
              && (s.agents[sid].history == []
                  || s.agents[sid].history == [QaAgent.Human(request.message), QaAgent.Ai(s.reply.response)])
  {
  }

  /** A chat asking for a memory reset discards the session's stored history,
      whatever it held: the replacement agent starts from an empty history. */
  lemma ResetFlagDiscardsHistory(agents: Agents, config: Settings.Config, csv: Result<QaAgent.Table>,
                                 cookie: Option<string>, message: string, freshId: string,
                                 compile: QaAgent.PromptCompiler,
                                 invoke: (string, seq<QaAgent.Message>) -> QaAgent.Invocation)
    ensures var sid := SessionId(cookie, freshId);
            var s := Chat(agents, config, csv, cookie, ChatRequest(message, true), freshId, compile, invoke);
            s.reply.Replied? ==>
              |s.agents[sid].history| <= 2
              && (invoke(message, []).Finished? ==>
                    s.agents[sid].history == [QaAgent.Human(message), QaAgent.Ai(s.reply.response)])
  {
  }

  /** Chatting again on a kept session extends its history by the new
      exchange when the agent finishes, and leaves it as it was when the
      agent fails. */
  lemma ChatExtendsKeptSession(agents: Agents, config: Settings.Config, csv: Result<QaAgent.Table>,
                               sid: string, message: string, freshId: string,
                               compile: QaAgent.PromptCompiler,
                               invoke: (string, seq<QaAgent.Message>) -> QaAgent.Invocation)
    requires sid != "" && sid in agents
    ensures var s := Chat(agents, config, csv, Some(sid), ChatRequest(message, false), freshId, compile, invoke);
            var h := agents[sid].history;
            s.reply.Replied?
            && (invoke(message, QaAgent.ContextWindow(h)).Finished? ==>
                  s.agents[sid].history == h + [QaAgent.Human(message), QaAgent.Ai(s.reply.response)])
            && (invoke(message, QaAgent.ContextWindow(h)).Failed? ==> s.agents[sid].history == h)
  {
  }
}
