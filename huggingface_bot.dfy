/**
 * The hosted-model bot of `huggingface-bot.js`. Replies come from a chat-completion router;
 * here the router's answer is an input (`HfResponse`). The bot keeps a conversation history
 * per session, answers after a short delay held as a pending timer, and after every greeting
 * and reply arms an idle timer that nudges a silent user. Session objects live in `heap` under
 * a reference, because pending timers keep using the object after `endSession`.
 */
module HuggingFaceBot {
  import opened Text

  type ChatId = String
  type SocketId = String
  type Ref = nat
  type Token = nat

  /** `this.models`: the router models taken in turn. */
  const MODELS: seq<String> := ["HuggingFaceH4/zephyr-7b-beta:featherless-ai"]
  /** The idle timer's delay; the randomised `idleDelay` is computed but never used. */
  const IDLE_DELAY: nat := 15000
  /** The delay between a successful answer and its delivery. */
  const REPLY_DELAY: nat := 1000
  const MAX_TOKENS: nat := 100
  const GREETINGS: seq<String> :=
    ["Hey! How’s it going?", "Hi there, what’s up?", "Hello! Nice to meet you!", "Hey! How’s your day so far?"]
  const FALLBACKS: seq<String> :=
    ["Hey, what happened ya?", "You went silent only 😅", "Still there?", "Hello? You disappeared like that!",
     "You didn’t reply only 😆", "Hey, I was talking to you only!", "Aree, where did you go?"]
  const IDLE_PROMPTS: seq<String> :=
    ["Hello? You went quiet only 😅", "You not talking or what?", "Hey, you there ya?",
     "You stopped replying suddenly haha", "You vanished only 😆", "Aree, talk na!"]
  const NAME_REPLY: String := "I'm Myra! What about you?"
  const WHERE_REPLY: String := "I'm from Bangalore only ya!"
  const AGE_REPLY: String := "Haha just normal age only 😅"

  /** `rotateModel()`: the index moves on modulo the number of models. */
  function RotateModel(index: nat): (r: nat)
    ensures r < |MODELS|
    ensures |MODELS| == 1 ==> r == 0
  {
    (index + 1) % |MODELS|
  }

  /* ---------- sessions ---------- */

  /** The `virtualProfile` fields read here; an absent field is `""`. */
  datatype VirtualProfile = VirtualProfile(id: String, gender: String, persona: String)

  datatype Session = Session(
    botId: String, displayName: String, gender: String, persona: String, messageCount: nat,
    history: seq<String>, userSocketId: SocketId)

  /** `virtualProfile.gender?.toLowerCase() || "female"`. */
  function GenderOf(vp: VirtualProfile): String
  {
    OrElse(Lower(vp.gender), "female")
  }

  /**
   * The session `createBotSession` builds; `idSuffix` stands for the random
   * `Math.random().toString(36).slice(2, 9)` used when the profile has no id.
   */
  function NewSession(vp: VirtualProfile, idSuffix: String, userSocket: SocketId): (r: Session)
    ensures r.messageCount == 0 && r.history == [] && r.userSocketId == userSocket
    ensures r.displayName == "Rahul" <==> Lower(vp.gender) == "male"
    ensures r.displayName == "Rahul" || r.displayName == "Myra"
    ensures r.gender == Lower(r.gender) && r.gender != []
    ensures r.botId != [] && r.persona != []
  {
    var gender := GenderOf(vp);
    LowerIdempotent(vp.gender);
    Session(
      OrElse(vp.id, "bot_" + idSuffix),
      if gender == "male" then "Rahul" else "Myra",
      gender,
      OrElse(vp.persona, "friendly"),
      0, [], userSocket)
  }

  /* ---------- the router request ---------- */

  datatype Role = System | User | Assistant

  datatype ChatMessage = ChatMessage(role: Role, content: String)

  /** The body `queryHuggingFace` posts. */
  datatype Request = Request(model: String, messages: seq<ChatMessage>, maxTokens: nat, temperature: real, topP: real)

  /** `session.gender === "M" ? "boy" : "girl"`. */
  function GenderWord(gender: String): String
  {
    if gender == "M" then "boy" else "girl"
  }

  /** The persona line that opens the system prompt; its fixed instructions are not modelled. */
  function SystemPrompt(name: String, genderWord: String): String
  {
    "You are " + name + ", an average young " + genderWord + " from India chatting casually with a stranger online."
  }

  /** The history line of a user's message. */
  function UserLine(text: String): String
  {
    "User: " + text
  }

  /** The history line of a bot reply. */
  function BotLine(text: String): String
  {
    "Bot: " + text
  }

  /** `line.replace(/^(User|Bot): /, "")`. */
  function StripSpeaker(line: String): String
  {
    if StartsWith(line, "User: ") then line[6..]
    else if StartsWith(line, "Bot: ") then line[5..]
    else line
  }

  /** The chat message a history line becomes: a user message iff the line starts with `User`. */
  function LineMessage(line: String): ChatMessage
  {
    ChatMessage(if StartsWith(line, "User") then User else Assistant, StripSpeaker(line))
  }

  /** `session.conversationHistory.map(...)`. */
  function HistoryMessages(history: seq<String>): (r: seq<ChatMessage>)
    ensures |r| == |history|
    ensures forall k :: 0 <= k < |history| ==> (r[k].role == User <==> StartsWith(history[k], "User"))
    ensures forall k :: 0 <= k < |history| ==> r[k].role != System
  {
    seq(|history|, k requires 0 <= k < |history| => LineMessage(history[k]))
  }

  /** The payload of `queryHuggingFace(userMessage, session)` with the current model. */
  function BuildRequest(modelIndex: nat, sess: Session, userMessage: String): (r: Request)
    requires modelIndex < |MODELS|
    ensures |r.messages| == |sess.history| + 2
    ensures r.messages[0].role == System && r.messages[|r.messages| - 1] == ChatMessage(User, userMessage)
    ensures r.messages[1..|r.messages| - 1] == HistoryMessages(sess.history)
    ensures r.model in MODELS
  {
    var system := ChatMessage(System, SystemPrompt(sess.displayName, GenderWord(sess.gender)));
    var messages := [system] + HistoryMessages(sess.history) + [ChatMessage(User, userMessage)];
    assert messages[1..|messages| - 1] == HistoryMessages(sess.history);
    Request(MODELS[modelIndex], messages, MAX_TOKENS, 0.85, 0.9)
  }

  /** Both kinds of history line map back to the speaker and the text they were made from. */
  lemma LineRoundTrip(text: String)
    ensures LineMessage(UserLine(text)) == ChatMessage(User, text)
    ensures LineMessage(BotLine(text)) == ChatMessage(Assistant, text)
  {
    assert StartsWith(UserLine(text), "User");
    assert StartsWith(UserLine(text), "User: ") && UserLine(text)[6..] == text;
    assert !StartsWith(BotLine(text), "User") by {
      assert BotLine(text)[0] == 'B';
    }
    assert !StartsWith(BotLine(text), "User: ") by {
      assert BotLine(text)[0] == 'B';
    }
    assert StartsWith(BotLine(text), "Bot: ") && BotLine(text)[5..] == text;
  }

  /** One exchange appended to the history adds a user and an assistant message to the request. */
  lemma HistoryExchange(history: seq<String>, userText: String, botText: String)
    ensures HistoryMessages(history + [UserLine(userText), BotLine(botText)])
      == HistoryMessages(history) + [ChatMessage(User, userText), ChatMessage(Assistant, botText)]
  {
    LineRoundTrip(userText);
    LineRoundTrip(botText);
    var h := history + [UserLine(userText), BotLine(botText)];
    assert h[|history|] == UserLine(userText) && h[|history| + 1] == BotLine(botText);
  }

  /**
   * The gender is stored lowercased, so it is never `"M"` and the system prompt always calls
   * the persona a girl.
   */
  lemma PromptSaysGirl(vp: VirtualProfile, idSuffix: String, userSocket: SocketId, modelIndex: nat, userMessage: String)
    requires modelIndex < |MODELS|
    ensures var sess := NewSession(vp, idSuffix, userSocket);
      BuildRequest(modelIndex, sess, userMessage).messages[0]
        == ChatMessage(System, SystemPrompt(sess.displayName, "girl"))
  {
    var sess := NewSession(vp, idSuffix, userSocket);
    assert sess.gender[0] == LowerChar(sess.gender[0]) != 'M';
  }

  /* ---------- the answer ---------- */

  /** The marker `[MYRA]` as the case-insensitive match sees it. */
  const MARKER: String := "[myra]"

  /**
   * The capture of `text.match(/\[MYRA\](.*?)(?=\[|$)/is)`: what follows the first `[MYRA]`, in
   * any case, up to the next `[` or the end.
   */
  function MyraCapture(text: String): (r: Option<String>)
    ensures r.Some? ==> '[' !in r.value
  {
    var found := FindFrom(Lower(text), MARKER, 0);
    if found.None? then None
    else Some(BeforeFirst(text[found.value + |MARKER|..], '['))
  }

  /** The cleaned response: the trimmed capture when the answer carries the marker, else the trimmed answer. */
  function CleanResponse(content: String): String
  {
    var text := Trim(content);
    match MyraCapture(text)
    case Some(c) => Trim(c)
    case None => text
  }

  lemma LowerBracket(c: char)
    ensures LowerChar(c) == '[' <==> c == '['
  {
  }

  /**
   * The regular expression's reading of a tagged answer: with no `[` before the tag and the
   * body running up to a `[` or the end, the capture is the body.
   */
  lemma MyraCaptureOf(pre: String, tag: String, body: String, rest: String)
    requires '[' !in pre && Lower(tag) == MARKER && '[' !in body && (rest == [] || rest[0] == '[')
    ensures MyraCapture(pre + tag + body + rest) == Some(body)
  {
    var text := pre + tag + body + rest;
    var lower := Lower(text);
    LowerSlice(text, |pre|, |pre| + |tag|);
    assert text[|pre|..|pre| + |tag|] == tag;
    assert OccursAt(lower, MARKER, |pre|);
    forall j | 0 <= j < |pre|
      ensures !OccursAt(lower, MARKER, j)
    {
      LowerBracket(text[j]);
      assert text[j] == pre[j];
    }
    var found := FindFrom(lower, MARKER, 0);
    assert found == Some(|pre|);
    var after := text[|pre| + |MARKER|..];
    assert after == body + rest;
    BeforeFirstPrefix(body, rest, '[');
  }

  /** An answer without the marker is sent trimmed; with it, the sent text holds no `[`. */
  lemma CleanResponseCases(content: String)
    ensures !Contains(Lower(Trim(content)), MARKER) ==> CleanResponse(content) == Trim(content)
    ensures Contains(Lower(Trim(content)), MARKER) ==> '[' !in CleanResponse(content)
    ensures Trim(CleanResponse(content)) == CleanResponse(content)
  {
    var text := Trim(content);
    var capture := MyraCapture(text);
    if capture.Some? {
      var c := capture.value;
      assert CleanResponse(content) == Trim(c);
      TrimIdempotent(c);
      TrimKeepsOut(c, '[');
    } else {
      assert CleanResponse(content) == text;
      TrimIdempotent(content);
    }
  }

  /** `getFallbackResponse(userMessage)`; `pick` is the random index of the greeting or stock reply. */
  function FallbackResponse(userMessage: String, pick: nat): (r: String)
    ensures r != []
  {
    if userMessage == [] then Pick(FALLBACKS, pick)
    else
      var lower := Lower(userMessage);
      if Contains(lower, "name") then NAME_REPLY
      else if Contains(lower, "where") then WHERE_REPLY
      else if Contains(lower, "age") then AGE_REPLY
      else if Contains(lower, "hi") || Contains(lower, "hello") || Contains(lower, "hey") then Pick(GREETINGS, pick)
      else Pick(FALLBACKS, pick)
  }

  /** The fallback is one of the three rule replies, a greeting or a stock reply. */
  lemma FallbackResponseKnown(userMessage: String, pick: nat)
    ensures FallbackResponse(userMessage, pick) in [NAME_REPLY, WHERE_REPLY, AGE_REPLY] + GREETINGS + FALLBACKS
  {
  }

  /** The rules are tried in order: `name`, `where`, `age`, a greeting word, then a stock reply. */
  lemma FallbackResponseCases(userMessage: String, pick: nat)
    requires userMessage != []
    ensures var lower := Lower(userMessage); var r := FallbackResponse(userMessage, pick);
      var greets := Contains(lower, "hi") || Contains(lower, "hello") || Contains(lower, "hey");
      (r == NAME_REPLY <==> Contains(lower, "name"))
      && (r == WHERE_REPLY <==> !Contains(lower, "name") && Contains(lower, "where"))
      && (r == AGE_REPLY <==> !Contains(lower, "name") && !Contains(lower, "where") && Contains(lower, "age"))
      && (r in GREETINGS <==> !Contains(lower, "name") && !Contains(lower, "where") && !Contains(lower, "age") && greets)
      && (r in FALLBACKS <==> !Contains(lower, "name") && !Contains(lower, "where") && !Contains(lower, "age") && !greets)
  {
    RepliesDistinct();
    var lower := Lower(userMessage);
    var r := FallbackResponse(userMessage, pick);
    if !Contains(lower, "name") && !Contains(lower, "where") && !Contains(lower, "age") {
      if Contains(lower, "hi") || Contains(lower, "hello") || Contains(lower, "hey") {
        assert r in GREETINGS;
      } else {
        assert r in FALLBACKS;
      }
    }
  }

  /** The three rule replies, the greetings and the stock replies are all different. */
  lemma RepliesDistinct()
    ensures NAME_REPLY != WHERE_REPLY && NAME_REPLY != AGE_REPLY && WHERE_REPLY != AGE_REPLY
    ensures NAME_REPLY !in GREETINGS && WHERE_REPLY !in GREETINGS && AGE_REPLY !in GREETINGS
    ensures NAME_REPLY !in FALLBACKS && WHERE_REPLY !in FALLBACKS && AGE_REPLY !in FALLBACKS
    ensures forall g :: g in GREETINGS ==> g !in FALLBACKS
  {
  }

  /* ---------- state ---------- */

  /** A pending `setTimeout` callback: an idle nudge, or the delivery of an answer. */
  datatype Task =
    | Idle(chat: ChatId, ref: Ref, delay: nat)
    | Reply(chat: ChatId, ref: Ref, socket: SocketId, userMessage: String, response: String, delay: nat)

  datatype Event =
    | Typing(to: SocketId, sender: String)
    | TypingOff(to: SocketId, sender: String)
    | Message(to: SocketId, chat: ChatId, sender: String, name: String, text: String)

  /** `currentModelIndex`, the session objects, `botSessions`, `botChatMap`, `idleTimers` and the timers. */
  datatype State = State(
    modelIndex: nat,
    heap: map<Ref, Session>,
    sessions: map<ChatId, Ref>,
    chatMap: map<ChatId, SocketId>,
    idleTimers: map<ChatId, Token>,
    pending: map<Token, Task>,
    nextToken: Token,
    nextRef: Ref,
    out: seq<Event>)

  function Initial(): State
  {
    State(0, map[], map[], map[], map[], map[], 0, 0, [])
  }

  /** `isBotChat`. */
  predicate IsBotChat(s: State, chat: ChatId)
  {
    chat in s.sessions
  }

  predicate Linked(s: State)
  {
    (forall c :: c in s.sessions ==> s.sessions[c] in s.heap)
    && (forall t :: t in s.pending ==> s.pending[t].ref in s.heap)
    && (forall p :: p in s.heap ==> p < s.nextRef)
  }

  predicate TokensIssued(s: State)
  {
    (forall t :: t in s.pending ==> t < s.nextToken)
    && (forall c :: c in s.idleTimers ==> s.idleTimers[c] < s.nextToken)
  }

  /** Every pending idle nudge is the one `idleTimers` records for its chat. */
  predicate IdleRecorded(s: State)
  {
    forall t :: t in s.pending && s.pending[t].Idle? ==>
      s.pending[t].chat in s.idleTimers && s.idleTimers[s.pending[t].chat] == t
  }

  /** A recorded idle timer that is still pending is that chat's idle nudge. */
  predicate TimersIdle(s: State)
  {
    forall c :: c in s.idleTimers && s.idleTimers[c] in s.pending ==>
      s.pending[s.idleTimers[c]].Idle? && s.pending[s.idleTimers[c]].chat == c
  }

  predicate Valid(s: State)
  {
    Linked(s) && TokensIssued(s) && IdleRecorded(s) && TimersIdle(s) && s.modelIndex < |MODELS|
  }

  /** `sendBotMessage`: nothing for an empty message or a chat without a socket; otherwise the message goes out. */
  function SendBotMessage(s: State, chat: ChatId, ref: Ref, message: String): (r: State)
    requires ref in s.heap
    ensures r.heap == s.heap && r.sessions == s.sessions && r.chatMap == s.chatMap && r.idleTimers == s.idleTimers
    ensures r.pending == s.pending && r.nextToken == s.nextToken && r.nextRef == s.nextRef && r.modelIndex == s.modelIndex
  {
    var sess := s.heap[ref];
    if message == [] || chat !in s.chatMap || s.chatMap[chat] == [] then s
    else s.(out := s.out + [Message(s.chatMap[chat], chat, sess.botId, sess.displayName, message)])
  }

  /** `startIdleTimer`: the chat's idle timer, if any, is cleared and a new one armed. */
  function StartIdleTimer(s: State, chat: ChatId, ref: Ref): (r: State)
    ensures r.heap == s.heap && r.sessions == s.sessions && r.chatMap == s.chatMap && r.nextRef == s.nextRef
    ensures r.out == s.out && r.modelIndex == s.modelIndex && r.nextToken == s.nextToken + 1
    ensures r.idleTimers == s.idleTimers[chat := s.nextToken]
    ensures s.nextToken in r.pending && r.pending[s.nextToken] == Idle(chat, ref, IDLE_DELAY)
  {
    var kept := if chat in s.idleTimers then s.pending - {s.idleTimers[chat]} else s.pending;
    s.(pending := kept[s.nextToken := Idle(chat, ref, IDLE_DELAY)],
       idleTimers := s.idleTimers[chat := s.nextToken],
       nextToken := s.nextToken + 1)
  }

  /** `clearTimeout(this.idleTimers.get(chatId))` with `this.idleTimers.delete(chatId)`. */
  function ClearIdle(s: State, chat: ChatId): (r: State)
    ensures r.heap == s.heap && r.sessions == s.sessions && r.chatMap == s.chatMap && r.nextRef == s.nextRef
    ensures r.out == s.out && r.modelIndex == s.modelIndex && r.nextToken == s.nextToken
    ensures r.idleTimers == s.idleTimers - {chat} && r.pending.Keys <= s.pending.Keys
  {
    if chat in s.idleTimers then s.(pending := s.pending - {s.idleTimers[chat]}, idleTimers := s.idleTimers - {chat})
    else s
  }

  /** `endSession(chatId)`: the chat leaves all three maps and its idle timer is cleared. */
  function EndSession(s: State, chat: ChatId): (r: State)
    ensures r.heap == s.heap && r.nextToken == s.nextToken && r.nextRef == s.nextRef && r.out == s.out
  {
    ClearIdle(s.(sessions := s.sessions - {chat}, chatMap := s.chatMap - {chat}), chat)
  }

  /**
   * `createBotSession(chatId, virtualProfile, userSocketId)`: the session is registered in
   * both maps, greets the user and starts the idle timer.
   */
  function CreateBotSession(
    s: State, chat: ChatId, vp: VirtualProfile, userSocket: SocketId, idSuffix: String, greetPick: nat): State
  {
    var ref := s.nextRef;
    var s1 := s.(heap := s.heap[ref := NewSession(vp, idSuffix, userSocket)],
                 sessions := s.sessions[chat := ref],
                 chatMap := s.chatMap[chat := userSocket],
                 nextRef := ref + 1);
    StartIdleTimer(SendBotMessage(s1, chat, ref, Pick(GREETINGS, greetPick)), chat, ref)
  }

  /** What the router call came back with: its status and `choices[0].message.content` (`""` when absent), or an error. */
  datatype HfResponse = Response(status: int, content: String) | Failure

  /** The call succeeds only with status 200 and a non-empty content. */
  predicate Succeeded(resp: HfResponse)
  {
    resp.Response? && resp.status == 200 && resp.content != []
  }

  /** The chat's session, if it has one, is a live object. */
  predicate SessionInHeap(s: State, chat: ChatId)
  {
    chat in s.sessions ==> s.sessions[chat] in s.heap
  }

  /** `handleUserMessage` goes past its guards: a session, a non-blank text and a socket. */
  predicate Accepts(s: State, chat: ChatId, message: String)
  {
    chat in s.sessions && Trim(message) != [] && chat in s.chatMap && s.chatMap[chat] != []
  }

  /** The state after `queryHuggingFace`: a 404 rotates the model before the call throws. */
  function Queried(s: State, resp: HfResponse): (r: State)
    ensures r == s || r == s.(modelIndex := RotateModel(s.modelIndex))
  {
    if resp.Response? && resp.status == 404 then s.(modelIndex := RotateModel(s.modelIndex)) else s
  }

  /** The failure path: the typing indicator goes off, a fallback is sent and the idle timer re-armed. */
  function Recover(s: State, chat: ChatId, ref: Ref, socket: SocketId, message: String, pick: nat): State
    requires ref in s.heap
  {
    var botId := s.heap[ref].botId;
    var s1 := s.(out := s.out + [TypingOff(socket, botId)]);
    StartIdleTimer(SendBotMessage(s1, chat, ref, FallbackResponse(message, pick)), chat, ref)
  }

  /**
   * `handleUserMessage(chatId, parsedMsg)` with `message` the payload's text, `resp` the router's
   * answer and `pick` the fallback's random index. On success the answer waits in a timer.
   */
  function HandleUserMessage(s: State, chat: ChatId, message: String, resp: HfResponse, pick: nat): State
    requires SessionInHeap(s, chat)
  {
    if !Accepts(s, chat, message) then s
    else
      var ref := s.sessions[chat];
      var socket := s.chatMap[chat];
      var s2 := Queried(Prompted(s, chat, socket, s.heap[ref].botId), resp);
      if Succeeded(resp) then ArmReply(s2, chat, ref, socket, message, CleanResponse(resp.content))
      else Recover(s2, chat, ref, socket, message, pick)
  }

  /** The part of `handleUserMessage` before the call: the idle timer is cleared and the typing indicator goes on. */
  function Prompted(s: State, chat: ChatId, socket: SocketId, botId: String): (r: State)
    ensures r.heap == s.heap && r.sessions == s.sessions && r.chatMap == s.chatMap && r.nextRef == s.nextRef
    ensures r.modelIndex == s.modelIndex && r.nextToken == s.nextToken && r.idleTimers == s.idleTimers - {chat}
  {
    var s1 := ClearIdle(s, chat);
    s1.(out := s1.out + [Typing(socket, botId)])
  }

  /** The success path: the cleaned answer waits `REPLY_DELAY` in a timer. */
  function ArmReply(s: State, chat: ChatId, ref: Ref, socket: SocketId, message: String, response: String): State
  {
    s.(pending := s.pending[s.nextToken := Reply(chat, ref, socket, message, response, REPLY_DELAY)],
       nextToken := s.nextToken + 1)
  }

  /**
   * The answer's timer fires: the typing indicator goes off, the answer is sent, the exchange
   * goes into the history, the message is counted and the idle timer re-armed.
   */
  function FireReply(s: State, tok: Token): State
    requires tok in s.pending && s.pending[tok].Reply? && s.pending[tok].ref in s.heap
  {
    var t := s.pending[tok];
    var sess := s.heap[t.ref];
    var s1 := s.(pending := s.pending - {tok}, out := s.out + [TypingOff(t.socket, sess.botId)]);
    var s2 := SendBotMessage(s1, t.chat, t.ref, t.response);
    var s3 := s2.(heap := s2.heap[t.ref := sess.(
      history := sess.history + [UserLine(t.userMessage), BotLine(t.response)],
      messageCount := sess.messageCount + 1)]);
    StartIdleTimer(s3, t.chat, t.ref)
  }

  /** `sendIdlePrompt`: the idle timer fires and, if the chat still has a socket, a nudge goes out. */
  function FireIdle(s: State, tok: Token, pick: nat): (r: State)
    requires tok in s.pending && s.pending[tok].Idle? && s.pending[tok].ref in s.heap
  {
    var t := s.pending[tok];
    var sess := s.heap[t.ref];
    var s1 := s.(pending := s.pending - {tok});
    if t.chat !in s.chatMap || s.chatMap[t.chat] == [] then s1
    else s1.(out := s1.out + [Message(s.chatMap[t.chat], t.chat, sess.botId, sess.displayName, Pick(IDLE_PROMPTS, pick))])
  }

  /* ---------- the invariant ---------- */

  lemma InitialValid()
    ensures Valid(Initial())
  {
  }

  lemma SendBotMessageValid(s: State, chat: ChatId, ref: Ref, message: String)
    requires Valid(s) && ref in s.heap
    ensures Valid(SendBotMessage(s, chat, ref, message))
  {
  }

  lemma StartIdleTimerValid(s: State, chat: ChatId, ref: Ref)
    requires Valid(s) && ref in s.heap
    ensures Valid(StartIdleTimer(s, chat, ref))
  {
    var r := StartIdleTimer(s, chat, ref);
    forall t | t in r.pending && r.pending[t].Idle?
      ensures r.pending[t].chat in r.idleTimers && r.idleTimers[r.pending[t].chat] == t
    {
      if t != s.nextToken {
        assert t in s.pending && r.pending[t] == s.pending[t];
      }
    }
  }

  lemma ClearIdleValid(s: State, chat: ChatId)
    requires Valid(s)
    ensures Valid(ClearIdle(s, chat))
  {
  }

  lemma EndSessionValid(s: State, chat: ChatId)
    requires Valid(s)
    ensures Valid(EndSession(s, chat))
  {
    ClearIdleValid(s.(sessions := s.sessions - {chat}, chatMap := s.chatMap - {chat}), chat);
  }

  lemma CreateBotSessionValid(
    s: State, chat: ChatId, vp: VirtualProfile, userSocket: SocketId, idSuffix: String, greetPick: nat)
    requires Valid(s)
    ensures Valid(CreateBotSession(s, chat, vp, userSocket, idSuffix, greetPick))
  {
    var ref := s.nextRef;
    var s1 := s.(heap := s.heap[ref := NewSession(vp, idSuffix, userSocket)],
                 sessions := s.sessions[chat := ref],
                 chatMap := s.chatMap[chat := userSocket],
                 nextRef := ref + 1);
    assert Valid(s1);
    SendBotMessageValid(s1, chat, ref, Pick(GREETINGS, greetPick));
    StartIdleTimerValid(SendBotMessage(s1, chat, ref, Pick(GREETINGS, greetPick)), chat, ref);
  }

  lemma HandleUserMessageValid(s: State, chat: ChatId, message: String, resp: HfResponse, pick: nat)
    requires Valid(s)
    ensures Valid(HandleUserMessage(s, chat, message, resp, pick))
  {
    if Accepts(s, chat, message) {
      var ref := s.sessions[chat];
      var socket := s.chatMap[chat];
      ClearIdleValid(s, chat);
      var s2 := Queried(Prompted(s, chat, socket, s.heap[ref].botId), resp);
      QueriedValid(Prompted(s, chat, socket, s.heap[ref].botId), resp);
      if Succeeded(resp) {
        ArmReplyValid(s2, chat, ref, socket, message, CleanResponse(resp.content));
      } else {
        RecoverValid(s2, chat, ref, socket, message, pick);
      }
    }
  }

  lemma QueriedValid(s: State, resp: HfResponse)
    requires Valid(s)
    ensures Valid(Queried(s, resp))
  {
  }

  lemma ArmReplyValid(s: State, chat: ChatId, ref: Ref, socket: SocketId, message: String, response: String)
    requires Valid(s) && ref in s.heap
    ensures Valid(ArmReply(s, chat, ref, socket, message, response))
  {
  }

  lemma RecoverValid(s: State, chat: ChatId, ref: Ref, socket: SocketId, message: String, pick: nat)
    requires Valid(s) && ref in s.heap
    ensures Valid(Recover(s, chat, ref, socket, message, pick))
  {
    var s3 := s.(out := s.out + [TypingOff(socket, s.heap[ref].botId)]);
    SendBotMessageValid(s3, chat, ref, FallbackResponse(message, pick));
    StartIdleTimerValid(SendBotMessage(s3, chat, ref, FallbackResponse(message, pick)), chat, ref);
  }

  lemma FireReplyValid(s: State, tok: Token)
    requires Valid(s) && tok in s.pending && s.pending[tok].Reply?
    ensures Valid(FireReply(s, tok))
  {
    var t := s.pending[tok];
    var sess := s.heap[t.ref];
    var s1 := s.(pending := s.pending - {tok}, out := s.out + [TypingOff(t.socket, sess.botId)]);
    assert Valid(s1);
    SendBotMessageValid(s1, t.chat, t.ref, t.response);
    var s2 := SendBotMessage(s1, t.chat, t.ref, t.response);
    var s3 := s2.(heap := s2.heap[t.ref := sess.(
      history := sess.history + [UserLine(t.userMessage), BotLine(t.response)],
      messageCount := sess.messageCount + 1)]);
    assert Valid(s3);
    StartIdleTimerValid(s3, t.chat, t.ref);
  }

  lemma FireIdleValid(s: State, tok: Token, pick: nat)
    requires Valid(s) && tok in s.pending && s.pending[tok].Idle?
    ensures Valid(FireIdle(s, tok, pick))
  {
  }

  /* ---------- properties ---------- */

  /** At most one idle nudge is pending per chat. */
  lemma OneIdlePerChat(s: State, t1: Token, t2: Token)
    requires Valid(s)
    requires t1 in s.pending && s.pending[t1].Idle? && t2 in s.pending && s.pending[t2].Idle?
    requires s.pending[t1].chat == s.pending[t2].chat
    ensures t1 == t2
  {
  }

  /** Arming an idle timer clears the chat's previous one, so afterwards it is its only idle nudge. */
  lemma StartIdleTimerReplaces(s: State, chat: ChatId, ref: Ref)
    requires Valid(s) && ref in s.heap
    ensures var r := StartIdleTimer(s, chat, ref);
      r.idleTimers[chat] == s.nextToken && r.pending[s.nextToken].delay == IDLE_DELAY
      && (forall t :: t in r.pending && r.pending[t].Idle? && r.pending[t].chat == chat ==> t == s.nextToken)
      && (chat in s.idleTimers ==> s.idleTimers[chat] !in r.pending)
  {
    StartIdleTimerValid(s, chat, ref);
  }

  /**
   * `createBotSession` registers the chat in both maps with a fresh session, named `Rahul` iff the
   * lowercased gender is `male`, greets the user and leaves exactly one idle nudge armed.
   */
  lemma CreateBotSessionRegisters(
    s: State, chat: ChatId, vp: VirtualProfile, userSocket: SocketId, idSuffix: String, greetPick: nat)
    requires Valid(s)
    ensures var r := CreateBotSession(s, chat, vp, userSocket, idSuffix, greetPick);
      var sess := NewSession(vp, idSuffix, userSocket);
      r.sessions == s.sessions[chat := s.nextRef] && r.chatMap == s.chatMap[chat := userSocket]
      && r.heap == s.heap[s.nextRef := sess]
      && (r.heap[s.nextRef].displayName == "Rahul" <==> Lower(vp.gender) == "male")
      && r.heap[s.nextRef].messageCount == 0 && r.heap[s.nextRef].history == []
      && r.idleTimers[chat] == s.nextToken && r.pending[s.nextToken] == Idle(chat, s.nextRef, IDLE_DELAY)
      && (forall t :: t in r.pending && r.pending[t].Idle? && r.pending[t].chat == chat ==> t == s.nextToken)
      && r.out == s.out + if userSocket == [] then [] else [Message(userSocket, chat, sess.botId, sess.displayName, Pick(GREETINGS, greetPick))]
  {
    var ref := s.nextRef;
    var s1 := s.(heap := s.heap[ref := NewSession(vp, idSuffix, userSocket)],
                 sessions := s.sessions[chat := ref],
                 chatMap := s.chatMap[chat := userSocket],
                 nextRef := ref + 1);
    assert Valid(s1);
    SendBotMessageValid(s1, chat, ref, Pick(GREETINGS, greetPick));
    StartIdleTimerReplaces(SendBotMessage(s1, chat, ref, Pick(GREETINGS, greetPick)), chat, ref);
  }

  /** `handleUserMessage` does nothing without a session, with a blank text or without a socket. */
  lemma HandleUserMessageIgnored(s: State, chat: ChatId, message: String, resp: HfResponse, pick: nat)
    requires SessionInHeap(s, chat) && !Accepts(s, chat, message)
    ensures HandleUserMessage(s, chat, message, resp, pick) == s
  {
  }

  /**
   * On success the user sees the typing indicator, the idle timer is cleared and the cleaned
   * answer waits for its delay; history and count are not touched yet.
   */
  lemma HandleUserMessageSucceeds(s: State, chat: ChatId, message: String, resp: HfResponse, pick: nat)
    requires Valid(s) && Accepts(s, chat, message) && Succeeded(resp)
    ensures var r := HandleUserMessage(s, chat, message, resp, pick);
      var ref := s.sessions[chat]; var socket := s.chatMap[chat];
      r.heap == s.heap && r.sessions == s.sessions && r.modelIndex == s.modelIndex
      && chat !in r.idleTimers && r.nextToken == s.nextToken + 1
      && r.pending[s.nextToken] == Reply(chat, ref, socket, message, CleanResponse(resp.content), REPLY_DELAY)
      && (forall t :: t in r.pending && r.pending[t].Idle? ==> r.pending[t].chat != chat)
      && r.out == s.out + [Typing(socket, s.heap[ref].botId)]
  {
    HandleUserMessageValid(s, chat, message, resp, pick);
  }

  /** `handleUserMessage` past its guards is the prompt, the call, and then one of its two paths. */
  lemma HandleUserMessageSteps(s: State, chat: ChatId, message: String, resp: HfResponse, pick: nat)
    requires SessionInHeap(s, chat) && Accepts(s, chat, message)
    ensures var ref := s.sessions[chat]; var socket := s.chatMap[chat];
      var s2 := Queried(Prompted(s, chat, socket, s.heap[ref].botId), resp);
      HandleUserMessage(s, chat, message, resp, pick)
        == if Succeeded(resp) then ArmReply(s2, chat, ref, socket, message, CleanResponse(resp.content))
           else Recover(s2, chat, ref, socket, message, pick)
  {
  }

  /** The failure path on a chat whose socket is `socket`: off, fallback, idle timer. */
  lemma RecoverEffect(s: State, chat: ChatId, ref: Ref, socket: SocketId, message: String, pick: nat)
    requires ref in s.heap && chat in s.chatMap && s.chatMap[chat] == socket && socket != []
    ensures var r := Recover(s, chat, ref, socket, message, pick); var sess := s.heap[ref];
      r.heap == s.heap && r.sessions == s.sessions && r.chatMap == s.chatMap && r.modelIndex == s.modelIndex
      && chat in r.idleTimers && r.idleTimers[chat] == s.nextToken
      && s.nextToken in r.pending && r.pending[s.nextToken] == Idle(chat, ref, IDLE_DELAY)
      && r.out == s.out + [TypingOff(socket, sess.botId), Message(socket, chat, sess.botId, sess.displayName, FallbackResponse(message, pick))]
  {
  }

  /**
   * On failure the typing indicator goes on and off, a fallback answer is sent and the idle
   * timer re-armed; history and count stay as they were, and a 404 rotates the model.
   */
  lemma HandleUserMessageFails(s: State, chat: ChatId, message: String, resp: HfResponse, pick: nat)
    requires SessionInHeap(s, chat) && Accepts(s, chat, message) && !Succeeded(resp)
    ensures var r := HandleUserMessage(s, chat, message, resp, pick);
      var ref := s.sessions[chat]; var socket := s.chatMap[chat]; var sess := s.heap[ref];
      r.heap == s.heap && r.sessions == s.sessions && r.chatMap == s.chatMap
      && r.modelIndex == (if resp.Response? && resp.status == 404 then RotateModel(s.modelIndex) else s.modelIndex)
      && chat in r.idleTimers && r.idleTimers[chat] == s.nextToken
      && s.nextToken in r.pending && r.pending[s.nextToken] == Idle(chat, ref, IDLE_DELAY)
      && r.out == s.out + [Typing(socket, sess.botId), TypingOff(socket, sess.botId),
                           Message(socket, chat, sess.botId, sess.displayName, FallbackResponse(message, pick))]
  {
    var ref := s.sessions[chat];
    var socket := s.chatMap[chat];
    var sess := s.heap[ref];
    var s1 := Prompted(s, chat, socket, sess.botId);
    assert s1.out == s.out + [Typing(socket, sess.botId)];
    var s2 := Queried(s1, resp);
    assert s2.heap == s.heap && s2.sessions == s.sessions && s2.chatMap == s.chatMap && s2.out == s1.out;
    assert s2.nextToken == s.nextToken;
    HandleUserMessageSteps(s, chat, message, resp, pick);
    RecoverEffect(s2, chat, ref, socket, message, pick);
    AppendOneThenTwo(s.out, Typing(socket, sess.botId), TypingOff(socket, sess.botId),
      Message(socket, chat, sess.botId, sess.displayName, FallbackResponse(message, pick)));
  }

  /** Appending one event and then two is appending the three. */
  lemma AppendOneThenTwo<T>(xs: seq<T>, a: T, b: T, c: T)
    ensures xs + [a] + [b, c] == xs + [a, b, c]
  {
  }

  /**
   * The answer's timer adds exactly the two history lines of the exchange and one to the count,
   * so the next request carries the exchange as a user and an assistant message.
   */
  lemma FireReplyRecords(s: State, tok: Token, modelIndex: nat, next: String)
    requires Valid(s) && tok in s.pending && s.pending[tok].Reply? && modelIndex < |MODELS|
    ensures var t := s.pending[tok]; var sess := s.heap[t.ref]; var r := FireReply(s, tok);
      t.ref in r.heap
      && r.heap[t.ref].history == sess.history + [UserLine(t.userMessage), BotLine(t.response)]
      && r.heap[t.ref].messageCount == sess.messageCount + 1
      && BuildRequest(modelIndex, r.heap[t.ref], next).messages
        == BuildRequest(modelIndex, sess, next).messages[..|sess.history| + 1]
          + [ChatMessage(User, t.userMessage), ChatMessage(Assistant, t.response), ChatMessage(User, next)]
      && r.idleTimers[t.chat] == s.nextToken && r.sessions == s.sessions
  {
    var t := s.pending[tok];
    var sess := s.heap[t.ref];
    var r := FireReply(s, tok);
    HistoryExchange(sess.history, t.userMessage, t.response);
    var before := BuildRequest(modelIndex, sess, next).messages;
    var after := BuildRequest(modelIndex, r.heap[t.ref], next).messages;
    assert after[0] == before[0];
    assert after == [after[0]] + after[1..|after| - 1] + [after[|after| - 1]];
    assert before[..|sess.history| + 1] == [before[0]] + before[1..|before| - 1];
  }

  /** `sendIdlePrompt` neither counts the nudge nor re-arms the timer. */
  lemma FireIdleQuiet(s: State, tok: Token, pick: nat)
    requires Valid(s) && tok in s.pending && s.pending[tok].Idle?
    ensures var r := FireIdle(s, tok, pick);
      r.heap == s.heap && r.idleTimers == s.idleTimers && r.pending == s.pending - {tok}
      && r.nextToken == s.nextToken && r.sessions == s.sessions
      && (forall t :: t in r.pending ==> !(r.pending[t].Idle? && r.pending[t].chat == s.pending[tok].chat))
      && |r.out| <= |s.out| + 1
  {
  }

  /** After `endSession` the chat is in none of the three maps and no idle nudge is pending for it. */
  lemma EndSessionClears(s: State, chat: ChatId)
    requires Valid(s)
    ensures var r := EndSession(s, chat);
      chat !in r.sessions && chat !in r.chatMap && chat !in r.idleTimers && !IsBotChat(r, chat)
      && (forall t :: t in r.pending && r.pending[t].Idle? ==> r.pending[t].chat != chat)
      && (forall c :: c != chat ==> (c in r.idleTimers <==> c in s.idleTimers))
  {
    EndSessionValid(s, chat);
  }

  lemma EndSessionIdempotent(s: State, chat: ChatId)
    ensures EndSession(EndSession(s, chat), chat) == EndSession(s, chat)
  {
    var r := EndSession(s, chat);
    assert r.sessions - {chat} == r.sessions;
    assert r.chatMap - {chat} == r.chatMap;
  }

  /**
   * An answer still in its timer when the session ends is delivered to nobody, yet it is
   * recorded and arms a new idle timer for the ended chat.
   */
  lemma LateReplyRearmsIdle(s: State, chat: ChatId, tok: Token)
    requires Valid(s) && tok in s.pending && s.pending[tok].Reply? && s.pending[tok].chat == chat
    ensures var e := EndSession(s, chat); var r := FireReply(e, tok);
      tok in e.pending && chat !in r.sessions && chat in r.idleTimers
      && r.out == e.out + [TypingOff(s.pending[tok].socket, s.heap[s.pending[tok].ref].botId)]
  {
    var e := EndSession(s, chat);
    assert tok in e.pending;
  }
}
