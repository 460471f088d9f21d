/**
 * The rule-based bot of `free-chat-bot.js`: no model at all, only keyword rules over the
 * lowercased message. A reply goes out after a short thinking delay, held as a pending timer;
 * the session object it updates lives in `heap` under a reference, because the timer keeps
 * using it after `endSession`.
 */
module FreeChatBot {
  import opened Text

  type ChatId = String
  type SocketId = String
  type Ref = nat
  type Token = nat

  const GREETINGS: seq<String> := ["Hey! 😊", "Hi there!", "Hello!", "Hey! How's it going?", "Hi! What's up?"]
  const NAME_REPLIES: seq<String> :=
    ["I'm Riya! What's your name?", "People call me Riya 😊 What about you?", "I'm Riya! And you?"]
  const LOCATION_REPLIES: seq<String> :=
    ["I'm from Bengaluru! Where are you from?", "From Bangalore! What about you?", "Bengaluru! You?"]
  const WORK_REPLIES: seq<String> :=
    ["I work in design! What do you do?", "I'm into graphic design! How about you?", "I do freelance design work! You?"]
  const HOBBY_REPLIES: seq<String> :=
    ["I love music and movies! What about you?", "I enjoy painting and travel! You?", "Big into photography and hiking! Your hobbies?"]
  const AGE_REPLIES: seq<String> :=
    ["Haha I don't share age online 😅", "Let's keep that mystery 😊", "I prefer not to say 😄"]
  const POSITIVE_REPLIES: seq<String> := ["That's awesome! 😄", "Cool! Tell me more!", "Nice! 😊", "Great! 👏"]
  const FOLLOW_UPS: seq<String> :=
    ["What else do you like?", "How's your day going?", "Tell me something fun!", "What brings you here today?"]

  /* ---------- the rules ---------- */

  /** The rule of `generateSmartResponse` that answers a message. */
  datatype Topic = NameTopic | Location | Work | Hobbies | Age | Greeting | Positive | FollowUp

  /** The first rule whose keywords the lowercased text contains; `name` only counts without `your`. */
  function TopicOf(lower: String): Topic
  {
    if Contains(lower, "name") && !Contains(lower, "your") then NameTopic
    else if Contains(lower, "where") || Contains(lower, "from") || Contains(lower, "live") then Location
    else if Contains(lower, "work") || Contains(lower, "job") || Contains(lower, "do for") then Work
    else if Contains(lower, "hobby") || Contains(lower, "interest") || Contains(lower, "like to do") then Hobbies
    else if Contains(lower, "age") || Contains(lower, "old") then Age
    else if Contains(lower, "hi") || Contains(lower, "hello") || Contains(lower, "hey") then Greeting
    else if Contains(lower, "good") || Contains(lower, "great") || Contains(lower, "nice") || Contains(lower, "awesome") then Positive
    else FollowUp
  }

  /** The replies a rule draws from. */
  function Replies(t: Topic): (r: seq<String>)
    ensures |r| > 0
  {
    match t
    case NameTopic => NAME_REPLIES
    case Location => LOCATION_REPLIES
    case Work => WORK_REPLIES
    case Hobbies => HOBBY_REPLIES
    case Age => AGE_REPLIES
    case Greeting => GREETINGS
    case Positive => POSITIVE_REPLIES
    case FollowUp => FOLLOW_UPS
  }

  /** `generateSmartResponse(userMessage, session)`; `pick` is the random index into the rule's replies. */
  function GenerateSmartResponse(userMessage: String, pick: nat): (r: String)
    ensures r in Replies(TopicOf(Lower(userMessage)))
    ensures r != []
  {
    var replies := Replies(TopicOf(Lower(userMessage)));
    assert forall k :: 0 <= k < |replies| ==> replies[k] != [];
    Pick(replies, pick)
  }

  /**
   * The rules are tried in order: a rule answers exactly when its keywords occur and no earlier
   * rule's do, and the default question answers when none does.
   */
  lemma TopicOrder(lower: String)
    ensures var name := Contains(lower, "name") && !Contains(lower, "your");
      var location := Contains(lower, "where") || Contains(lower, "from") || Contains(lower, "live");
      var work := Contains(lower, "work") || Contains(lower, "job") || Contains(lower, "do for");
      var hobby := Contains(lower, "hobby") || Contains(lower, "interest") || Contains(lower, "like to do");
      var age := Contains(lower, "age") || Contains(lower, "old");
      var greet := Contains(lower, "hi") || Contains(lower, "hello") || Contains(lower, "hey");
      var positive := Contains(lower, "good") || Contains(lower, "great") || Contains(lower, "nice") || Contains(lower, "awesome");
      var t := TopicOf(lower);
      (t == NameTopic <==> name)
      && (t == Location <==> !name && location)
      && (t == Work <==> !name && !location && work)
      && (t == Hobbies <==> !name && !location && !work && hobby)
      && (t == Age <==> !name && !location && !work && !hobby && age)
      && (t == Greeting <==> !name && !location && !work && !hobby && !age && greet)
      && (t == Positive <==> !name && !location && !work && !hobby && !age && !greet && positive)
      && (t == FollowUp <==> !name && !location && !work && !hobby && !age && !greet && !positive)
  {
  }

  /**
   * Which rule's list a reply comes from, read off its length and its sixth character. Each set
   * below holds the (length, sixth character) pairs of one rule's replies in `Replies`; no two
   * replies of different rules agree on both, which `ReplyTopicOf` proves for every reply.
   */
  function ReplyTopic(reply: String): Topic
    requires |reply| > 5
  {
    var key := (|reply|, reply[5]);
    if key in {(27, 'i'), (37, 'e'), (18, 'i')} then NameTopic
    else if key in {(39, 'r'), (31, 'B'), (15, 'l')} then Location
    else if key in {(33, 'k'), (39, 'n'), (32, 'f')} then Work
    else if key in {(40, 'e'), (33, 'o'), (46, 'n')} then Hobbies
    else if key in {(31, 'I'), (25, ' '), (21, 'f')} then Age
    else if key in {(6, '😊'), (9, 'e'), (6, '!'), (20, 'H'), (14, 'h')} then Greeting
    else if key in {(17, 's'), (19, ' '), (7, ' '), (8, '!')} then Positive
    else FollowUp
  }

  lemma ReplyTopicOf(t: Topic, i: nat)
    requires i < |Replies(t)|
    ensures |Replies(t)[i]| > 5 && ReplyTopic(Replies(t)[i]) == t
  {
    if t in {NameTopic, Location, Work, Hobbies} {
      QuestionReplyTopic(t, i);
    } else {
      SmallTalkReplyTopic(t, i);
    }
  }

  /** `ReplyTopicOf` for the rules about the bot itself, whose lists hold three replies each. */
  lemma QuestionReplyTopic(t: Topic, i: nat)
    requires t in {NameTopic, Location, Work, Hobbies} && i < |Replies(t)|
    ensures |Replies(t)[i]| > 5 && ReplyTopic(Replies(t)[i]) == t
  {
    match t
    case NameTopic => assert i == 0 || i == 1 || i == 2;
    case Location => assert i == 0 || i == 1 || i == 2;
    case Work => assert i == 0 || i == 1 || i == 2;
    case Hobbies => assert i == 0 || i == 1 || i == 2;
  }

  /** `ReplyTopicOf` for the age, greeting, positive and default rules. */
  lemma SmallTalkReplyTopic(t: Topic, i: nat)
    requires t !in {NameTopic, Location, Work, Hobbies} && i < |Replies(t)|
    ensures |Replies(t)[i]| > 5 && ReplyTopic(Replies(t)[i]) == t
  {
    match t
    case Age => assert i == 0 || i == 1 || i == 2;
    case Greeting => assert i == 0 || i == 1 || i == 2 || i == 3 || i == 4;
    case Positive => assert i == 0 || i == 1 || i == 2 || i == 3;
    case FollowUp => assert i == 0 || i == 1 || i == 2 || i == 3;
  }

  /** No reply belongs to two rules, so a reply tells which rule answered. */
  lemma RepliesDisjoint(t: Topic, u: Topic, reply: String)
    requires reply in Replies(t) && reply in Replies(u)
    ensures t == u
  {
    var i :| 0 <= i < |Replies(t)| && Replies(t)[i] == reply;
    var j :| 0 <= j < |Replies(u)| && Replies(u)[j] == reply;
    ReplyTopicOf(t, i);
    ReplyTopicOf(u, j);
  }

  /** The reply to a message is one of the replies of the first rule that matches it, and of no other rule. */
  lemma ResponseShowsTopic(userMessage: String, pick: nat, t: Topic)
    ensures GenerateSmartResponse(userMessage, pick) in Replies(t) <==> t == TopicOf(Lower(userMessage))
  {
    var r := GenerateSmartResponse(userMessage, pick);
    if r in Replies(t) {
      RepliesDisjoint(t, TopicOf(Lower(userMessage)), r);
    }
  }

  /* ---------- sessions and state ---------- */

  /** The `virtualProfile` fields read here; an absent field is `""`. */
  datatype VirtualProfile = VirtualProfile(id: String, displayName: String, name: String)

  datatype Session = Session(
    botId: String, displayName: String, messageCount: nat, lastUserMessage: String, userSocketId: SocketId)

  /**
   * The session `createBotSession` builds; `idSuffix` stands for the random
   * `Math.random().toString(36).slice(2, 9)` used when the profile has no id.
   */
  function NewSession(vp: VirtualProfile, idSuffix: String, userSocket: SocketId): (r: Session)
    ensures r.messageCount == 0 && r.lastUserMessage == [] && r.userSocketId == userSocket
    ensures r.botId != [] && r.displayName != []
  {
    Session(OrElse(vp.id, "bot_" + idSuffix), OrElse(OrElse(vp.displayName, vp.name), "Riya"), 0, [], userSocket)
  }

  /** The display name comes from `displayName`, else `name`, else is `Riya`. */
  lemma DisplayNameFallback(vp: VirtualProfile, idSuffix: String, userSocket: SocketId)
    ensures var n := NewSession(vp, idSuffix, userSocket).displayName;
      (vp.displayName != [] ==> n == vp.displayName)
      && (vp.displayName == [] && vp.name != [] ==> n == vp.name)
      && (vp.displayName == [] && vp.name == [] ==> n == "Riya")
  {
  }

  /** A pending `setTimeout` callback: the reply to `userMessage` after the thinking delay. */
  datatype Task = Respond(chat: ChatId, ref: Ref, socket: SocketId, userMessage: String)

  datatype Event =
    | Typing(to: SocketId, sender: String)
    | TypingOff(to: SocketId, sender: String)
    | Message(to: SocketId, chat: ChatId, sender: String, name: String, text: String)

  /** The session objects, `botSessions`, `botChatMap` and the timers. */
  datatype State = State(
    heap: map<Ref, Session>,
    sessions: map<ChatId, Ref>,
    chatMap: map<ChatId, SocketId>,
    pending: map<Token, Task>,
    nextToken: Token,
    nextRef: Ref,
    out: seq<Event>)

  function Initial(): State
  {
    State(map[], map[], map[], map[], 0, 0, [])
  }

  /** `isBotChat`. */
  predicate IsBotChat(s: State, chat: ChatId)
  {
    chat in s.sessions
  }

  predicate Valid(s: State)
  {
    (forall c :: c in s.sessions ==> s.sessions[c] in s.heap)
    && (forall t :: t in s.pending ==> s.pending[t].ref in s.heap)
    && (forall p :: p in s.heap ==> p < s.nextRef)
    && (forall t :: t in s.pending ==> t < s.nextToken)
  }

  /** `sendBotMessage`: nothing for an empty message or a chat without a socket; otherwise the message goes out. */
  function SendBotMessage(s: State, chat: ChatId, ref: Ref, message: String): (r: State)
    requires ref in s.heap
    ensures r.heap == s.heap && r.sessions == s.sessions && r.chatMap == s.chatMap
    ensures r.pending == s.pending && r.nextToken == s.nextToken && r.nextRef == s.nextRef
  {
    var sess := s.heap[ref];
    if message == [] || chat !in s.chatMap || s.chatMap[chat] == [] then s
    else s.(out := s.out + [Message(s.chatMap[chat], chat, sess.botId, sess.displayName, message)])
  }

  /** `createBotSession(chatId, virtualProfile, userSocketId)`: registered in both maps, then a greeting. */
  function CreateBotSession(
    s: State, chat: ChatId, vp: VirtualProfile, userSocket: SocketId, idSuffix: String, greetPick: nat): State
  {
    var ref := s.nextRef;
    var s1 := s.(heap := s.heap[ref := NewSession(vp, idSuffix, userSocket)],
                 sessions := s.sessions[chat := ref],
                 chatMap := s.chatMap[chat := userSocket],
                 nextRef := ref + 1);
    SendBotMessage(s1, chat, ref, Pick(GREETINGS, greetPick))
  }

  /** `handleUserMessage` goes past its guards: a session, a non-blank text and a socket. */
  predicate Accepts(s: State, chat: ChatId, message: String)
  {
    chat in s.sessions && Trim(message) != [] && chat in s.chatMap && s.chatMap[chat] != []
  }

  /**
   * `handleUserMessage(chatId, parsedMsg)` with `message` the payload's text: the typing
   * indicator goes on and the reply waits for the thinking delay.
   */
  function HandleUserMessage(s: State, chat: ChatId, message: String): State
    requires Valid(s)
  {
    if !Accepts(s, chat, message) then s
    else
      var ref := s.sessions[chat];
      var socket := s.chatMap[chat];
      s.(out := s.out + [Typing(socket, s.heap[ref].botId)],
         pending := s.pending[s.nextToken := Respond(chat, ref, socket, message)],
         nextToken := s.nextToken + 1)
  }

  /**
   * The thinking delay ends: the typing indicator goes off, the reply is sent, and the session
   * counts the message and remembers the user's text. `pick` is the reply's random index.
   */
  function FireRespond(s: State, tok: Token, pick: nat): State
    requires tok in s.pending && s.pending[tok].ref in s.heap
  {
    var t := s.pending[tok];
    var sess := s.heap[t.ref];
    var s1 := s.(pending := s.pending - {tok}, out := s.out + [TypingOff(t.socket, sess.botId)]);
    var s2 := SendBotMessage(s1, t.chat, t.ref, GenerateSmartResponse(t.userMessage, pick));
    s2.(heap := s2.heap[t.ref := sess.(messageCount := sess.messageCount + 1, lastUserMessage := t.userMessage)])
  }

  /** `endSession(chatId)`: the chat leaves both maps. */
  function EndSession(s: State, chat: ChatId): (r: State)
    ensures r.heap == s.heap && r.pending == s.pending && r.nextToken == s.nextToken && r.nextRef == s.nextRef
    ensures r.out == s.out
  {
    s.(sessions := s.sessions - {chat}, chatMap := s.chatMap - {chat})
  }

  /* ---------- the invariant ---------- */

  lemma InitialValid()
    ensures Valid(Initial())
  {
  }

  lemma CreateBotSessionValid(
    s: State, chat: ChatId, vp: VirtualProfile, userSocket: SocketId, idSuffix: String, greetPick: nat)
    requires Valid(s)
    ensures Valid(CreateBotSession(s, chat, vp, userSocket, idSuffix, greetPick))
  {
  }

  lemma HandleUserMessageValid(s: State, chat: ChatId, message: String)
    requires Valid(s)
    ensures Valid(HandleUserMessage(s, chat, message))
  {
  }

  lemma FireRespondValid(s: State, tok: Token, pick: nat)
    requires Valid(s) && tok in s.pending
    ensures Valid(FireRespond(s, tok, pick))
  {
  }

  lemma EndSessionValid(s: State, chat: ChatId)
    requires Valid(s)
    ensures Valid(EndSession(s, chat))
  {
  }

  /* ---------- properties ---------- */

  /** `sendBotMessage` sends exactly one message when it has a text and a socket, and nothing otherwise. */
  lemma SendBotMessageSends(s: State, chat: ChatId, ref: Ref, message: String)
    requires ref in s.heap
    ensures var r := SendBotMessage(s, chat, ref, message);
      (message == [] || chat !in s.chatMap || s.chatMap[chat] == [] ==> r == s)
      && (message != [] && chat in s.chatMap && s.chatMap[chat] != [] ==>
            r.out == s.out + [Message(s.chatMap[chat], chat, s.heap[ref].botId, s.heap[ref].displayName, message)])
  {
  }

  /** `createBotSession` registers a fresh session, counting from 0, in both maps and greets the user. */
  lemma CreateBotSessionRegisters(
    s: State, chat: ChatId, vp: VirtualProfile, userSocket: SocketId, idSuffix: String, greetPick: nat)
    requires Valid(s)
    ensures var r := CreateBotSession(s, chat, vp, userSocket, idSuffix, greetPick);
      var sess := NewSession(vp, idSuffix, userSocket);
      r.sessions == s.sessions[chat := s.nextRef] && r.chatMap == s.chatMap[chat := userSocket]
      && r.heap == s.heap[s.nextRef := sess] && s.nextRef !in s.heap
      && r.heap[s.nextRef].messageCount == 0 && IsBotChat(r, chat)
      && r.out == s.out + if userSocket == [] then [] else [Message(userSocket, chat, sess.botId, sess.displayName, Pick(GREETINGS, greetPick))]
  {
  }

  /** `handleUserMessage` does nothing without a session, with a blank text or without a socket. */
  lemma HandleUserMessageIgnored(s: State, chat: ChatId, message: String)
    requires Valid(s) && !Accepts(s, chat, message)
    ensures HandleUserMessage(s, chat, message) == s
  {
  }

  /**
   * An accepted message shows the typing indicator and arms the reply; the session is not
   * touched until the reply goes out.
   */
  lemma HandleUserMessageArms(s: State, chat: ChatId, message: String)
    requires Valid(s) && Accepts(s, chat, message)
    ensures var r := HandleUserMessage(s, chat, message); var ref := s.sessions[chat];
      r.heap == s.heap && r.sessions == s.sessions && r.nextToken == s.nextToken + 1
      && s.nextToken !in s.pending
      && r.pending == s.pending[s.nextToken := Respond(chat, ref, s.chatMap[chat], message)]
      && r.out == s.out + [Typing(s.chatMap[chat], s.heap[ref].botId)]
  {
  }

  /**
   * When the reply goes out the session's count rises by exactly one and it remembers the
   * user's text; the reply reaches the user iff the chat still has a socket.
   */
  lemma FireRespondCounts(s: State, tok: Token, pick: nat)
    requires Valid(s) && tok in s.pending
    ensures var t := s.pending[tok]; var sess := s.heap[t.ref]; var r := FireRespond(s, tok, pick);
      r.heap == s.heap[t.ref := sess.(messageCount := sess.messageCount + 1, lastUserMessage := t.userMessage)]
      && r.pending == s.pending - {tok} && r.sessions == s.sessions
      && r.out == s.out + [TypingOff(t.socket, sess.botId)]
           + (if t.chat in s.chatMap && s.chatMap[t.chat] != [] then
                [Message(s.chatMap[t.chat], t.chat, sess.botId, sess.displayName, GenerateSmartResponse(t.userMessage, pick))]
              else [])
  {
  }

  /** After `endSession` the chat is in neither map and is no longer a bot chat; other chats keep theirs. */
  lemma EndSessionClears(s: State, chat: ChatId)
    ensures var r := EndSession(s, chat);
      chat !in r.sessions && chat !in r.chatMap && !IsBotChat(r, chat)
      && (forall c :: c != chat && c in s.sessions ==> c in r.sessions && r.sessions[c] == s.sessions[c])
      && EndSession(r, chat) == r
  {
    var r := EndSession(s, chat);
    assert r.sessions - {chat} == r.sessions;
    assert r.chatMap - {chat} == r.chatMap;
  }
}
