/**
 * The queue server with timeout escalation and a virtual fleet (`oldApp.js`),
 * as a state and one pure function per event. Every socket handler, timer
 * callback and fleet job is a function from the old state to the new one;
 * `OldAppServer.Server` performs the same updates in place.
 *
 * Timers are an explicit table: arming a timer stores its callback under a
 * fresh token, `clearTimeout` removes the token, and a timer firing is an event
 * that names a pending token. Emitted socket events are appended to `out`.
 */
module OldApp {
  import opened Text
  import opened WaitQueue
  import Reply = OldAppReply

  type Token = nat
  type ChatId = String

  /** `2 * 60 * 1000`: the cooldown stamped on a profile when it is put in the queue. */
  const ADD_COOLDOWN_MS: nat := 120000
  /** `3 * 60 * 1000`: the cooldown stamped on a virtual entry when a waiting user gets it. */
  const PICK_COOLDOWN_MS: nat := 180000
  /** A bot chat says goodbye once its session has counted this many messages. */
  const MESSAGE_LIMIT: nat := 20
  /** `MIN_GHOSTS_IN_QUEUE`. */
  const MIN_GHOSTS_IN_QUEUE: nat := 2000

  const GREETINGS: seq<String> := ["hi", "hey", "hello", "hi there"]
  const GOODBYES: seq<String> := [
    "It was really nice chatting with you 😊",
    "Haha this was fun 😄 see you around!",
    "Nice talking to you! 👋",
    "That was a cool chat 😎 catch you later!",
    "Had a good time talking 😄 take care!",
    "Alright, I’ll go now 😊 was nice meeting you!"
  ]
  const FOLLOW_UPS: seq<String> := [
    "You there? 😄",
    "Haha went silent 😅 what you doing?",
    "Still here?",
    "Tell me about yourself 😄",
    "So, what do you do?",
    "What kind of music do you like?",
    "Haha don’t go quiet on me 😅"
  ]

  /** Keys of virtual entries are `virtual_<profile id>`. */
  predicate IsVirtualKey(id: Id)
  {
    StartsWith(id, "virtual_")
  }

  /** Keys are distinct, and an entry is virtual exactly when its key has the `virtual_` prefix. */
  predicate QueueOk(q: seq<WaitEntry>)
  {
    UniqueIds(q) && forall e :: e in q ==> (e.Virtual? <==> IsVirtualKey(e.id))
  }

  /** No human waits under a `virtual_` key. */
  lemma {:induction false} HumanKeysNotVirtual(q: seq<WaitEntry>)
    requires forall e :: e in q ==> (e.Virtual? <==> IsVirtualKey(e.id))
    ensures forall x :: x in HumanIds(q) ==> !IsVirtualKey(x)
  {
    if q != [] {
      assert q[0] in q;
      assert forall e :: e in q[1..] ==> e in q;
      HumanKeysNotVirtual(q[1..]);
    }
  }

  /** An element of `virtualUsers`; `cooldownUntil` is the runtime `__cooldownUntil` (0 when unset). */
  datatype VirtualProfile = VirtualProfile(id: String, name: String, gender: String, persona: String, city: String, cooldownUntil: int)

  /**
   * `makeVirtualEntry(profile)`; `idSuffix` stands for the random
   * `Math.random().toString(36).slice(2, 9)` the key falls back to when the profile has no id.
   */
  function MakeVirtualEntry(p: VirtualProfile, idSuffix: String): (e: WaitEntry)
    ensures e.Virtual? && IsVirtualKey(e.id) && e.id[|"virtual_"|..] == (if p.id != [] then p.id else idSuffix)
    ensures e.cooldownUntil == 0 && e.displayName != [] && e.gender != [] && e.persona != []
  {
    Virtual("virtual_" + OrElse(p.id, idSuffix), OrElse(p.name, "Mysti"), OrElse(p.gender, "Any"), OrElse(p.persona, "friendly"), p.city, 0)
  }

  /**
   * Two entries share a key exactly when their profiles' ids (or, for a profile without one,
   * the drawn suffixes) agree: profiles with different ids never collide.
   */
  lemma VirtualKeysDistinct(p: VirtualProfile, x: String, p': VirtualProfile, x': String)
    ensures MakeVirtualEntry(p, x).id == MakeVirtualEntry(p', x').id
            <==> (if p.id != [] then p.id else x) == (if p'.id != [] then p'.id else x')
  {
    assert MakeVirtualEntry(p, x).id[8..] == (if p.id != [] then p.id else x);
    assert MakeVirtualEntry(p', x').id[8..] == (if p'.id != [] then p'.id else x');
  }

  /** What `sendBotMessage` reads from its `botProfile` argument. */
  datatype Sender = Sender(id: Id, name: String)

  /** The callback of a pending timer. */
  datatype Task =
    | Evict(user: Id, socket: SocketId)                      // `readyToPair`'s 30-second countdown
    | Greet(chat: ChatId, bot: Sender)                       // the bot's first message
    | Deliver(chat: ChatId, bot: Sender, message: String)    // the second half of `sendBotMessage`, after typing
    | Goodbye(chat: ChatId, bot: Sender, message: String)    // the farewell after the message limit
    | EndChat(chat: ChatId)                                  // `endBotChat`, 500 ms after the farewell
    | FollowUp(chat: ChatId, bot: Sender)                    // `scheduleFollowUp`'s nudge
    | Reply(chat: ChatId, bot: Sender, message: String)      // the bot's delayed answer to a user message

  /** Where `io.to(...)` sends: a user's socket, or the room named by the chat id. */
  datatype Target = ToSocket(socket: SocketId) | ToRoom(room: ChatId)

  datatype Event =
    | Waiting(to: SocketId, alreadyQueued: bool)
    | Paired(to: SocketId, partner: Id, partnerGender: String)
    | BotPaired(to: SocketId, bot: Id, botGender: String, botName: String, chat: ChatId)
    | TimedOut(to: SocketId)
    | PreferenceUpdated(to: SocketId)
    | UserCount(totalUsers: nat, waitingUsers: nat)
    | Relayed(target: Target, chat: ChatId, text: String)
    | Typing(target: Target)
    | TypingOff(target: Target)
    | BotMessage(target: Target, chat: ChatId, sender: Sender, text: String)
    | ChatEnded(target: Target, chat: ChatId)

  /**
   * A bot session object. Timer callbacks keep a reference to it after `endBotChat` takes it
   * out of `botSessions`, so sessions are never forgotten: `registered` says whether
   * `botSessions` still holds it.
   */
  datatype BotSession = BotSession(botId: Id, messageCount: nat, persona: String, followUp: Option<Token>, registered: bool)

  /** An entry of `chatAnalytics`. */
  datatype Stats = Stats(botName: String, startTime: int, messageCount: nat, persona: String, city: String, profession: String, hobby: String)

  datatype State = State(
    waiting: seq<WaitEntry>,            // waitingUsers
    timers: map<Id, Token>,             // timers
    active: set<Id>,                    // activeUsers
    lastBot: map<Id, Id>,               // userLastBotMap
    sessions: map<ChatId, BotSession>,  // every session object; botSessions holds the registered ones
    analytics: map<ChatId, Stats>,      // chatAnalytics
    botChat: map<ChatId, SocketId>,     // botChatMap
    pool: seq<VirtualProfile>,          // virtualUsers
    pending: map<Token, Task>,          // armed, not yet fired or cleared timers
    nextToken: Token,
    out: seq<Event>)

  /** The server as it starts, with the profiles read from `virtual_users.json`. */
  function Initial(pool: seq<VirtualProfile>): State
  {
    State([], map[], {}, map[], map[], map[], map[], pool, map[], 0, [])
  }

  /** `botSessions.has(chat)`. */
  predicate HasSession(s: State, chat: ChatId)
  {
    chat in s.sessions && s.sessions[chat].registered
  }

  /** `setTimeout(callback)`: the callback is stored under the next token. */
  function Arm(s: State, t: Task): State
  {
    s.(pending := s.pending[s.nextToken := t], nextToken := s.nextToken + 1)
  }

  /** `clearTimeout(token)`. */
  function Cancel(s: State, tok: Token): State
  {
    s.(pending := s.pending - {tok})
  }

  /** `broadcastUserCount()`. */
  function Broadcast(s: State): State
  {
    s.(out := s.out + [UserCount(|s.active|, |s.waiting|)])
  }

  /** `timers.has(id)` then `clearTimeout(timers.get(id))` and `timers.delete(id)`. */
  function DropTimer(s: State, id: Id): State
  {
    if id in s.timers then Cancel(s, s.timers[id]).(timers := s.timers - {id}) else s
  }

  /** The socket of a bot chat's user when `botChatMap` has one, else the chat's room. */
  function TargetOf(s: State, chat: ChatId): Target
  {
    if chat in s.botChat then ToSocket(s.botChat[chat]) else ToRoom(chat)
  }

  /** Take `id` out of the queue with its timer and its place in `activeUsers`, then broadcast. */
  function Withdraw(s: State, id: Id): State
  {
    var s1 := DropTimer(s.(waiting := Remove(s.waiting, id)), id);
    Broadcast(s1.(active := s1.active - {id}))
  }

  // ------------------------------------------------------------------ matching

  /**
   * The match branch of `readyToPair`: both users are told, the partner leaves the queue with its
   * countdown, neither stays active, and the counts are broadcast.
   */
  function PairWith(s: State, w: WaitEntry, id: Id, gender: String, socket: SocketId): State
    requires w.Human?
  {
    var s1 := s.(out := s.out + [Paired(w.socketId, id, gender), Paired(socket, w.id, w.gender)]);
    Withdraw(s1.(active := s1.active - {id}), w.id)
  }

  /** The no-match branch of `readyToPair`: queue the newcomer and arm its 30-second countdown. */
  function Enqueue(s: State, id: Id, gender: String, interest: String, socket: SocketId): State
  {
    var s1 := s.(waiting := Upsert(s.waiting, Human(id, gender, interest, socket)), out := s.out + [Waiting(socket, false)]);
    var s2 := Arm(s1, Evict(id, socket));
    Broadcast(s2.(timers := s2.timers[id := s1.nextToken]))
  }

  /** The `readyToPair` handler for a parsed payload `{ id, gender, interestedIn }` from `socket`. */
  function ReadyToPair(s: State, id: Id, gender: String, interest: String, socket: SocketId): State
  {
    var s1 := s.(active := s.active + {id});
    if id in Ids(s1.waiting) then s1.(out := s1.out + [Waiting(socket, true)])
    else match FirstCompatibleFrom(s1.waiting, gender, interest, 0)
      case Some(i) => PairWith(s1, s1.waiting[i], id, gender, socket)
      case None => Enqueue(s1, id, gender, interest, socket)
  }

  // ------------------------------------------------------------------ timeout

  /** A virtual entry `pickVirtualFromWaiting` may take: its cooldown is unset or over. */
  predicate Available(e: WaitEntry, now: int)
  {
    e.Virtual? && (e.cooldownUntil == 0 || now > e.cooldownUntil)
  }

  function FirstAvailableFrom(q: seq<WaitEntry>, now: int, k: nat): (r: Option<nat>)
    requires k <= |q|
    decreases |q| - k
    ensures r.Some? ==> k <= r.value < |q| && Available(q[r.value], now)
    ensures r.Some? ==> forall j :: k <= j < r.value ==> !Available(q[j], now)
    ensures r.None? ==> forall j :: k <= j < |q| ==> !Available(q[j], now)
  {
    if k == |q| then None
    else if Available(q[k], now) then Some(k)
    else FirstAvailableFrom(q, now, k + 1)
  }

  /** The entry `pickVirtualFromWaiting` returns, if any, and the queue it leaves. */
  datatype Picked = Picked(bot: Option<WaitEntry>, rest: seq<WaitEntry>)

  /** `pickVirtualFromWaiting()`: take the first available virtual entry and stamp a 3-minute cooldown on it. */
  function PickVirtual(q: seq<WaitEntry>, now: int): (r: Picked)
    ensures r.bot.Some? ==> r.bot.value.Virtual? && r.bot.value.cooldownUntil == now + PICK_COOLDOWN_MS
  {
    match FirstAvailableFrom(q, now, 0)
    case None => Picked(None, q)
    case Some(i) => Picked(Some(q[i].(cooldownUntil := now + PICK_COOLDOWN_MS)), Remove(q, q[i].id))
  }

  /** `startBotConversation(chatId, botProfile, realUserId)`. */
  function StartBotConversation(s: State, chat: ChatId, v: WaitEntry, now: int): State
    requires v.Virtual?
  {
    var personaKey := OrElse(v.persona, "friendly");
    var s1 := s.(
      analytics := s.analytics[chat := Stats(v.displayName, now, 0, personaKey, v.city, "", "")],
      sessions := s.sessions[chat := BotSession(v.id, 0, personaKey, None, true)]);
    Arm(s1, Greet(chat, Sender(v.id, v.displayName)))
  }

  /** The countdown callback's body once `waitingUsers.has(id)` holds; `chat` is the chat id it makes. */
  function Timeout(s: State, id: Id, socket: SocketId, now: int, chat: ChatId): State
  {
    var first := PickVirtual(s.waiting, now);
    var repeated := first.bot.Some? && id in s.lastBot && s.lastBot[id] == first.bot.value.id;
    var chosen := if repeated then PickVirtual(first.rest, now) else first;
    var s1 := s.(waiting := chosen.rest);
    match chosen.bot
    case Some(v) =>
      var s2 := s1.(
        lastBot := s1.lastBot[id := v.id],
        waiting := Remove(s1.waiting, id),
        timers := s1.timers - {id},
        active := s1.active - {id},
        out := s1.out + [BotPaired(socket, v.id, v.gender, v.displayName, chat)],
        botChat := s1.botChat[chat := socket]);
      Broadcast(StartBotConversation(s2, chat, v, now))
    case None =>
      var s2 := Broadcast(s1.(waiting := Remove(s1.waiting, id), timers := s1.timers - {id}, active := s1.active - {id}));
      s2.(out := s2.out + [TimedOut(socket)])
  }

  /** The countdown of `readyToPair` fires. */
  function FireEvict(s: State, tok: Token, now: int, chat: ChatId): State
    requires tok in s.pending && s.pending[tok].Evict?
  {
    var t := s.pending[tok];
    var s0 := Cancel(s, tok);
    if t.user in Ids(s0.waiting) then Timeout(s0, t.user, t.socket, now, chat) else s0
  }

  // ------------------------------------------------------------------ leaving the queue

  /** The `changePreference` handler. */
  function ChangePreference(s: State, id: Id, socket: SocketId): State
  {
    var s1 := if id in Ids(s.waiting) then Withdraw(s, id) else s;
    s1.(out := s1.out + [PreferenceUpdated(socket)])
  }

  /** The `disconnect` handler of `socket`: the first entry on that socket leaves. */
  function Disconnect(s: State, socket: SocketId): State
  {
    match FirstOnSocketFrom(s.waiting, socket, 0)
    case None => s
    case Some(i) => Withdraw(s, s.waiting[i].id)
  }

  // ------------------------------------------------------------------ bot chat

  /**
   * `sendBotMessage(chatId, botProfile, message)`: when the chat has a session, count the message,
   * show the typing indicator and arm the delivery.
   */
  function SendBotMessage(s: State, chat: ChatId, bot: Sender, message: String): State
  {
    if !HasSession(s, chat) then s
    else
      var sess := s.sessions[chat];
      var s1 := s.(
        sessions := s.sessions[chat := sess.(messageCount := sess.messageCount + 1)],
        analytics := if chat in s.analytics then s.analytics[chat := s.analytics[chat].(messageCount := s.analytics[chat].messageCount + 1)] else s.analytics,
        out := s.out + [Typing(TargetOf(s, chat))]);
      Arm(s1, Deliver(chat, bot, message))
  }

  /**
   * The delivery timer of `sendBotMessage` fires: the message goes to the chat's current target,
   * the session it captured (registered or not) drops its follow-up timer, and a session that
   * has reached the message limit arms the farewell `GOODBYES[byePick]`.
   */
  function FireDeliver(s: State, tok: Token, byePick: nat): State
    requires tok in s.pending && s.pending[tok].Deliver? && s.pending[tok].chat in s.sessions
    requires byePick < |GOODBYES|
  {
    var t := s.pending[tok];
    var s0 := Cancel(s, tok);
    var target := TargetOf(s0, t.chat);
    var s1 := s0.(out := s0.out + [TypingOff(target), BotMessage(target, t.chat, t.bot, t.message)]);
    var sess := s1.sessions[t.chat];
    var s2 := if sess.followUp.Some? then Cancel(s1, sess.followUp.value).(sessions := s1.sessions[t.chat := sess.(followUp := None)]) else s1;
    if sess.messageCount >= MESSAGE_LIMIT then Arm(s2, Goodbye(t.chat, t.bot, GOODBYES[byePick])) else s2
  }

  /** The farewell timer fires: send the farewell, then arm `endBotChat` 500 ms later. */
  function FireGoodbye(s: State, tok: Token): State
    requires tok in s.pending && s.pending[tok].Goodbye?
  {
    var t := s.pending[tok];
    Arm(SendBotMessage(Cancel(s, tok), t.chat, t.bot, t.message), EndChat(t.chat))
  }

  /** `endBotChat(chatId)`. */
  function EndBotChat(s: State, chat: ChatId): State
  {
    var s1 := s.(
      sessions := if chat in s.sessions then s.sessions[chat := s.sessions[chat].(registered := false)] else s.sessions,
      out := s.out + [ChatEnded(TargetOf(s, chat), chat)]);
    s1.(analytics := s1.analytics - {chat}, botChat := s1.botChat - {chat})
  }

  function FireEndChat(s: State, tok: Token): State
    requires tok in s.pending && s.pending[tok].EndChat?
  {
    EndBotChat(Cancel(s, tok), s.pending[tok].chat)
  }

  /** `scheduleFollowUp(chatId, botProfile)`: replace the session's follow-up timer by a fresh one. */
  function ScheduleFollowUp(s: State, chat: ChatId, bot: Sender): State
  {
    if !HasSession(s, chat) then s
    else
      var sess := s.sessions[chat];
      var s1 := if sess.followUp.Some? then Cancel(s, sess.followUp.value) else s;
      var s2 := Arm(s1, FollowUp(chat, bot));
      s2.(sessions := s2.sessions[chat := sess.(followUp := Some(s1.nextToken))])
  }

  /** The follow-up timer fires and sends `FOLLOW_UPS[pick]`. */
  function FireFollowUp(s: State, tok: Token, pick: nat): State
    requires tok in s.pending && s.pending[tok].FollowUp? && pick < |FOLLOW_UPS|
  {
    var t := s.pending[tok];
    SendBotMessage(Cancel(s, tok), t.chat, t.bot, FOLLOW_UPS[pick])
  }

  /** The greeting timer of `startBotConversation` fires and sends `GREETINGS[pick]`. */
  function FireGreet(s: State, tok: Token, pick: nat): State
    requires tok in s.pending && s.pending[tok].Greet? && pick < |GREETINGS|
  {
    var t := s.pending[tok];
    SendBotMessage(Cancel(s, tok), t.chat, t.bot, GREETINGS[pick])
  }

  /** The bot's delayed answer fires: send it, then schedule a follow-up. */
  function FireReply(s: State, tok: Token): State
    requires tok in s.pending && s.pending[tok].Reply?
  {
    var t := s.pending[tok];
    ScheduleFollowUp(SendBotMessage(Cancel(s, tok), t.chat, t.bot, t.message), t.chat, t.bot)
  }

  /** The persona key `sendMessage` passes to `generateBotReply`. */
  function ReplyPersona(s: State, chat: ChatId): String
    requires chat in s.sessions
  {
    OrElse(s.sessions[chat].persona, "friendly")
  }

  /** The profile `sendMessage` builds from the session and `chatAnalytics` for the reply. */
  function ReplyProfile(s: State, chat: ChatId): Reply.BotProfile
    requires chat in s.sessions
  {
    var id := s.sessions[chat].botId;
    if chat in s.analytics then
      var st := s.analytics[chat];
      Reply.BotProfile(id, OrElse(st.botName, "Mysti"), st.city, st.profession, st.hobby)
    else Reply.BotProfile(id, "Mysti", "", "", "")
  }

  /**
   * The `sendMessage` handler for a message of the chat `chat` with raw payload `raw`, text `text`
   * and `isBot` flag `fromBot`: relay it, and in a bot chat arm the bot's reply drawn with `d`.
   */
  function UserMessage(s: State, chat: ChatId, raw: String, text: String, fromBot: bool, d: Reply.ReplyDraws): State
    requires HasSession(s, chat) ==> Reply.DrawsFit(ReplyPersona(s, chat), d)
  {
    var s1 := s.(out := s.out + [Relayed(TargetOf(s, chat), chat, raw)]);
    if fromBot || !HasSession(s1, chat) then s1
    else
      var p := ReplyProfile(s1, chat);
      Arm(s1, Reply(chat, Sender(p.id, p.displayName), Reply.GenerateBotReply(text, ReplyPersona(s1, chat), p, d)))
  }
}
