/**
 * The small-model bot of `botModule.js`. Replies come from a local language model behind two
 * worker hosts taken in turn; here the model's streamed answer is an input (`None` when the
 * call fails). Every message goes out after a short typing delay, held as a pending timer, and
 * after each reply a follow-up nudge is armed. Session objects live in `heap` under a
 * reference, because the timers keep using the object after `endSession` has dropped the chat.
 */
module BotModule {
  import opened Text

  type ChatId = String
  type SocketId = String
  type Ref = nat
  type Token = nat

  const BOT_MESSAGE_LIMIT: nat := 20
  const MEMORY_WINDOW: nat := 4
  const OLLAMA_HOSTS: seq<String> := ["127.0.0.1:11434", "127.0.0.1:11435"]
  const GREETINGS: seq<String> := ["hi", "hey", "hello 👋", "yo 😄"]
  const GOODBYES: seq<String> := ["nice chatting 😄", "see you 👋", "bye 😅"]
  const NUDGES: seq<String> := ["u there?", "haha quiet 😅", "still here?", "tell me more 😄"]
  const STOCK_REPLIES: seq<String> := ["same here 😄", "lol nice", "cool 😅", "hmm ok 😄"]
  const DEFAULT_REPLY: String := "ya 😅"
  const REPLY_CAP: nat := 50

  /** `getNextHost()` moves `hostIndex` on before reading the host, so it always reads a host. */
  function NextHostIndex(h: nat): (r: nat)
    ensures r < |OLLAMA_HOSTS|
    ensures h < |OLLAMA_HOSTS| ==> r != h
  {
    (h + 1) % |OLLAMA_HOSTS|
  }

  /** Two calls in a row come back to the same host: the workers alternate. */
  lemma HostsAlternate(h: nat)
    requires h < |OLLAMA_HOSTS|
    ensures NextHostIndex(NextHostIndex(h)) == h
    ensures OLLAMA_HOSTS[NextHostIndex(h)] != OLLAMA_HOSTS[h]
  {
  }

  datatype Role = User | Assistant

  /** One `{ role, content }` item of a session's memory. */
  datatype Turn = Turn(role: Role, content: String)

  /** The `virtualProfile` a session is created from; an absent field is `""`. */
  datatype VirtualProfile = VirtualProfile(id: String, displayName: String, name: String, persona: String)

  datatype Session = Session(
    botId: String, displayName: String, persona: String, messageCount: nat, memory: seq<Turn>,
    followUpTimer: Option<Token>, userSocketId: SocketId)

  /** A pending `setTimeout` callback: the typing delay of one message, or a follow-up nudge. */
  datatype Task =
    | Deliver(chat: ChatId, ref: Ref, socket: SocketId, text: String, delay: nat)
    | FollowUp(chat: ChatId, ref: Ref)

  datatype Event =
    | Typing(to: SocketId, sender: String)
    | TypingOff(to: SocketId, sender: String)
    | Message(to: SocketId, chat: ChatId, sender: String, name: String, text: String)

  /** `ioRef` (as `io`), `hostIndex`, the session objects, `botSessions`, `botChatMap` and the timers. */
  datatype State = State(
    io: bool,
    hostIndex: nat,
    heap: map<Ref, Session>,
    sessions: map<ChatId, Ref>,
    chatMap: map<ChatId, SocketId>,
    pending: map<Token, Task>,
    nextToken: Token,
    nextRef: Ref,
    out: seq<Event>)

  function Initial(): State
  {
    State(false, 0, map[], map[], map[], map[], 0, 0, [])
  }

  /** `init(io)`; the warm-up request takes a host. */
  function Init(s: State): State
  {
    s.(io := true, hostIndex := NextHostIndex(s.hostIndex))
  }

  /** `isBotChat`. */
  predicate IsBotChat(s: State, chat: ChatId)
  {
    chat in s.sessions
  }

  /* ---------- messages ---------- */

  /** The typing delay: 150 ms for a message shorter than 15 UTF-16 code units, else 400 ms. */
  function TypingDelay(message: String): (r: nat)
    ensures r == 150 <==> Utf16Length(message) < 15
    ensures r == 150 || r == 400
  {
    if Utf16Length(message) < 15 then 150 else 400
  }

  /** The nudge `tell me more 😄` has 14 characters but 15 code units, so it waits the longer delay. */
  lemma EmojiNudgeWaitsLonger()
    ensures |NUDGES[3]| == 14 && TypingDelay(NUDGES[3]) == 400
  {
    NudgeUnits(NUDGES[3]);
  }

  lemma NudgeUnits(nudge: String)
    requires nudge == "tell me more 😄"
    ensures Utf16Length(nudge) == 15
  {
    var words, emoji := nudge[..13], nudge[13..];
    assert nudge == words + emoji;
    Utf16LengthAstral(emoji);
    assert forall k :: 0 <= k < |words| ==> words[k] as int <= 0xFFFF;
    Utf16LengthAppend(words, emoji);
  }

  /** `pushMemory`. */
  function PushMemory(memory: seq<Turn>, item: Turn): seq<Turn>
  {
    PushCapped(memory, item, 2 * MEMORY_WINDOW)
  }

  /** `pushMemory` adds the item and keeps only the newest `2 * MEMORY_WINDOW`, in order. */
  lemma PushMemoryKeepsNewest(memory: seq<Turn>, item: Turn)
    ensures var r := PushMemory(memory, item);
      |r| == (if |memory| < 2 * MEMORY_WINDOW then |memory| + 1 else 2 * MEMORY_WINDOW)
      && memory + [item] == memory[..|memory| + 1 - |r|] + r
  {
  }

  predicate Linked(s: State)
  {
    (forall c :: c in s.sessions ==> s.sessions[c] in s.heap)
    && (forall t :: t in s.pending ==> s.pending[t].ref in s.heap)
    && (forall p :: p in s.heap ==> p < s.nextRef)
  }

  /** `botChatMap.get(chatId) || session.userSocketId`. */
  function SocketFor(s: State, chat: ChatId, sess: Session): SocketId
  {
    if chat in s.chatMap then OrElse(s.chatMap[chat], sess.userSocketId) else sess.userSocketId
  }

  /**
   * `sendBotMessage`: nothing without `io` or a socket; otherwise the typing indicator goes out
   * and the message waits in a timer for its typing delay.
   */
  function SendBotMessage(s: State, chat: ChatId, ref: Ref, message: String): (r: State)
    requires ref in s.heap
    ensures r.heap == s.heap && r.sessions == s.sessions && r.chatMap == s.chatMap
    ensures r.io == s.io && r.hostIndex == s.hostIndex && r.nextRef == s.nextRef
  {
    var sess := s.heap[ref];
    var socket := SocketFor(s, chat, sess);
    if !s.io || socket == [] then s
    else
      s.(out := s.out + [Typing(socket, sess.botId)],
         pending := s.pending[s.nextToken := Deliver(chat, ref, socket, message, TypingDelay(message))],
         nextToken := s.nextToken + 1)
  }

  /** `scheduleFollowUp`: the previous follow-up is cleared and a new one armed. */
  function ScheduleFollowUp(s: State, chat: ChatId, ref: Ref): (r: State)
    requires ref in s.heap
    ensures r.sessions == s.sessions && r.chatMap == s.chatMap && r.heap.Keys == s.heap.Keys
    ensures r.io == s.io && r.hostIndex == s.hostIndex && r.nextRef == s.nextRef && r.out == s.out
  {
    var sess := s.heap[ref];
    var kept := if sess.followUpTimer.Some? then s.pending - {sess.followUpTimer.value} else s.pending;
    s.(pending := kept[s.nextToken := FollowUp(chat, ref)],
       heap := s.heap[ref := sess.(followUpTimer := Some(s.nextToken))],
       nextToken := s.nextToken + 1)
  }

  /** `endSession` as written: the chat leaves `botSessions` and `botChatMap`; its follow-up stays armed. */
  function EndSessionAsWritten(s: State, chat: ChatId): State
  {
    s.(sessions := s.sessions - {chat}, chatMap := s.chatMap - {chat})
  }

  /** `endSession` with the current session's follow-up cleared as well. */
  function EndSession(s: State, chat: ChatId): (r: State)
    requires chat in s.sessions ==> s.sessions[chat] in s.heap
    ensures r.heap == s.heap && r.nextToken == s.nextToken && r.nextRef == s.nextRef && r.pending.Keys <= s.pending.Keys
    ensures r.io == s.io && r.hostIndex == s.hostIndex && r.out == s.out
  {
    var kept :=
      if chat in s.sessions && s.heap[s.sessions[chat]].followUpTimer.Some? then
        s.pending - {s.heap[s.sessions[chat]].followUpTimer.value}
      else s.pending;
    s.(pending := kept, sessions := s.sessions - {chat}, chatMap := s.chatMap - {chat})
  }

  /** The first half of a delivery: the timer is spent, the message goes out, is counted and remembered. */
  function Delivered(s: State, tok: Token): State
    requires tok in s.pending && s.pending[tok].Deliver? && s.pending[tok].ref in s.heap
  {
    var t := s.pending[tok];
    var sess := s.heap[t.ref];
    s.(pending := s.pending - {tok},
       out := s.out + [TypingOff(t.socket, sess.botId), Message(t.socket, t.chat, sess.botId, sess.displayName, t.text)],
       heap := s.heap[t.ref := Counted(sess, t.text)])
  }

  /** The session after the user said `text`: the text remembered. */
  function Heard(sess: Session, text: String): Session
  {
    sess.(memory := PushMemory(sess.memory, Turn(User, text)))
  }

  /** The session after it sent `text`: one more message counted, and the text remembered. */
  function Counted(sess: Session, text: String): Session
  {
    sess.(messageCount := sess.messageCount + 1, memory := PushMemory(sess.memory, Turn(Assistant, text)))
  }

  /** The goodbye `sess` sends on the socket and chat of `t`. */
  function Goodbye(s: State, t: Task, sess: Session, pick: nat): State
    requires t.Deliver?
  {
    s.(out := s.out + [Message(t.socket, t.chat, sess.botId, sess.displayName, Pick(GOODBYES, pick))])
  }

  /**
   * The typing timer of a message fires: the message goes out, the session counts and
   * remembers it, and at `BOT_MESSAGE_LIMIT` a goodbye follows and the chat's session ends
   * as `endSession` is written, so the session's follow-up stays armed.
   */
  function FireDeliver(s: State, tok: Token, byePick: nat): State
    requires Linked(s) && tok in s.pending && s.pending[tok].Deliver?
  {
    var t := s.pending[tok];
    var sess := s.heap[t.ref];
    var s2 := Delivered(s, tok);
    if sess.messageCount + 1 >= BOT_MESSAGE_LIMIT then EndSessionAsWritten(Goodbye(s2, t, sess, byePick), t.chat)
    else s2
  }

  /** `FireDeliver` ending the chat with the corrected `endSession`. */
  function FireDeliverCorrected(s: State, tok: Token, byePick: nat): State
    requires Linked(s) && tok in s.pending && s.pending[tok].Deliver?
  {
    var t := s.pending[tok];
    var sess := s.heap[t.ref];
    var s2 := Delivered(s, tok);
    if sess.messageCount + 1 >= BOT_MESSAGE_LIMIT then EndSession(Goodbye(s2, t, sess, byePick), t.chat)
    else s2
  }

  /** The follow-up timer fires and the session sends a nudge; `followUpTimer` keeps the spent timer. */
  function FireFollowUp(s: State, tok: Token, pick: nat): State
    requires Linked(s) && tok in s.pending && s.pending[tok].FollowUp?
  {
    var t := s.pending[tok];
    SendBotMessage(s.(pending := s.pending - {tok}), t.chat, t.ref, Pick(NUDGES, pick))
  }

  /** The new session object for `vp`; `idSuffix` stands for the random base-36 digits. */
  function NewSession(vp: VirtualProfile, idSuffix: String, userSocket: SocketId): Session
  {
    Session(OrElse(vp.id, "bot_" + idSuffix), OrElse(vp.displayName, OrElse(vp.name, "Riya")),
            OrElse(vp.persona, "friendly"), 0, [], None, userSocket)
  }

  /** `createBotSession`: the chat is registered in both maps and the greeting sent. */
  function CreateBotSession(
    s: State, chat: ChatId, vp: VirtualProfile, userSocket: SocketId, idSuffix: String, greetPick: nat): State
  {
    var sess := NewSession(vp, idSuffix, userSocket);
    var s1 := s.(heap := s.heap[s.nextRef := sess], sessions := s.sessions[chat := s.nextRef],
                 chatMap := s.chatMap[chat := userSocket], nextRef := s.nextRef + 1);
    SendBotMessage(s1, chat, s.nextRef, Pick(GREETINGS, greetPick))
  }

  /* ---------- replies ---------- */

  predicate IsStop(c: char)
  {
    c == '.' || c == '!' || c == '?' || c == '\n'
  }

  /** The model's streamed text, trimmed, cut before its first `.`, `!`, `?` or newline and to 50 characters. */
  function CleanReply(raw: String): (r: String)
    ensures r != []
    ensures var cut := Take(BeforeFirstOf(Trim(raw), IsStop), REPLY_CAP);
      (cut == [] ==> r == DEFAULT_REPLY) && (cut != [] ==> r == cut)
  {
    var cut := Take(BeforeFirstOf(Trim(raw), IsStop), REPLY_CAP);
    if cut == [] then DEFAULT_REPLY else cut
  }

  /**
   * An empty trimmed text, or one that opens with a stop, gives the default reply; any other gives
   * a stop-free piece of at most 50 characters from the start of the trimmed text.
   */
  lemma CleanReplyShape(raw: String)
    ensures var t := Trim(raw); var r := CleanReply(raw);
      ((t == [] || IsStop(t[0])) ==> r == DEFAULT_REPLY)
      && ((t != [] && !IsStop(t[0])) ==>
            0 < |r| <= REPLY_CAP && r == t[..|r|] && forall k :: 0 <= k < |r| ==> !IsStop(r[k]))
  {
    var t := Trim(raw);
    var b := BeforeFirstOf(t, IsStop);
    if t != [] && !IsStop(t[0]) {
      assert Take(b, REPLY_CAP) != [];
    } else {
      assert b == [];
    }
  }

  /** `fallbackReply(text)`: `name`, then `where`, then `love`, else a stock reply. */
  function FallbackReply(text: String, pick: nat): (r: String)
    ensures r in ["I'm Riya 😄", "from Bengaluru 😄", "aww sweet 😅"] + STOCK_REPLIES
  {
    var lower := Lower(text);
    if Contains(lower, "name") then "I'm Riya 😄"
    else if Contains(lower, "where") then "from Bengaluru 😄"
    else if Contains(lower, "love") then "aww sweet 😅"
    else Pick(STOCK_REPLIES, pick)
  }

  /** Each rule answers exactly when it matches and no earlier rule does. */
  lemma FallbackReplyCases(text: String, pick: nat)
    ensures var lower := Lower(text); var r := FallbackReply(text, pick);
      (r == "I'm Riya 😄" <==> Contains(lower, "name"))
      && (r == "from Bengaluru 😄" <==> !Contains(lower, "name") && Contains(lower, "where"))
      && (r == "aww sweet 😅" <==> !Contains(lower, "name") && !Contains(lower, "where") && Contains(lower, "love"))
      && (!Contains(lower, "name") && !Contains(lower, "where") && !Contains(lower, "love") ==> r in STOCK_REPLIES)
  {
    var lower := Lower(text);
    if !Contains(lower, "name") && !Contains(lower, "where") && !Contains(lower, "love") {
      var r := FallbackReply(text, pick);
      assert r == STOCK_REPLIES[pick % |STOCK_REPLIES|];
      assert r != "I'm Riya 😄" && r != "from Bengaluru 😄" && r != "aww sweet 😅" by {
        var k := pick % |STOCK_REPLIES|;
        assert k == 0 || k == 1 || k == 2 || k == 3;
      }
    }
  }

  /** The conversation part of the prompt `generateBotReply` sends after its system prompt. */
  function Prompt(sess: Session, userText: String): (r: seq<Turn>)
    ensures 0 < |r| <= 3 && r[|r| - 1] == Turn(User, userText)
  {
    SliceFromEnd(sess.memory, 2) + [Turn(User, userText)]
  }

  /**
   * `pushMemory` runs before the reply is generated, so the prompt carries the user's text
   * twice: as the newest memory item and again as the closing user turn.
   */
  lemma PromptRepeatsUserText(sess: Session, userText: String)
    ensures var p := Prompt(sess.(memory := PushMemory(sess.memory, Turn(User, userText))), userText);
      |p| >= 2 && p[|p| - 2] == Turn(User, userText) && p[|p| - 1] == Turn(User, userText)
  {
    var m := PushMemory(sess.memory, Turn(User, userText));
    var recent := SliceFromEnd(m, 2);
    assert recent[|recent| - 1] == m[|m| - 1];
  }

  /**
   * `handleUserMessage`; `reply` is what the model streamed for the prompt (`None` if the call
   * failed) and `pick` the stock fallback's random index.
   */
  function HandleUserMessage(s: State, chat: ChatId, message: String, reply: Option<String>, pick: nat): State
    requires Linked(s)
  {
    if chat !in s.sessions then s
    else
      var ref := s.sessions[chat];
      var sess := s.heap[ref];
      var s1 := Remembered(s, ref, message);
      Answer(s1, chat, ref, ReplyText(message, reply, pick))
  }

  /** The text `handleUserMessage` sends: the cleaned model answer, or the fallback when the call failed. */
  function ReplyText(message: String, reply: Option<String>, pick: nat): (r: String)
    ensures r != []
  {
    match reply
    case Some(raw) => CleanReply(raw)
    case None => FallbackReply(message, pick)
  }

  /** The reply is sent and the follow-up scheduled, on the success and on the failure path alike. */
  function Answer(s: State, chat: ChatId, ref: Ref, text: String): State
    requires ref in s.heap
  {
    ScheduleFollowUp(SendBotMessage(s, chat, ref, text), chat, ref)
  }

  /**
   * The part of `handleUserMessage` before the reply: the user's text is remembered, the
   * follow-up timer cleared (the session still names it) and a worker host taken.
   */
  function Remembered(s: State, ref: Ref, message: String): State
    requires ref in s.heap
  {
    var sess := s.heap[ref];
    s.(heap := s.heap[ref := Heard(sess, message)],
       pending := if sess.followUpTimer.Some? then s.pending - {sess.followUpTimer.value} else s.pending,
       hostIndex := NextHostIndex(s.hostIndex))
  }

  /* ---------- invariant ---------- */

  /** Every pending token and every recorded follow-up timer was issued. */
  predicate TokensIssued(s: State)
  {
    (forall t :: t in s.pending ==> t < s.nextToken)
    && (forall p :: p in s.heap && s.heap[p].followUpTimer.Some? ==> s.heap[p].followUpTimer.value < s.nextToken)
  }

  /** Every pending follow-up is the one its session records. */
  predicate FollowUpsRecorded(s: State)
  {
    forall t :: t in s.pending && s.pending[t].FollowUp? ==>
      s.pending[t].ref in s.heap && s.heap[s.pending[t].ref].followUpTimer == Some(t)
  }

  predicate Valid(s: State)
  {
    Linked(s) && TokensIssued(s) && FollowUpsRecorded(s) && s.hostIndex < |OLLAMA_HOSTS|
  }

  lemma InitialValid()
    ensures Valid(Initial())
  {
  }

  lemma InitValid(s: State)
    requires Valid(s)
    ensures Valid(Init(s))
  {
  }

  /** A session has at most one follow-up pending. */
  lemma OneFollowUpPerSession(s: State, t1: Token, t2: Token)
    requires FollowUpsRecorded(s)
    requires t1 in s.pending && s.pending[t1].FollowUp? && t2 in s.pending && s.pending[t2].FollowUp?
    requires s.pending[t1].ref == s.pending[t2].ref
    ensures t1 == t2
  {
  }

  lemma SendBotMessageValid(s: State, chat: ChatId, ref: Ref, message: String)
    requires Valid(s) && ref in s.heap
    ensures Valid(SendBotMessage(s, chat, ref, message))
  {
    var r := SendBotMessage(s, chat, ref, message);
    if r != s {
      assert r.pending == s.pending[s.nextToken := r.pending[s.nextToken]];
      assert forall t :: t in s.pending ==> t != s.nextToken;
    }
  }

  lemma ScheduleFollowUpValid(s: State, chat: ChatId, ref: Ref)
    requires Valid(s) && ref in s.heap
    ensures Valid(ScheduleFollowUp(s, chat, ref))
  {
    var r := ScheduleFollowUp(s, chat, ref);
    assert Linked(r);
    assert TokensIssued(r);
    forall t | t in r.pending && r.pending[t].FollowUp?
      ensures r.pending[t].ref in r.heap && r.heap[r.pending[t].ref].followUpTimer == Some(t)
    {
      if t != s.nextToken {
        assert t in s.pending && r.pending[t] == s.pending[t];
        assert s.pending[t].ref != ref;
      }
    }
  }

  lemma EndSessionValid(s: State, chat: ChatId)
    requires Valid(s)
    ensures Valid(EndSession(s, chat))
  {
  }

  lemma EndSessionAsWrittenValid(s: State, chat: ChatId)
    requires Valid(s)
    ensures Valid(EndSessionAsWritten(s, chat))
  {
  }

  /** Remembering the user's text changes only that session, issues nothing and removes at most timers. */
  lemma RememberedFrame(s: State, ref: Ref, message: String)
    requires ref in s.heap
    ensures var r := Remembered(s, ref, message);
      r.heap.Keys == s.heap.Keys && r.sessions == s.sessions && r.chatMap == s.chatMap
      && r.nextToken == s.nextToken && r.nextRef == s.nextRef && r.io == s.io && r.out == s.out
      && r.pending.Keys <= s.pending.Keys && (forall t :: t in r.pending ==> r.pending[t] == s.pending[t])
      && ref in r.heap && r.heap[ref].followUpTimer == s.heap[ref].followUpTimer
      && (forall p :: p in s.heap && p != ref ==> p in r.heap && r.heap[p] == s.heap[p])
  {
  }

  lemma RememberedValid(s: State, ref: Ref, message: String)
    requires Valid(s) && ref in s.heap
    ensures Valid(Remembered(s, ref, message))
  {
    RememberedTokens(s, ref, message);
    RememberedRecorded(s, ref, message);
  }

  lemma RememberedTokens(s: State, ref: Ref, message: String)
    requires TokensIssued(s) && ref in s.heap
    ensures TokensIssued(Remembered(s, ref, message))
  {
    var r := Remembered(s, ref, message);
    RememberedFrame(s, ref, message);
    forall q | q in r.heap && r.heap[q].followUpTimer.Some? ensures r.heap[q].followUpTimer.value < r.nextToken {
      assert r.heap[q].followUpTimer == s.heap[q].followUpTimer;
    }
  }

  lemma RememberedRecorded(s: State, ref: Ref, message: String)
    requires FollowUpsRecorded(s) && ref in s.heap
    ensures FollowUpsRecorded(Remembered(s, ref, message))
  {
    var r := Remembered(s, ref, message);
    RememberedFrame(s, ref, message);
    forall t | t in r.pending && r.pending[t].FollowUp?
      ensures r.pending[t].ref in r.heap && r.heap[r.pending[t].ref].followUpTimer == Some(t)
    {
      assert r.pending[t] == s.pending[t];
      assert r.heap[s.pending[t].ref].followUpTimer == s.heap[s.pending[t].ref].followUpTimer;
    }
  }

  /** The session after `Remembered` holds the user's text as its newest memory item. */
  lemma RememberedSession(s: State, ref: Ref, message: String)
    requires ref in s.heap
    ensures Remembered(s, ref, message).heap[ref] == s.heap[ref].(memory := PushMemory(s.heap[ref].memory, Turn(User, message)))
  {
  }

  /** A delivery spends its timer and changes only the delivering session. */
  lemma DeliveredFrame(s: State, tok: Token)
    requires tok in s.pending && s.pending[tok].Deliver? && s.pending[tok].ref in s.heap
    ensures var r := Delivered(s, tok); var ref := s.pending[tok].ref;
      r.heap.Keys == s.heap.Keys && r.sessions == s.sessions && r.chatMap == s.chatMap
      && r.pending == s.pending - {tok} && r.nextToken == s.nextToken && r.nextRef == s.nextRef
      && r.io == s.io && r.hostIndex == s.hostIndex
      && ref in r.heap && r.heap[ref].followUpTimer == s.heap[ref].followUpTimer
      && (forall p :: p in s.heap && p != ref ==> p in r.heap && r.heap[p] == s.heap[p])
  {
  }

  lemma DeliveredValid(s: State, tok: Token)
    requires Valid(s) && tok in s.pending && s.pending[tok].Deliver?
    ensures Valid(Delivered(s, tok))
  {
    DeliveredTokens(s, tok);
    DeliveredRecorded(s, tok);
  }

  lemma DeliveredTokens(s: State, tok: Token)
    requires TokensIssued(s) && tok in s.pending && s.pending[tok].Deliver? && s.pending[tok].ref in s.heap
    ensures TokensIssued(Delivered(s, tok))
  {
    var r := Delivered(s, tok);
    forall q | q in r.heap && r.heap[q].followUpTimer.Some? ensures r.heap[q].followUpTimer.value < r.nextToken {
      assert r.heap[q].followUpTimer == s.heap[q].followUpTimer;
    }
  }

  lemma DeliveredRecorded(s: State, tok: Token)
    requires FollowUpsRecorded(s) && tok in s.pending && s.pending[tok].Deliver? && s.pending[tok].ref in s.heap
    ensures FollowUpsRecorded(Delivered(s, tok))
  {
    var r := Delivered(s, tok);
    forall t | t in r.pending && r.pending[t].FollowUp?
      ensures r.pending[t].ref in r.heap && r.heap[r.pending[t].ref].followUpTimer == Some(t)
    {
      assert r.pending[t] == s.pending[t];
      assert r.heap[s.pending[t].ref].followUpTimer == s.heap[s.pending[t].ref].followUpTimer;
    }
  }

  lemma FireDeliverValid(s: State, tok: Token, byePick: nat)
    requires Valid(s) && tok in s.pending && s.pending[tok].Deliver?
    ensures Valid(FireDeliver(s, tok, byePick))
  {
    var t := s.pending[tok];
    DeliveredValid(s, tok);
    var s2 := Delivered(s, tok);
    var sess := s.heap[t.ref];
    if sess.messageCount + 1 >= BOT_MESSAGE_LIMIT {
      EndSessionAsWrittenValid(Goodbye(s2, t, sess, byePick), t.chat);
    }
  }

  lemma FireDeliverCorrectedValid(s: State, tok: Token, byePick: nat)
    requires Valid(s) && tok in s.pending && s.pending[tok].Deliver?
    ensures Valid(FireDeliverCorrected(s, tok, byePick))
  {
    var t := s.pending[tok];
    DeliveredValid(s, tok);
    var s2 := Delivered(s, tok);
    var sess := s.heap[t.ref];
    if sess.messageCount + 1 >= BOT_MESSAGE_LIMIT {
      EndSessionValid(Goodbye(s2, t, sess, byePick), t.chat);
    }
  }

  lemma FireFollowUpValid(s: State, tok: Token, pick: nat)
    requires Valid(s) && tok in s.pending && s.pending[tok].FollowUp?
    ensures Valid(FireFollowUp(s, tok, pick))
  {
    var t := s.pending[tok];
    SendBotMessageValid(s.(pending := s.pending - {tok}), t.chat, t.ref, Pick(NUDGES, pick));
  }

  lemma CreateBotSessionValid(
    s: State, chat: ChatId, vp: VirtualProfile, userSocket: SocketId, idSuffix: String, greetPick: nat)
    requires Valid(s)
    ensures Valid(CreateBotSession(s, chat, vp, userSocket, idSuffix, greetPick))
  {
    var sess := NewSession(vp, idSuffix, userSocket);
    var s1 := s.(heap := s.heap[s.nextRef := sess], sessions := s.sessions[chat := s.nextRef],
                 chatMap := s.chatMap[chat := userSocket], nextRef := s.nextRef + 1);
    assert s.nextRef !in s.heap;
    assert Valid(s1);
    SendBotMessageValid(s1, chat, s.nextRef, Pick(GREETINGS, greetPick));
  }

  lemma HandleUserMessageValid(s: State, chat: ChatId, message: String, reply: Option<String>, pick: nat)
    requires Valid(s)
    ensures Valid(HandleUserMessage(s, chat, message, reply, pick))
  {
    if chat in s.sessions {
      var ref := s.sessions[chat];
      RememberedValid(s, ref, message);
      var s1 := Remembered(s, ref, message);
      var text := ReplyText(message, reply, pick);
      SendBotMessageValid(s1, chat, ref, text);
      ScheduleFollowUpValid(SendBotMessage(s1, chat, ref, text), chat, ref);
    }
  }

  /* ---------- properties ---------- */

  /** With `io` and a socket, the message is announced by a typing indicator and held for its typing delay. */
  lemma SendBotMessageArms(s: State, chat: ChatId, ref: Ref, message: String)
    requires ref in s.heap && s.io && SocketFor(s, chat, s.heap[ref]) != []
    ensures var r := SendBotMessage(s, chat, ref, message); var socket := SocketFor(s, chat, s.heap[ref]);
      r.out == s.out + [Typing(socket, s.heap[ref].botId)] && r.nextToken == s.nextToken + 1
      && r.pending == s.pending[s.nextToken := Deliver(chat, ref, socket, message, TypingDelay(message))]
  {
  }

  /** Without `io`, or with no socket for the chat and none on the session, nothing happens. */
  lemma SendBotMessageNoOp(s: State, chat: ChatId, ref: Ref, message: String)
    requires ref in s.heap && (!s.io || SocketFor(s, chat, s.heap[ref]) == [])
    ensures SendBotMessage(s, chat, ref, message) == s
  {
  }

  /**
   * A delivery sends the typing-off and the message, counts it once and remembers it as the
   * assistant's; a goodbye follows and the chat's session ends exactly when the count reaches 20.
   */
  lemma FireDeliverCounts(s: State, tok: Token, byePick: nat)
    requires Linked(s) && tok in s.pending && s.pending[tok].Deliver?
    ensures var t := s.pending[tok]; var sess := s.heap[t.ref]; var r := FireDeliver(s, tok, byePick);
      var sent := [TypingOff(t.socket, sess.botId), Message(t.socket, t.chat, sess.botId, sess.displayName, t.text)];
      var limit := sess.messageCount + 1 >= BOT_MESSAGE_LIMIT;
      t.ref in r.heap && r.heap[t.ref] == sess.(messageCount := sess.messageCount + 1, memory := PushMemory(sess.memory, Turn(Assistant, t.text)))
      && r.pending == s.pending - {tok}
      && (!limit ==> r.out == s.out + sent && r.sessions == s.sessions)
      && (limit ==> !IsBotChat(r, t.chat)
                    && r.out == s.out + sent + [Message(t.socket, t.chat, sess.botId, sess.displayName, Pick(GOODBYES, byePick))])
  {
    var t := s.pending[tok];
    var sess := s.heap[t.ref];
    DeliveredEffect(s, tok);
  }

  /**
   * The corrected delivery at `BOT_MESSAGE_LIMIT` ends the chat with no follow-up of its
   * session left pending; below the limit it is the delivery as written.
   */
  lemma FireDeliverCorrectedClears(s: State, tok: Token, byePick: nat, u: Token)
    requires Valid(s) && tok in s.pending && s.pending[tok].Deliver?
    requires var t := s.pending[tok]; t.chat in s.sessions && s.sessions[t.chat] == t.ref
    ensures var t := s.pending[tok]; var r := FireDeliverCorrected(s, tok, byePick);
      if s.heap[t.ref].messageCount + 1 >= BOT_MESSAGE_LIMIT then
        !IsBotChat(r, t.chat) && (u in r.pending && r.pending[u].FollowUp? ==> r.pending[u].ref != t.ref)
      else r == FireDeliver(s, tok, byePick)
  {
    var t := s.pending[tok];
    var sess := s.heap[t.ref];
    if sess.messageCount + 1 >= BOT_MESSAGE_LIMIT {
      DeliveredValid(s, tok);
      var s3 := Goodbye(Delivered(s, tok), t, sess, byePick);
      assert s3.heap[t.ref].followUpTimer == sess.followUpTimer;
      EndSessionClearsFollowUp(s3, t.chat, u);
    }
  }

  /** What the first half of a delivery does to the session and the output. */
  lemma DeliveredEffect(s: State, tok: Token)
    requires tok in s.pending && s.pending[tok].Deliver? && s.pending[tok].ref in s.heap
    ensures var t := s.pending[tok]; var sess := s.heap[t.ref]; var r := Delivered(s, tok);
      r.heap[t.ref] == sess.(messageCount := sess.messageCount + 1, memory := PushMemory(sess.memory, Turn(Assistant, t.text)))
      && r.out == s.out + [TypingOff(t.socket, sess.botId), Message(t.socket, t.chat, sess.botId, sess.displayName, t.text)]
  {
  }

  /**
   * As written, `endSession` leaves the session's follow-up armed; when it fires, `sendBotMessage`
   * falls back to the session's own socket, so the ended chat still gets a nudge.
   */
  lemma FollowUpOutlivesSession(s: State, chat: ChatId, tok: Token, pick: nat)
    requires Valid(s) && s.io && chat in s.sessions && tok in s.pending
    requires s.pending[tok] == FollowUp(chat, s.sessions[chat]) && s.heap[s.sessions[chat]].userSocketId != []
    ensures var e := EndSessionAsWritten(s, chat);
      !IsBotChat(e, chat) && tok in e.pending
      && var r := FireFollowUp(e, tok, pick); var sess := s.heap[s.sessions[chat]];
         r.out == s.out + [Typing(sess.userSocketId, sess.botId)]
         && r.pending[e.nextToken] == Deliver(chat, s.sessions[chat], sess.userSocketId, Pick(NUDGES, pick), TypingDelay(Pick(NUDGES, pick)))
  {
    var e := EndSessionAsWritten(s, chat);
    var ref := s.sessions[chat];
    assert SocketFor(e.(pending := e.pending - {tok}), chat, e.heap[ref]) == s.heap[ref].userSocketId;
  }

  /** The corrected `endSession` leaves no follow-up of the ended session pending. */
  lemma EndSessionClearsFollowUp(s: State, chat: ChatId, tok: Token)
    requires Valid(s) && chat in s.sessions
    ensures var r := EndSession(s, chat);
      !IsBotChat(r, chat) && chat !in r.chatMap
      && (tok in r.pending && r.pending[tok].FollowUp? ==> r.pending[tok].ref != s.sessions[chat])
  {
  }

  /** Ending a session twice is ending it once. */
  lemma EndSessionIdempotent(s: State, chat: ChatId)
    requires Linked(s)
    ensures EndSession(EndSession(s, chat), chat) == EndSession(s, chat)
  {
  }

  /** A new session starts at count 0 with an empty memory and the display name falling back to the name, then `Riya`. */
  lemma CreateBotSessionRegisters(
    s: State, chat: ChatId, vp: VirtualProfile, userSocket: SocketId, idSuffix: String, greetPick: nat)
    requires Linked(s)
    ensures var r := CreateBotSession(s, chat, vp, userSocket, idSuffix, greetPick);
      IsBotChat(r, chat) && r.sessions[chat] == s.nextRef && r.chatMap == s.chatMap[chat := userSocket]
      && var sess := r.heap[s.nextRef];
         sess.messageCount == 0 && sess.memory == [] && sess.followUpTimer.None? && sess.userSocketId == userSocket
         && sess.displayName == (if vp.displayName != [] then vp.displayName else if vp.name != [] then vp.name else "Riya")
         && sess.botId == (if vp.id != [] then vp.id else "bot_" + idSuffix)
         && (s.io && userSocket != [] ==>
               r.out == s.out + [Typing(userSocket, sess.botId)]
               && r.pending[s.nextToken].Deliver? && r.pending[s.nextToken].text in GREETINGS)
  {
  }

  /** A message for a chat without a session changes nothing. */
  lemma HandleUserMessageIgnored(s: State, chat: ChatId, message: String, reply: Option<String>, pick: nat)
    requires Linked(s) && chat !in s.sessions
    ensures HandleUserMessage(s, chat, message, reply, pick) == s
  {
  }

  /**
   * `r` is `s` after the session at `ref` answered in `chat`: the reply's delivery took a token
   * when there was `io` and a socket, and the follow-up, armed after it, is the session's
   * recorded and only pending follow-up. Nothing else about the session changed.
   */
  predicate Answered(s: State, r: State, chat: ChatId, ref: Ref)
    requires ref in s.heap
  {
    var f := if s.io && SocketFor(s, chat, s.heap[ref]) != [] then s.nextToken + 1 else s.nextToken;
    r.sessions == s.sessions && r.hostIndex == s.hostIndex && r.nextToken == f + 1 && ref in r.heap
    && r.heap[ref] == s.heap[ref].(followUpTimer := Some(f))
    && f in r.pending && r.pending[f] == FollowUp(chat, ref)
    && (forall t :: t in r.pending && r.pending[t].FollowUp? && r.pending[t].ref == ref ==> t == f)
  }

  /** Answering keeps the invariant, and with `io` and a socket the reply waits for its typing delay. */
  lemma AnswerEffect(s: State, chat: ChatId, ref: Ref, text: String)
    requires Valid(s) && ref in s.heap
    ensures var r := Answer(s, chat, ref, text);
      Valid(r) && Answered(s, r, chat, ref)
      && (s.io && SocketFor(s, chat, s.heap[ref]) != [] ==>
            s.nextToken in r.pending
            && r.pending[s.nextToken] == Deliver(chat, ref, SocketFor(s, chat, s.heap[ref]), text, TypingDelay(text)))
  {
    var s2 := SendBotMessage(s, chat, ref, text);
    SendBotMessageValid(s, chat, ref, text);
    ScheduleFollowUpValid(s2, chat, ref);
    var r := ScheduleFollowUp(s2, chat, ref);
    forall t | t in r.pending && r.pending[t].FollowUp? && r.pending[t].ref == ref
      ensures t == s2.nextToken
    {
      OneFollowUpPerSession(r, t, s2.nextToken);
    }
    if s.io && SocketFor(s, chat, s.heap[ref]) != [] {
      SendBotMessageArms(s, chat, ref, text);
      assert s.heap[ref].followUpTimer.Some? ==> s.heap[ref].followUpTimer.value < s.nextToken;
    }
  }

  /** A message `handleUserMessage` does not ignore is remembered, then answered. */
  lemma HandleUserMessageSteps(s: State, chat: ChatId, message: String, reply: Option<String>, pick: nat)
    requires Linked(s) && chat in s.sessions
    ensures HandleUserMessage(s, chat, message, reply, pick)
            == Answer(Remembered(s, s.sessions[chat], message), chat, s.sessions[chat], ReplyText(message, reply, pick))
  {
  }

  /**
   * Otherwise the user's text becomes the session's newest memory item before the reply, a
   * worker host is taken, and the session answers, with the model's cleaned reply or with the
   * fallback: a follow-up is armed on both paths.
   */
  lemma HandleUserMessageRecords(s: State, chat: ChatId, message: String, reply: Option<String>, pick: nat)
    requires Valid(s) && chat in s.sessions
    ensures var ref := s.sessions[chat]; var s1 := Remembered(s, ref, message);
      s1.heap[ref] == s.heap[ref].(memory := PushMemory(s.heap[ref].memory, Turn(User, message))) && s1.hostIndex == NextHostIndex(s.hostIndex)
      && Answered(s1, HandleUserMessage(s, chat, message, reply, pick), chat, ref)
  {
    var ref := s.sessions[chat];
    var s1 := Remembered(s, ref, message);
    RememberedValid(s, ref, message);
    RememberedSession(s, ref, message);
    AnswerEffect(s1, chat, ref, ReplyText(message, reply, pick));
    HandleUserMessageSteps(s, chat, message, reply, pick);
  }

  /** With `io` and a socket, the reply goes out after the typing delay of its own text. */
  lemma HandleUserMessageReply(s: State, chat: ChatId, message: String, reply: Option<String>, pick: nat)
    requires Valid(s) && chat in s.sessions && s.io && SocketFor(s, chat, s.heap[s.sessions[chat]]) != []
    ensures var r := HandleUserMessage(s, chat, message, reply, pick); var text := ReplyText(message, reply, pick);
      s.nextToken in r.pending
      && r.pending[s.nextToken] == Deliver(chat, s.sessions[chat], SocketFor(s, chat, s.heap[s.sessions[chat]]), text, TypingDelay(text))
  {
    var ref := s.sessions[chat];
    var s1 := Remembered(s, ref, message);
    assert SocketFor(s1, chat, s1.heap[ref]) == SocketFor(s, chat, s.heap[ref]);
    RememberedValid(s, ref, message);
    AnswerEffect(s1, chat, ref, ReplyText(message, reply, pick));
    HandleUserMessageSteps(s, chat, message, reply, pick);
  }
}
