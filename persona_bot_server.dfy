/**
 * The persona bot of `chroma-db-disabled.js` and `botModule_chroma.js` as an object whose fields
 * the handlers update in place. The module-level `sessions`, `chatToSocket` and `memoryStorage`
 * maps, the timers and the session objects they share are fields; every method performs the
 * step the `PersonaBot` function of the same name describes, and its contract says so.
 */
module PersonaBotServer {
  import opened Text
  import opened PersonaBot
  import Rephrase

  class Bot {
    const variant: Variant
    var io: bool
    var heap: map<Ref, Session>
    var sessions: map<ChatId, Ref>
    var chatToSocket: map<ChatId, SocketId>
    var store: map<String, seq<Memory>>   // memoryStorage
    var pending: map<Token, Task>
    var nextToken: Token
    var nextRef: Ref
    var out: seq<Event>

    /** The fields as a `PersonaBot.State`. */
    function Model(): State
      reads this
    {
      State(io, heap, sessions, chatToSocket, store, pending, nextToken, nextRef, out)
    }

    constructor (v: Variant)
      ensures variant == v && Model() == Initial() && Valid(Model())
    {
      variant := v;
      io := false;
      heap := map[];
      sessions := map[];
      chatToSocket := map[];
      store := map[];
      pending := map[];
      nextToken := 0;
      nextRef := 0;
      out := [];
      new;
      InitialValid();
    }

    /** `init(io)`. */
    method Init()
      modifies this
      ensures Model() == PersonaBot.Init(old(Model()))
    {
      io := true;
    }

    /** `isBotChat(chatId)`. */
    method IsBotChat(chat: ChatId) returns (b: bool)
      ensures b == PersonaBot.IsBotChat(Model(), chat)
    {
      b := chat in sessions;
    }

    /** `addMemoryToChroma`. */
    method AddMemory(key: String, text: String, now: nat)
      modifies this
      ensures Model() == PersonaBot.AddMemory(old(Model()), variant, key, text, now)
    {
      if variant.InMemory? {
        var list := if key in store then store[key] else [];
        store := store[key := Remember(list, Memory(text, now))];
      }
    }

    /** `sendBotMessage`: the typing indicator now, the message when its timer fires. */
    method SendBotMessage(chat: ChatId, ref: Ref, message: String)
      requires ref in heap
      modifies this
      ensures Model() == PersonaBot.SendBotMessage(old(Model()), chat, ref, message)
    {
      var sess := heap[ref];
      var socket := if chat in chatToSocket then OrElse(chatToSocket[chat], sess.userSocketId) else sess.userSocketId;
      if !io || socket == [] {
        return;
      }
      var text := Take(Trim(message), 240);
      var typing := if 600 + 8 * Utf16Length(text) < 1400 then 600 + 8 * Utf16Length(text) else 1400;
      out, pending, nextToken := out + [Typing(socket, sess.botId)],
        pending[nextToken := Deliver(chat, ref, socket, text, typing)], nextToken + 1;
    }

    /** `pushLocalMemory`. */
    method PushLocalMemory(ref: Ref, text: String, now: nat)
      requires ref in heap
      modifies this
      ensures Model() == PersonaBot.PushLocalMemory(old(Model()), variant, ref, text, now)
    {
      var sess := heap[ref];
      heap := heap[ref := sess.(localMemory := PushCapped(sess.localMemory, text, 2 * MEMORY_WINDOW))];
      AddMemory(MemoryKey(sess), text, now);
    }

    /** `scheduleFollowUp`. */
    method ScheduleFollowUp(chat: ChatId, ref: Ref)
      requires ref in heap
      modifies this
      ensures Model() == PersonaBot.ScheduleFollowUp(old(Model()), chat, ref)
    {
      var sess := heap[ref];
      var kept := if sess.followUpTimer.Some? then pending - {sess.followUpTimer.value} else pending;
      pending, heap, nextToken := kept[nextToken := FollowUp(chat, ref)],
        heap[ref := sess.(followUpTimer := Some(nextToken))], nextToken + 1;
    }

    /** `clearTimeout(session.followUpTimer)` with `session.followUpTimer = null`. */
    method CancelFollowUp(ref: Ref)
      requires ref in heap
      modifies this
      ensures Model() == PersonaBot.CancelFollowUp(old(Model()), ref)
    {
      var sess := heap[ref];
      if sess.followUpTimer.Some? {
        pending := pending - {sess.followUpTimer.value};
        heap := heap[ref := sess.(followUpTimer := None)];
      }
    }

    /** `endSession(chatId)`. */
    method EndSession(chat: ChatId)
      requires chat in sessions ==> sessions[chat] in heap
      modifies this
      ensures Model() == PersonaBot.EndSession(old(Model()), chat)
    {
      if chat in sessions && heap[sessions[chat]].followUpTimer.Some? {
        pending := pending - {heap[sessions[chat]].followUpTimer.value};
      }
      sessions := sessions - {chat};
      chatToSocket := chatToSocket - {chat};
    }

    /** The greeting of `createBotSession`: sent, then remembered locally and in long-term memory. */
    method Greet(chat: ChatId, ref: Ref, greet: String, now: nat)
      requires ref in heap
      modifies this
      ensures Model() == PersonaBot.Greet(old(Model()), variant, chat, ref, greet, now)
    {
      var key := MemoryKey(heap[ref]);
      SendBotMessage(chat, ref, greet);
      PushLocalMemory(ref, "intro:" + greet, now);
      AddMemory(key, "intro:" + greet, now);
    }

    /** `createBotSession(chatId, providedProfile, userSocketId)`. */
    method CreateBotSession(
      chat: ChatId, provided: Option<BotProfile>, userSocket: SocketId, pool: seq<BotProfile>, d: CreateDraws, now: nat)
      requires Valid(Model())
      modifies this
      ensures Model() == PersonaBot.CreateBotSession(old(Model()), variant, chat, provided, userSocket, pool, d, now)
      ensures Valid(Model())
    {
      var profile := AssignPartner(PickProfile(provided, pool, d.poolPick), d.partnerGate, d.partnerPick);
      var sess := NewSession(variant, profile, d.idSuffix, userSocket, now);
      var ref := nextRef;
      heap := heap[ref := sess];
      sessions := sessions[chat := ref];
      chatToSocket := chatToSocket[chat := userSocket];
      nextRef := nextRef + 1;
      assert Model() == Register(old(Model()), chat, sess);
      Greet(chat, ref, Pick(Greetings(variant), d.greetPick), now);
      CreateBotSessionValid(old(Model()), variant, chat, provided, userSocket, pool, d, now);
    }

    /** The typing timer of a message fires. */
    method FireDeliver(tok: Token, byePick: nat, now: nat)
      requires Valid(Model()) && tok in pending && pending[tok].Deliver?
      modifies this
      ensures Model() == PersonaBot.FireDeliver(old(Model()), variant, tok, byePick, now)
      ensures Valid(Model())
    {
      var t := pending[tok];
      var sess := heap[t.ref];
      pending := pending - {tok};
      out := out + [TypingOff(t.socket, sess.botId), Message(t.socket, t.chat, sess.botId, sess.displayName, t.text)];
      heap := heap[t.ref := sess.(messageCount := sess.messageCount + 1)];
      assert Model() == Delivered(old(Model()), tok);
      PushLocalMemory(t.ref, "bot:" + t.text, now);
      if sess.messageCount + 1 >= BOT_MESSAGE_LIMIT {
        out := out + [Message(t.socket, t.chat, sess.botId, sess.displayName, Pick(GOODBYES, byePick))];
        EndSession(t.chat);
      }
      FireDeliverValid(old(Model()), variant, tok, byePick, now);
    }

    /** The follow-up timer fires. */
    method FireFollowUp(tok: Token, pick: nat)
      requires Valid(Model()) && tok in pending && pending[tok].FollowUp?
      modifies this
      ensures Model() == PersonaBot.FireFollowUp(old(Model()), tok, pick)
      ensures Valid(Model())
    {
      var t := pending[tok];
      pending := pending - {tok};
      SendBotMessage(t.chat, t.ref, Pick(Nudges(heap[t.ref].persona), pick));
      FireFollowUpValid(old(Model()), tok, pick);
    }

    /** `handleUserMessage(chatId, payload)`, with `message` the payload's text. */
    method HandleUserMessage(chat: ChatId, message: String, d: ReplyDraws, fromChroma: seq<String>, now: nat)
      requires Valid(Model()) && Rephrase.DrawsFit(d.rephrase)
      modifies this
      ensures Model() == PersonaBot.HandleUserMessage(old(Model()), variant, chat, message, d, fromChroma, now)
      ensures Valid(Model())
    {
      var text := Trim(message);
      if chat !in sessions || text == [] || chat !in chatToSocket || chatToSocket[chat] == [] {
        return;
      }
      var ref := sessions[chat];
      var sess := heap[ref];
      var key := MemoryKey(sess);
      CancelFollowUp(ref);
      PushLocalMemory(ref, "user:" + text, now);
      AddMemory(key, "user:" + text, now);
      assert Model() == RecordUserText(old(Model()), variant, ref, "user:" + text, now);
      var reply := Reply(variant, sess, text, ContextDocs(variant, store, key, fromChroma), d);
      SendBotMessage(chat, ref, reply);
      ScheduleFollowUp(chat, ref);
      HandleUserMessageValid(old(Model()), variant, chat, message, d, fromChroma, now);
    }
  }
}
