/**
 * The `botModule.js` bot as an object whose fields the handlers update in place: `ioRef`,
 * `hostIndex`, `botSessions`, `botChatMap`, the session objects and the timers. Every method
 * performs the step the `BotModule` function of the same name describes, and its contract says
 * so; `EndSession` is the corrected one, while `FireDeliver` ends the chat as `endSession` is written.
 */
module BotModuleServer {
  import opened Text
  import opened BotModule

  class Bot {
    var io: bool
    var hostIndex: nat
    var heap: map<Ref, Session>
    var sessions: map<ChatId, Ref>
    var chatMap: map<ChatId, SocketId>
    var pending: map<Token, Task>
    var nextToken: Token
    var nextRef: Ref
    var out: seq<Event>

    /** The fields as a `BotModule.State`. */
    function Model(): State
      reads this
    {
      State(io, hostIndex, heap, sessions, chatMap, pending, nextToken, nextRef, out)
    }

    constructor ()
      ensures Model() == Initial() && Valid(Model())
    {
      io := false;
      hostIndex := 0;
      heap := map[];
      sessions := map[];
      chatMap := map[];
      pending := map[];
      nextToken := 0;
      nextRef := 0;
      out := [];
      new;
      InitialValid();
    }

    /** `getNextHost()`. */
    method GetNextHost() returns (host: String)
      modifies this
      ensures hostIndex == NextHostIndex(old(hostIndex)) && host == OLLAMA_HOSTS[hostIndex]
      ensures Model() == old(Model()).(hostIndex := hostIndex)
    {
      hostIndex := (hostIndex + 1) % |OLLAMA_HOSTS|;
      host := OLLAMA_HOSTS[hostIndex];
    }

    /** `init(io)` with the warm-up request. */
    method Init()
      modifies this
      ensures Model() == BotModule.Init(old(Model()))
    {
      io := true;
      var _ := GetNextHost();
    }

    /** `isBotChat(chatId)`. */
    method IsBotChat(chat: ChatId) returns (b: bool)
      ensures b == BotModule.IsBotChat(Model(), chat)
    {
      b := chat in sessions;
    }

    /** `sendBotMessage(chatId, session, message)`. */
    method SendBotMessage(chat: ChatId, ref: Ref, message: String)
      requires ref in heap
      modifies this
      ensures Model() == BotModule.SendBotMessage(old(Model()), chat, ref, message)
    {
      if !io {
        return;
      }
      var sess := heap[ref];
      var socket := if chat in chatMap then OrElse(chatMap[chat], sess.userSocketId) else sess.userSocketId;
      if socket == [] {
        return;
      }
      out := out + [Typing(socket, sess.botId)];
      var delay := if Utf16Length(message) < 15 then 150 else 400;
      pending := pending[nextToken := Deliver(chat, ref, socket, message, delay)];
      nextToken := nextToken + 1;
    }

    /** `scheduleFollowUp(chatId, session)`. */
    method ScheduleFollowUp(chat: ChatId, ref: Ref)
      requires ref in heap
      modifies this
      ensures Model() == BotModule.ScheduleFollowUp(old(Model()), chat, ref)
    {
      var sess := heap[ref];
      if sess.followUpTimer.Some? {
        pending := pending - {sess.followUpTimer.value};
      }
      pending := pending[nextToken := FollowUp(chat, ref)];
      heap := heap[ref := sess.(followUpTimer := Some(nextToken))];
      nextToken := nextToken + 1;
    }

    /** `endSession(chatId)`, clearing the session's follow-up. */
    method EndSession(chat: ChatId)
      requires chat in sessions ==> sessions[chat] in heap
      modifies this
      ensures Model() == BotModule.EndSession(old(Model()), chat)
    {
      if chat in sessions && heap[sessions[chat]].followUpTimer.Some? {
        pending := pending - {heap[sessions[chat]].followUpTimer.value};
      }
      sessions := sessions - {chat};
      chatMap := chatMap - {chat};
    }

    /** `createBotSession(chatId, virtualProfile, userSocketId)`. */
    method CreateBotSession(chat: ChatId, vp: VirtualProfile, userSocket: SocketId, idSuffix: String, greetPick: nat)
      requires Valid(Model())
      modifies this
      ensures Model() == BotModule.CreateBotSession(old(Model()), chat, vp, userSocket, idSuffix, greetPick)
      ensures Valid(Model())
    {
      chatMap := chatMap[chat := userSocket];
      var sess := NewSession(vp, idSuffix, userSocket);
      var ref := nextRef;
      heap := heap[ref := sess];
      sessions := sessions[chat := ref];
      nextRef := nextRef + 1;
      SendBotMessage(chat, ref, GREETINGS[greetPick % |GREETINGS|]);
      CreateBotSessionValid(old(Model()), chat, vp, userSocket, idSuffix, greetPick);
    }

    /** The first half of a delivery: the message goes out and the session counts and remembers it. */
    method Delivered(tok: Token)
      requires tok in pending && pending[tok].Deliver? && pending[tok].ref in heap
      modifies this
      ensures Model() == BotModule.Delivered(old(Model()), tok)
    {
      var t := pending[tok];
      var sess := heap[t.ref];
      pending, out, heap := pending - {tok},
        out + [TypingOff(t.socket, sess.botId), Message(t.socket, t.chat, sess.botId, sess.displayName, t.text)],
        heap[t.ref := Counted(sess, t.text)];
    }

    /** The typing timer of a message fires. */
    method FireDeliver(tok: Token, byePick: nat)
      requires Valid(Model()) && tok in pending && pending[tok].Deliver?
      modifies this
      ensures Model() == BotModule.FireDeliver(old(Model()), tok, byePick)
      ensures Valid(Model())
    {
      ghost var s0 := Model();
      var t := pending[tok];
      var sess := heap[t.ref];
      Delivered(tok);
      if sess.messageCount + 1 >= BOT_MESSAGE_LIMIT {
        ghost var s3 := Goodbye(Model(), t, sess, byePick);
        out := out + [Message(t.socket, t.chat, sess.botId, sess.displayName, GOODBYES[byePick % |GOODBYES|])];
        assert Model() == s3;
        sessions, chatMap := sessions - {t.chat}, chatMap - {t.chat};
      }
      FireDeliverValid(s0, tok, byePick);
    }

    /** The follow-up timer fires. */
    method FireFollowUp(tok: Token, pick: nat)
      requires Valid(Model()) && tok in pending && pending[tok].FollowUp?
      modifies this
      ensures Model() == BotModule.FireFollowUp(old(Model()), tok, pick)
      ensures Valid(Model())
    {
      var t := pending[tok];
      pending := pending - {tok};
      SendBotMessage(t.chat, t.ref, NUDGES[pick % |NUDGES|]);
      FireFollowUpValid(old(Model()), tok, pick);
    }

    /** The first half of `handleUserMessage`: remember the text, clear the follow-up, take a host. */
    method Remember(ref: Ref, message: String)
      requires ref in heap
      modifies this
      ensures Model() == Remembered(old(Model()), ref, message)
    {
      var sess := heap[ref];
      var kept := if sess.followUpTimer.Some? then pending - {sess.followUpTimer.value} else pending;
      heap, pending, hostIndex := heap[ref := Heard(sess, message)], kept, NextHostIndex(hostIndex);
    }

    /** `handleUserMessage(chatId, parsedMsg)`, run to completion. */
    method HandleUserMessage(chat: ChatId, message: String, reply: Option<String>, pick: nat)
      requires Valid(Model())
      modifies this
      ensures Model() == BotModule.HandleUserMessage(old(Model()), chat, message, reply, pick)
      ensures Valid(Model())
    {
      if chat !in sessions {
        return;
      }
      ghost var s0 := Model();
      var ref := sessions[chat];
      Remember(ref, message);
      var text := ReplyText(message, reply, pick);
      SendBotMessage(chat, ref, text);
      ScheduleFollowUp(chat, ref);
      HandleUserMessageSteps(s0, chat, message, reply, pick);
      HandleUserMessageValid(s0, chat, message, reply, pick);
    }
  }
}
