/**
 * `FreeChatBot` as an object whose fields its methods update in place: `botSessions`,
 * `botChatMap`, the session objects and the reply timers. Every method performs the step the
 * `FreeChatBot` function of the same name describes, and its contract says so.
 */
module FreeChatBotServer {
  import opened Text
  import opened FreeChatBot

  class Bot {
    var heap: map<Ref, Session>
    var sessions: map<ChatId, Ref>
    var chatMap: map<ChatId, SocketId>
    var pending: map<Token, Task>
    var nextToken: Token
    var nextRef: Ref
    var out: seq<Event>

    /** The fields as a `FreeChatBot.State`. */
    function Model(): State
      reads this
    {
      State(heap, sessions, chatMap, pending, nextToken, nextRef, out)
    }

    constructor ()
      ensures Model() == Initial() && Valid(Model())
    {
      heap := map[];
      sessions := map[];
      chatMap := map[];
      pending := map[];
      nextToken := 0;
      nextRef := 0;
      out := [];
      new;
      InitialValid();
    }

    /** `isBotChat(chatId)`. */
    method IsBotChat(chat: ChatId) returns (b: bool)
      ensures b == FreeChatBot.IsBotChat(Model(), chat)
    {
      b := chat in sessions;
    }

    /** `sendBotMessage(chatId, session, message)`. */
    method SendBotMessage(chat: ChatId, ref: Ref, message: String)
      requires ref in heap
      modifies this
      ensures Model() == FreeChatBot.SendBotMessage(old(Model()), chat, ref, message)
    {
      if message == [] || chat !in chatMap || chatMap[chat] == [] {
        return;
      }
      var sess := heap[ref];
      out := out + [Message(chatMap[chat], chat, sess.botId, sess.displayName, message)];
    }

    /** `createBotSession(chatId, virtualProfile, userSocketId)`, returning the new session. */
    method CreateBotSession(chat: ChatId, vp: VirtualProfile, userSocket: SocketId, idSuffix: String, greetPick: nat)
      returns (sess: Session)
      requires Valid(Model())
      modifies this
      ensures sess == NewSession(vp, idSuffix, userSocket)
      ensures Model() == FreeChatBot.CreateBotSession(old(Model()), chat, vp, userSocket, idSuffix, greetPick)
      ensures Valid(Model())
    {
      sess := NewSession(vp, idSuffix, userSocket);
      var ref := nextRef;
      heap := heap[ref := sess];
      sessions := sessions[chat := ref];
      chatMap := chatMap[chat := userSocket];
      nextRef := nextRef + 1;
      SendBotMessage(chat, ref, GREETINGS[greetPick % |GREETINGS|]);
      CreateBotSessionValid(old(Model()), chat, vp, userSocket, idSuffix, greetPick);
    }

    /** `handleUserMessage(chatId, parsedMsg)`, with `message` the payload's text. */
    method HandleUserMessage(chat: ChatId, message: String)
      requires Valid(Model())
      modifies this
      ensures Model() == FreeChatBot.HandleUserMessage(old(Model()), chat, message)
      ensures Valid(Model())
    {
      if chat !in sessions || Trim(message) == [] || chat !in chatMap || chatMap[chat] == [] {
        return;
      }
      var ref := sessions[chat];
      var socket := chatMap[chat];
      out := out + [Typing(socket, heap[ref].botId)];
      pending := pending[nextToken := Respond(chat, ref, socket, message)];
      nextToken := nextToken + 1;
      HandleUserMessageValid(old(Model()), chat, message);
    }

    /** The thinking delay of a reply ends. */
    method FireRespond(tok: Token, pick: nat)
      requires Valid(Model()) && tok in pending
      modifies this
      ensures Model() == FreeChatBot.FireRespond(old(Model()), tok, pick)
      ensures Valid(Model())
    {
      var t := pending[tok];
      var sess := heap[t.ref];
      pending := pending - {tok};
      out := out + [TypingOff(t.socket, sess.botId)];
      var response := GenerateSmartResponse(t.userMessage, pick);
      SendBotMessage(t.chat, t.ref, response);
      heap := heap[t.ref := sess.(messageCount := sess.messageCount + 1, lastUserMessage := t.userMessage)];
      FireRespondValid(old(Model()), tok, pick);
    }

    /** `endSession(chatId)`. */
    method EndSession(chat: ChatId)
      requires Valid(Model())
      modifies this
      ensures Model() == FreeChatBot.EndSession(old(Model()), chat)
      ensures Valid(Model())
    {
      sessions := sessions - {chat};
      chatMap := chatMap - {chat};
      EndSessionValid(old(Model()), chat);
    }
  }
}
