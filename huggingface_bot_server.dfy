/**
 * `HuggingFaceBot` as an object whose fields its methods update in place: `currentModelIndex`,
 * `botSessions`, `botChatMap`, `idleTimers`, the session objects and the timers. Every method
 * performs the step the `HuggingFaceBot` function of the same name describes, and its contract
 * says so.
 */
module HuggingFaceBotServer {
  import opened Text
  import opened HuggingFaceBot

  class Bot {
    var modelIndex: nat
    var heap: map<Ref, Session>
    var sessions: map<ChatId, Ref>
    var chatMap: map<ChatId, SocketId>
    var idleTimers: map<ChatId, Token>
    var pending: map<Token, Task>
    var nextToken: Token
    var nextRef: Ref
    var out: seq<Event>

    /** The fields as a `HuggingFaceBot.State`. */
    function Model(): State
      reads this
    {
      State(modelIndex, heap, sessions, chatMap, idleTimers, pending, nextToken, nextRef, out)
    }

    constructor ()
      ensures Model() == Initial() && Valid(Model())
    {
      modelIndex := 0;
      heap := map[];
      sessions := map[];
      chatMap := map[];
      idleTimers := map[];
      pending := map[];
      nextToken := 0;
      nextRef := 0;
      out := [];
      new;
      InitialValid();
    }

    /** `getCurrentModel()`. */
    method GetCurrentModel() returns (model: String)
      requires modelIndex < |MODELS|
      ensures model == MODELS[modelIndex] && model in MODELS
    {
      model := MODELS[modelIndex];
    }

    /** `rotateModel()`. */
    method RotateModel()
      modifies this
      ensures Model() == old(Model()).(modelIndex := HuggingFaceBot.RotateModel(old(modelIndex)))
      ensures modelIndex < |MODELS|
    {
      modelIndex := (modelIndex + 1) % |MODELS|;
    }

    /** `isBotChat(chatId)`. */
    method IsBotChat(chat: ChatId) returns (b: bool)
      ensures b == HuggingFaceBot.IsBotChat(Model(), chat)
    {
      b := chat in sessions;
    }

    /** `sendBotMessage(chatId, session, message)`. */
    method SendBotMessage(chat: ChatId, ref: Ref, message: String)
      requires ref in heap
      modifies this
      ensures Model() == HuggingFaceBot.SendBotMessage(old(Model()), chat, ref, message)
    {
      if message == [] || chat !in chatMap || chatMap[chat] == [] {
        return;
      }
      var sess := heap[ref];
      out := out + [Message(chatMap[chat], chat, sess.botId, sess.displayName, message)];
    }

    /** The idle timer of `chatId`, if any, is cleared and forgotten. */
    method ClearIdle(chat: ChatId)
      modifies this
      ensures Model() == HuggingFaceBot.ClearIdle(old(Model()), chat)
    {
      if chat in idleTimers {
        pending := pending - {idleTimers[chat]};
        idleTimers := idleTimers - {chat};
      }
    }

    /** `startIdleTimer(chatId, session)`. */
    method StartIdleTimer(chat: ChatId, ref: Ref)
      modifies this
      ensures Model() == HuggingFaceBot.StartIdleTimer(old(Model()), chat, ref)
    {
      ClearIdle(chat);
      pending := pending[nextToken := Idle(chat, ref, IDLE_DELAY)];
      idleTimers := idleTimers[chat := nextToken];
      nextToken := nextToken + 1;
    }

    /** `endSession(chatId)`. */
    method EndSession(chat: ChatId)
      modifies this
      ensures Model() == HuggingFaceBot.EndSession(old(Model()), chat)
    {
      sessions := sessions - {chat};
      chatMap := chatMap - {chat};
      ClearIdle(chat);
    }

    /** `createBotSession(chatId, virtualProfile, userSocketId)`, returning the new session. */
    method CreateBotSession(chat: ChatId, vp: VirtualProfile, userSocket: SocketId, idSuffix: String, greetPick: nat)
      returns (sess: Session)
      requires Valid(Model())
      modifies this
      ensures sess == NewSession(vp, idSuffix, userSocket)
      ensures Model() == HuggingFaceBot.CreateBotSession(old(Model()), chat, vp, userSocket, idSuffix, greetPick)
      ensures Valid(Model())
    {
      sess := NewSession(vp, idSuffix, userSocket);
      var ref := nextRef;
      heap, sessions, chatMap, nextRef := heap[ref := sess], sessions[chat := ref], chatMap[chat := userSocket], nextRef + 1;
      ghost var s1 := Model();
      assert s1 == old(Model()).(heap := old(heap)[ref := sess], sessions := old(sessions)[chat := ref],
                                 chatMap := old(chatMap)[chat := userSocket], nextRef := ref + 1);
      SendBotMessage(chat, ref, Pick(GREETINGS, greetPick));
      ghost var s2 := Model();
      assert s2 == HuggingFaceBot.SendBotMessage(s1, chat, ref, Pick(GREETINGS, greetPick));
      assert HuggingFaceBot.CreateBotSession(old(Model()), chat, vp, userSocket, idSuffix, greetPick)
          == HuggingFaceBot.StartIdleTimer(s2, chat, ref);
      StartIdleTimer(chat, ref);
      CreateBotSessionValid(old(Model()), chat, vp, userSocket, idSuffix, greetPick);
    }

    /**
     * `queryHuggingFace(userMessage, session)`: the request it posts, and the cleaned answer
     * (`None` where the call throws); a 404 rotates the model first.
     */
    method QueryHuggingFace(ref: Ref, message: String, resp: HfResponse) returns (request: Request, answer: Option<String>)
      requires ref in heap && modelIndex < |MODELS|
      modifies this
      ensures request == BuildRequest(old(modelIndex), old(heap)[ref], message)
      ensures answer == if Succeeded(resp) then Some(CleanResponse(resp.content)) else None
      ensures Model() == Queried(old(Model()), resp)
    {
      request := BuildRequest(modelIndex, heap[ref], message);
      if Succeeded(resp) {
        answer := Some(CleanResponse(resp.content));
      } else {
        answer := None;
        if resp.Response? && resp.status == 404 {
          RotateModel();
        }
      }
    }

    /** `handleUserMessage(chatId, parsedMsg)`, with `message` the payload's text. */
    method HandleUserMessage(chat: ChatId, message: String, resp: HfResponse, pick: nat)
      requires Valid(Model())
      modifies this
      ensures Model() == HuggingFaceBot.HandleUserMessage(old(Model()), chat, message, resp, pick)
      ensures Valid(Model())
    {
      if !Accepts(Model(), chat, message) {
        return;
      }
      Answer(chat, message, resp, pick);
      HandleUserMessageValid(old(Model()), chat, message, resp, pick);
    }

    /** `handleUserMessage` past its guards. */
    method Answer(chat: ChatId, message: String, resp: HfResponse, pick: nat)
      requires Linked(Model()) && Accepts(Model(), chat, message) && modelIndex < |MODELS|
      modifies this
      ensures Model() == HuggingFaceBot.HandleUserMessage(old(Model()), chat, message, resp, pick)
    {
      ghost var s0 := Model();
      var ref := sessions[chat];
      var socket := chatMap[chat];
      Prompt(chat, socket, heap[ref].botId);
      var _, answer := QueryHuggingFace(ref, message, resp);
      ghost var s2 := Model();
      assert s2 == Queried(Prompted(s0, chat, socket, s0.heap[ref].botId), resp);
      HandleUserMessageSteps(s0, chat, message, resp, pick);
      if answer.Some? {
        ArmReply(chat, ref, socket, message, answer.value);
      } else {
        Recover(chat, ref, socket, message, pick);
      }
    }

    /** The success path: the answer waits in its timer. */
    method ArmReply(chat: ChatId, ref: Ref, socket: SocketId, message: String, response: String)
      modifies this
      ensures Model() == HuggingFaceBot.ArmReply(old(Model()), chat, ref, socket, message, response)
    {
      pending := pending[nextToken := Reply(chat, ref, socket, message, response, REPLY_DELAY)];
      nextToken := nextToken + 1;
    }

    /** The idle timer is cleared and the typing indicator goes on. */
    method Prompt(chat: ChatId, socket: SocketId, botId: String)
      modifies this
      ensures Model() == Prompted(old(Model()), chat, socket, botId)
    {
      ClearIdle(chat);
      out := out + [Typing(socket, botId)];
    }

    /** The `catch` branch of `handleUserMessage`. */
    method Recover(chat: ChatId, ref: Ref, socket: SocketId, message: String, pick: nat)
      requires ref in heap
      modifies this
      ensures Model() == HuggingFaceBot.Recover(old(Model()), chat, ref, socket, message, pick)
    {
      out := out + [TypingOff(socket, heap[ref].botId)];
      SendBotMessage(chat, ref, FallbackResponse(message, pick));
      StartIdleTimer(chat, ref);
    }

    /** The answer's one-second timer fires. */
    method FireReply(tok: Token)
      requires Valid(Model()) && tok in pending && pending[tok].Reply?
      modifies this
      ensures Model() == HuggingFaceBot.FireReply(old(Model()), tok)
      ensures Valid(Model())
    {
      var t := pending[tok];
      var sess := heap[t.ref];
      pending := pending - {tok};
      out := out + [TypingOff(t.socket, sess.botId)];
      SendBotMessage(t.chat, t.ref, t.response);
      heap := heap[t.ref := sess.(
        history := sess.history + [UserLine(t.userMessage), BotLine(t.response)],
        messageCount := sess.messageCount + 1)];
      StartIdleTimer(t.chat, t.ref);
      FireReplyValid(old(Model()), tok);
    }

    /** The idle timer fires: `sendIdlePrompt(chatId, session)`. */
    method SendIdlePrompt(tok: Token, pick: nat)
      requires Valid(Model()) && tok in pending && pending[tok].Idle?
      modifies this
      ensures Model() == FireIdle(old(Model()), tok, pick)
      ensures Valid(Model())
    {
      var t := pending[tok];
      var sess := heap[t.ref];
      pending := pending - {tok};
      if t.chat in chatMap && chatMap[t.chat] != [] {
        out := out + [Message(chatMap[t.chat], t.chat, sess.botId, sess.displayName, IDLE_PROMPTS[pick % |IDLE_PROMPTS|])];
      }
      FireIdleValid(old(Model()), tok, pick);
    }
  }
}
