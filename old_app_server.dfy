/**
 * The `oldApp.js` server as an object whose fields the handlers update in place. Every
 * method performs the step that the `OldApp` function of the same name describes, and its
 * contract says so; the scans over `waitingUsers` and the fleet loops are `while` loops
 * proved against the recursive functions they implement.
 */
module OldAppServer {
  import opened Text
  import opened WaitQueue
  import opened OldApp
  import Fleet = OldAppFleet
  import Props = OldAppProps
  import Reply = OldAppReply

  /** The scan of `pickVirtualFromWaiting`. */
  method FindAvailable(q: seq<WaitEntry>, now: int) returns (r: Option<nat>)
    ensures r == FirstAvailableFrom(q, now, 0)
  {
    var k := 0;
    while k < |q|
      invariant k <= |q|
      invariant FirstAvailableFrom(q, now, k) == FirstAvailableFrom(q, now, 0)
    {
      var user := q[k];
      if user.Virtual? && (user.cooldownUntil == 0 || now > user.cooldownUntil) {
        return Some(k);
      }
      k := k + 1;
    }
    return None;
  }

  /** `pickVirtualFromWaiting()` on the queue `q`. */
  method PickFrom(q: seq<WaitEntry>, now: int) returns (r: Picked)
    ensures r == PickVirtual(q, now)
    ensures r.bot.Some? ==> r.bot.value.Virtual? && r.bot.value.cooldownUntil == now + PICK_COOLDOWN_MS
  {
    var i := FindAvailable(q, now);
    match i
    case None =>
      r := Picked(None, q);
    case Some(k) =>
      var user := q[k];
      r := Picked(Some(user.(cooldownUntil := now + PICK_COOLDOWN_MS)), Remove(q, user.id));
  }

  class Server {
    var waiting: seq<WaitEntry>
    var timers: map<Id, Token>
    var active: set<Id>
    var lastBot: map<Id, Id>
    var sessions: map<ChatId, BotSession>
    var analytics: map<ChatId, Stats>
    var botChat: map<ChatId, SocketId>
    var pool: seq<VirtualProfile>
    var pending: map<Token, Task>
    var nextToken: Token
    var out: seq<Event>

    /** The fields as an `OldApp.State`. */
    function Model(): OldApp.State
      reads this
    {
      OldApp.State(waiting, timers, active, lastBot, sessions, analytics, botChat, pool, pending, nextToken, out)
    }

    constructor (virtualUsers: seq<VirtualProfile>)
      ensures Model() == Initial(virtualUsers)
      ensures Props.Valid(Model())
    {
      waiting := [];
      timers := map[];
      active := {};
      lastBot := map[];
      sessions := map[];
      analytics := map[];
      botChat := map[];
      pool := virtualUsers;
      pending := map[];
      nextToken := 0;
      out := [];
      new;
      Props.InitialValid(virtualUsers);
    }

    /** `setTimeout`: store the callback under a fresh token and return the token. */
    method SetTimer(t: Task) returns (tok: Token)
      modifies this
      ensures tok == old(nextToken) && Model() == OldApp.Arm(old(Model()), t)
    {
      tok := nextToken;
      pending := pending[tok := t];
      nextToken := nextToken + 1;
    }

    method BroadcastUserCount()
      modifies this
      ensures Model() == OldApp.Broadcast(old(Model()))
    {
      out := out + [UserCount(|active|, |waiting|)];
    }

    /** Take `id` out of the queue with its countdown and its place in `activeUsers`, then broadcast. */
    method Withdraw(id: Id)
      modifies this
      ensures Model() == OldApp.Withdraw(old(Model()), id)
    {
      waiting := Remove(waiting, id);
      if id in timers {
        pending := pending - {timers[id]};
        timers := timers - {id};
      }
      active := active - {id};
      BroadcastUserCount();
    }

    /** The `readyToPair` handler. */
    method ReadyToPair(id: Id, gender: String, interest: String, socket: SocketId)
      modifies this
      ensures Model() == OldApp.ReadyToPair(old(Model()), id, gender, interest, socket)
    {
      active := active + {id};
      if id in Ids(waiting) {
        out := out + [Waiting(socket, true)];
        return;
      }
      var m := FindCompatible(waiting, gender, interest);
      match m
      case Some(i) =>
        var w := waiting[i];
        out := out + [Paired(w.socketId, id, gender), Paired(socket, w.id, w.gender)];
        active := active - {id};
        Withdraw(w.id);
      case None =>
        waiting := Upsert(waiting, Human(id, gender, interest, socket));
        out := out + [Waiting(socket, false)];
        var tok := SetTimer(Evict(id, socket));
        timers := timers[id := tok];
        BroadcastUserCount();
    }

    /** `startBotConversation(chat, v, realUserId)`. */
    method StartBotConversation(chat: ChatId, v: WaitEntry, now: int)
      requires v.Virtual?
      modifies this
      ensures Model() == OldApp.StartBotConversation(old(Model()), chat, v, now)
    {
      var personaKey := OrElse(v.persona, "friendly");
      analytics := analytics[chat := Stats(v.displayName, now, 0, personaKey, v.city, "", "")];
      sessions := sessions[chat := BotSession(v.id, 0, personaKey, None, true)];
      var _ := SetTimer(Greet(chat, Sender(v.id, v.displayName)));
    }

    /** The body of the countdown callback for a user still in the queue. */
    method Timeout(id: Id, socket: SocketId, now: int, chat: ChatId)
      modifies this
      ensures Model() == OldApp.Timeout(old(Model()), id, socket, now, chat)
    {
      var chosen := PickFrom(waiting, now);
      if chosen.bot.Some? && id in lastBot && lastBot[id] == chosen.bot.value.id {
        chosen := PickFrom(chosen.rest, now);
      }
      waiting := chosen.rest;
      match chosen.bot
      case Some(v) =>
        PairWithBot(id, socket, v, now, chat);
      case None =>
        Expire(id, socket);
    }

    /** The countdown found a bot `v` for the user `id`. */
    method PairWithBot(id: Id, socket: SocketId, v: WaitEntry, now: int, chat: ChatId)
      requires v.Virtual?
      modifies this
      ensures var s1 := old(Model());
        Model() == OldApp.Broadcast(OldApp.StartBotConversation(s1.(
          lastBot := s1.lastBot[id := v.id],
          waiting := Remove(s1.waiting, id),
          timers := s1.timers - {id},
          active := s1.active - {id},
          out := s1.out + [BotPaired(socket, v.id, v.gender, v.displayName, chat)],
          botChat := s1.botChat[chat := socket]), chat, v, now))
    {
      ghost var s2 := Model().(
        lastBot := lastBot[id := v.id],
        waiting := Remove(waiting, id),
        timers := timers - {id},
        active := active - {id},
        out := out + [BotPaired(socket, v.id, v.gender, v.displayName, chat)],
        botChat := botChat[chat := socket]);
      lastBot := lastBot[id := v.id];
      waiting := Remove(waiting, id);
      timers := timers - {id};
      active := active - {id};
      out := out + [BotPaired(socket, v.id, v.gender, v.displayName, chat)];
      botChat := botChat[chat := socket];
      assert Model() == s2;
      StartBotConversation(chat, v, now);
      BroadcastUserCount();
    }

    /** The countdown found no bot: the user leaves the queue and is told so. */
    method Expire(id: Id, socket: SocketId)
      modifies this
      ensures var s2 := OldApp.Broadcast(old(Model()).(waiting := Remove(old(waiting), id), timers := old(timers) - {id}, active := old(active) - {id}));
        Model() == s2.(out := s2.out + [TimedOut(socket)])
    {
      ghost var s1 := Model().(waiting := Remove(waiting, id), timers := timers - {id}, active := active - {id});
      waiting := Remove(waiting, id);
      timers := timers - {id};
      active := active - {id};
      assert Model() == s1;
      BroadcastUserCount();
      out := out + [TimedOut(socket)];
    }

    /** The 30-second countdown of `readyToPair` fires; `chat` is the chat id it would make. */
    method FireEvict(tok: Token, now: int, chat: ChatId)
      requires tok in pending && pending[tok].Evict?
      modifies this
      ensures Model() == OldApp.FireEvict(old(Model()), tok, now, chat)
      ensures Props.Valid(old(Model())) && chat !in old(sessions) ==> Props.Valid(Model())
    {
      ghost var s := Model();
      if Props.Valid(s) && chat !in sessions {
        Props.FireEvictValid(s, tok, now, chat);
      }
      var t := pending[tok];
      pending := pending - {tok};
      if t.user in Ids(waiting) {
        Timeout(t.user, t.socket, now, chat);
      }
    }

    /** The `changePreference` handler. */
    method ChangePreference(id: Id, socket: SocketId)
      modifies this
      ensures Model() == OldApp.ChangePreference(old(Model()), id, socket)
    {
      if id in Ids(waiting) {
        Withdraw(id);
      }
      out := out + [PreferenceUpdated(socket)];
    }

    /** The `disconnect` handler of `socket`. */
    method Disconnect(socket: SocketId)
      modifies this
      ensures Model() == OldApp.Disconnect(old(Model()), socket)
    {
      var m := FindOnSocket(waiting, socket);
      if m.Some? {
        Withdraw(waiting[m.value].id);
      }
    }

    /** `sendBotMessage(chat, bot, message)` up to its delivery timer. */
    method SendBotMessage(chat: ChatId, bot: Sender, message: String)
      modifies this
      ensures Model() == OldApp.SendBotMessage(old(Model()), chat, bot, message)
    {
      if !(chat in sessions && sessions[chat].registered) {
        return;
      }
      var target := TargetOf(Model(), chat);
      var sess := sessions[chat];
      sessions := sessions[chat := sess.(messageCount := sess.messageCount + 1)];
      if chat in analytics {
        analytics := analytics[chat := analytics[chat].(messageCount := analytics[chat].messageCount + 1)];
      }
      out := out + [Typing(target)];
      var _ := SetTimer(Deliver(chat, bot, message));
    }

    /** The delivery timer of `sendBotMessage` fires. */
    method FireDeliver(tok: Token, byePick: nat)
      requires tok in pending && pending[tok].Deliver? && pending[tok].chat in sessions
      requires byePick < |GOODBYES|
      modifies this
      ensures Model() == OldApp.FireDeliver(old(Model()), tok, byePick)
    {
      var t := pending[tok];
      pending := pending - {tok};
      var target := TargetOf(Model(), t.chat);
      out := out + [TypingOff(target), BotMessage(target, t.chat, t.bot, t.message)];
      var sess := sessions[t.chat];
      if sess.followUp.Some? {
        pending := pending - {sess.followUp.value};
        sessions := sessions[t.chat := sess.(followUp := None)];
      }
      if sess.messageCount >= MESSAGE_LIMIT {
        var _ := SetTimer(Goodbye(t.chat, t.bot, GOODBYES[byePick]));
      }
    }

    method FireGoodbye(tok: Token)
      requires tok in pending && pending[tok].Goodbye?
      modifies this
      ensures Model() == OldApp.FireGoodbye(old(Model()), tok)
    {
      var t := pending[tok];
      pending := pending - {tok};
      SendBotMessage(t.chat, t.bot, t.message);
      var _ := SetTimer(EndChat(t.chat));
    }

    /** `endBotChat(chat)`. */
    method EndBotChat(chat: ChatId)
      modifies this
      ensures Model() == OldApp.EndBotChat(old(Model()), chat)
    {
      if chat in sessions {
        sessions := sessions[chat := sessions[chat].(registered := false)];
      }
      out := out + [ChatEnded(TargetOf(Model(), chat), chat)];
      analytics := analytics - {chat};
      botChat := botChat - {chat};
    }

    method FireEndChat(tok: Token)
      requires tok in pending && pending[tok].EndChat?
      modifies this
      ensures Model() == OldApp.FireEndChat(old(Model()), tok)
    {
      var chat := pending[tok].chat;
      pending := pending - {tok};
      EndBotChat(chat);
    }

    /** `scheduleFollowUp(chat, bot)`. */
    method ScheduleFollowUp(chat: ChatId, bot: Sender)
      modifies this
      ensures Model() == OldApp.ScheduleFollowUp(old(Model()), chat, bot)
    {
      if !(chat in sessions && sessions[chat].registered) {
        return;
      }
      var sess := sessions[chat];
      if sess.followUp.Some? {
        pending := pending - {sess.followUp.value};
      }
      var tok := SetTimer(FollowUp(chat, bot));
      sessions := sessions[chat := sess.(followUp := Some(tok))];
    }

    method FireFollowUp(tok: Token, pick: nat)
      requires tok in pending && pending[tok].FollowUp? && pick < |FOLLOW_UPS|
      modifies this
      ensures Model() == OldApp.FireFollowUp(old(Model()), tok, pick)
    {
      var t := pending[tok];
      pending := pending - {tok};
      SendBotMessage(t.chat, t.bot, FOLLOW_UPS[pick]);
    }

    method FireGreet(tok: Token, pick: nat)
      requires tok in pending && pending[tok].Greet? && pick < |GREETINGS|
      modifies this
      ensures Model() == OldApp.FireGreet(old(Model()), tok, pick)
    {
      var t := pending[tok];
      pending := pending - {tok};
      SendBotMessage(t.chat, t.bot, GREETINGS[pick]);
    }

    method FireReply(tok: Token)
      requires tok in pending && pending[tok].Reply?
      modifies this
      ensures Model() == OldApp.FireReply(old(Model()), tok)
    {
      var t := pending[tok];
      pending := pending - {tok};
      SendBotMessage(t.chat, t.bot, t.message);
      ScheduleFollowUp(t.chat, t.bot);
    }

    /** The `sendMessage` handler. */
    method UserMessage(chat: ChatId, raw: String, text: String, fromBot: bool, d: Reply.ReplyDraws)
      requires HasSession(Model(), chat) ==> Reply.DrawsFit(ReplyPersona(Model(), chat), d)
      modifies this
      ensures Model() == OldApp.UserMessage(old(Model()), chat, raw, text, fromBot, d)
    {
      out := out + [Relayed(TargetOf(Model(), chat), chat, raw)];
      if fromBot || !(chat in sessions && sessions[chat].registered) {
        return;
      }
      var p := ReplyProfile(Model(), chat);
      var reply := Reply.GenerateBotReply(text, ReplyPersona(Model(), chat), p, d);
      var _ := SetTimer(Reply(chat, Sender(p.id, p.displayName), reply));
    }

    // ---------------------------------------------------------------- the fleet

    /** `addBots(n)`, with the shuffle `order` of `virtualUsers` and the key suffix `suffix(k)` drawn at its `k`-th profile. */
    method AddBots(n: int, order: seq<nat>, suffix: nat -> String, now: nat)
      requires Fleet.IsShuffle(order, |pool|)
      modifies this
      ensures Model() == Fleet.AddBots(old(Model()), n, order, suffix, now)
    {
      if |pool| == 0 || n <= 0 {
        return;
      }
      var added: nat := 0;
      var k := 0;
      while k < |order| && added < n
        invariant k <= |order| && |pool| == |old(pool)|
        invariant Fleet.OrderFits(order, Fleet.Fleet(waiting, pool))
        invariant Fleet.AddBotsFrom(Fleet.Fleet(waiting, pool), order, suffix, k, added, n, now)
               == Fleet.AddBotsFrom(Fleet.Fleet(old(waiting), old(pool)), order, suffix, 0, 0, n, now)
        invariant Model() == old(Model()).(waiting := waiting, pool := pool)
        decreases |order| - k
      {
        var j := order[k];
        var profile := pool[j];
        if !(profile.cooldownUntil != 0 && now < profile.cooldownUntil) {
          waiting := Upsert(waiting, MakeVirtualEntry(profile, suffix(k)));
          pool := pool[j := profile.(cooldownUntil := now + ADD_COOLDOWN_MS)];
          added := added + 1;
        }
        k := k + 1;
      }
    }

    /** `addVirtualUsersIfEmpty(minCount)`, with the shuffle `order` of `virtualUsers` and the key suffixes `suffix`. */
    method AddVirtualUsersIfEmpty(minCount: nat, order: seq<nat>, suffix: nat -> String, now: nat)
      requires Fleet.IsShuffle(order, |pool|)
      modifies this
      ensures Model() == Fleet.AddVirtualUsersIfEmpty(old(Model()), minCount, order, suffix, now)
    {
      if |waiting| >= minCount {
        return;
      }
      var k := 0;
      while k < |order| && |waiting| < minCount
        invariant k <= |order| && |pool| == |old(pool)|
        invariant Fleet.OrderFits(order, Fleet.Fleet(waiting, pool))
        invariant Fleet.FillFrom(Fleet.Fleet(waiting, pool), order, suffix, k, minCount, now)
               == Fleet.FillFrom(Fleet.Fleet(old(waiting), old(pool)), order, suffix, 0, minCount, now)
        invariant Model() == old(Model()).(waiting := waiting, pool := pool)
        decreases |order| - k
      {
        var j := order[k];
        var profile := pool[j];
        if !(now < profile.cooldownUntil) {
          waiting := Upsert(waiting, MakeVirtualEntry(profile, suffix(k)));
          pool := pool[j := profile.(cooldownUntil := now + ADD_COOLDOWN_MS)];
        }
        k := k + 1;
      }
      BroadcastUserCount();
    }

    /** `removeBots(n)`: the `k`-th removal takes the bot at `picks[k]` of the shrinking bot list. */
    method RemoveBots(n: int, picks: seq<nat>)
      requires Fleet.PicksFrom(picks, 0, |Bots(waiting)|, n)
      modifies this
      ensures Model() == Fleet.RemoveBots(old(Model()), n, picks)
    {
      var bots := Bots(waiting);
      if |bots| == 0 || n <= 0 {
        return;
      }
      var i: nat := 0;
      while i < n && |bots| > 0
        invariant Fleet.PicksFrom(picks, i, |bots|, n)
        invariant Fleet.RemoveBotsFrom(waiting, bots, picks, i, n)
               == Fleet.RemoveBotsFrom(old(waiting), Bots(old(waiting)), picks, 0, n)
        invariant Model() == old(Model()).(waiting := waiting)
        decreases |bots|
      {
        var idx := picks[i];
        var removeId := bots[idx].id;
        bots := bots[..idx] + bots[idx + 1..];
        waiting := Remove(waiting, removeId);
        i := i + 1;
      }
    }

    /** `fluctuateVirtualUsers(minRange, maxRange)` with the draws `d`. */
    method FluctuateVirtualUsers(minRange: int, maxRange: int, d: Fleet.FleetDraws, now: nat)
      requires Fleet.DrawsFit(Model(), d)
      modifies this
      ensures Model() == Fleet.Fluctuate(old(Model()), minRange, maxRange, d, now)
    {
      var current := |Bots(waiting)|;
      var target := Fleet.Target(minRange, maxRange, d.targetDraw);
      if current == target {
        if d.jitterGate < 4 as real / 10 as real {
          var jitter := Fleet.Jitter(d.jitterDraw);
          if jitter > 0 {
            AddBots(Fleet.Min(jitter, |pool| - current), d.order, d.suffix, now);
          } else if jitter < 0 {
            Fleet.PicksFewer(d.picks, 0, current, current, Fleet.Min(-jitter, current));
            RemoveBots(Fleet.Min(-jitter, current), d.picks);
          }
        }
      } else if current < target {
        AddBots(Fleet.Min(target - current, |pool| - current), d.order, d.suffix, now);
      } else {
        Fleet.PicksFewer(d.picks, 0, current, current, Fleet.Min(current - target, current));
        RemoveBots(Fleet.Min(current - target, current), d.picks);
      }
      BroadcastUserCount();
    }
  }
}
