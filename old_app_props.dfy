/**
 * What the handlers and timer callbacks of `oldApp.js` guarantee: the invariant `Valid` that
 * ties the countdown table to the queue and the timer table to the bot sessions, its
 * preservation by every event, and the outcome of each event.
 */
module OldAppProps {
  import opened Text
  import opened WaitQueue
  import opened OldApp
  import Fleet = OldAppFleet
  import Reply = OldAppReply

  /** `timers` holds exactly one pending countdown for every waiting human, and nothing else. */
  predicate CountdownsOk(waiting: seq<WaitEntry>, timers: map<Id, Token>, pending: map<Token, Task>)
  {
    timers.Keys == HumanIds(waiting)
    && (forall id :: id in timers ==> timers[id] in pending && pending[timers[id]].Evict? && pending[timers[id]].user == id)
    && (forall t :: t in pending && pending[t].Evict? ==> pending[t].user in timers && timers[pending[t].user] == t)
  }

  /** Tokens are never reused. */
  predicate TokensFresh(pending: map<Token, Task>, nextToken: Token)
  {
    forall t :: t in pending ==> t < nextToken
  }

  /**
   * A pending delivery belongs to a known session; a pending follow-up is the one its session
   * records; and the follow-up a session records, while pending, is a follow-up of that chat.
   */
  predicate SessionsOk(pending: map<Token, Task>, sessions: map<ChatId, BotSession>, nextToken: Token)
  {
    (forall t :: t in pending && pending[t].Deliver? ==> pending[t].chat in sessions)
    && (forall t :: t in pending && pending[t].FollowUp? ==>
          pending[t].chat in sessions && sessions[pending[t].chat].followUp == Some(t))
    && (forall c :: c in sessions && sessions[c].followUp.Some? ==>
          sessions[c].followUp.value < nextToken
          && (sessions[c].followUp.value in pending ==>
                pending[sessions[c].followUp.value].FollowUp? && pending[sessions[c].followUp.value].chat == c))
  }

  predicate TimersOk(s: State)
  {
    CountdownsOk(s.waiting, s.timers, s.pending)
  }

  predicate TokensOk(s: State)
  {
    TokensFresh(s.pending, s.nextToken)
  }

  predicate ChatsOk(s: State)
  {
    SessionsOk(s.pending, s.sessions, s.nextToken)
  }

  predicate Valid(s: State)
  {
    QueueOk(s.waiting) && TimersOk(s) && TokensOk(s) && ChatsOk(s)
  }

  lemma InitialValid(pool: seq<VirtualProfile>)
    ensures Valid(Initial(pool))
  {
  }

  // ------------------------------------------------------------------ building blocks

  /** Arming a timer other than a follow-up keeps the session side of the invariant. */
  lemma ArmChatsOk(s: State, t: Task)
    requires ChatsOk(s) && TokensOk(s) && !t.FollowUp? && (t.Deliver? ==> t.chat in s.sessions)
    ensures ChatsOk(Arm(s, t)) && TokensOk(Arm(s, t))
  {
    var r := Arm(s, t);
    forall c | c in r.sessions && r.sessions[c].followUp.Some?
      ensures r.sessions[c].followUp.value < r.nextToken
      ensures r.sessions[c].followUp.value in r.pending ==>
        r.pending[r.sessions[c].followUp.value].FollowUp? && r.pending[r.sessions[c].followUp.value].chat == c
    {
      assert r.sessions[c].followUp.value != s.nextToken;
    }
  }

  /** Arming a timer other than a countdown leaves `timers` in step. */
  lemma ArmCountdownsOk(waiting: seq<WaitEntry>, timers: map<Id, Token>, pending: map<Token, Task>, nextToken: Token, t: Task)
    requires CountdownsOk(waiting, timers, pending) && TokensFresh(pending, nextToken) && !t.Evict?
    ensures CountdownsOk(waiting, timers, pending[nextToken := t])
  {
    var p := pending[nextToken := t];
    forall id | id in timers
      ensures timers[id] in p && p[timers[id]].Evict? && p[timers[id]].user == id
    {
      assert timers[id] in pending;
    }
  }

  /** Arming a timer that is neither a countdown nor a follow-up keeps the invariant. */
  lemma ArmValid(s: State, t: Task)
    requires Valid(s) && !t.Evict? && !t.FollowUp? && (t.Deliver? ==> t.chat in s.sessions)
    ensures Valid(Arm(s, t))
  {
    ArmChatsOk(s, t);
  }

  /** Clearing a timer other than a countdown keeps the invariant. */
  lemma CancelValid(s: State, tok: Token)
    requires Valid(s) && !(tok in s.pending && s.pending[tok].Evict?)
    ensures Valid(Cancel(s, tok))
  {
  }

  /** Valid does not look at `activeUsers` or at what was emitted. */
  lemma ValidIgnoresCounts(s: State, active: set<Id>, out: seq<Event>)
    requires Valid(s)
    ensures Valid(s.(active := active, out := out))
  {
  }

  /** Dropping a key's countdown when the queue loses that key keeps `timers` in step. */
  lemma DropTimerOk(s: State, id: Id, q: seq<WaitEntry>)
    requires TimersOk(s) && TokensOk(s) && HumanIds(q) == HumanIds(s.waiting) - {id}
    ensures var r := DropTimer(s.(waiting := q), id);
      TimersOk(r) && TokensOk(r) && r.sessions == s.sessions && r.nextToken == s.nextToken
      && r.pending == (if id in s.timers then s.pending - {s.timers[id]} else s.pending)
      && forall t :: t in r.pending ==> t in s.pending && r.pending[t] == s.pending[t]
  {
    var r := DropTimer(s.(waiting := q), id);
    if id in s.timers {
      var tok := s.timers[id];
      assert r.timers == s.timers - {id};
      assert r.pending == s.pending - {tok};
      forall id' | id' in r.timers
        ensures r.timers[id'] in r.pending && r.pending[r.timers[id']].Evict? && r.pending[r.timers[id']].user == id'
      {
        assert s.pending[s.timers[id']].user == id';
      }
    } else {
      assert id !in HumanIds(s.waiting);
    }
  }

  /** Taking a key out of the queue together with its countdown keeps the invariant. */
  lemma WithdrawValid(s: State, id: Id)
    requires Valid(s)
    ensures Valid(Withdraw(s, id))
  {
    var q := Remove(s.waiting, id);
    RemoveUnique(s.waiting, id);
    RemoveHumanIds(s.waiting, id);
    RemoveElements(s.waiting, id);
    assert QueueOk(q);
    DropTimerOk(s, id, q);
    var r := DropTimer(s.(waiting := q), id);
    assert Valid(r);
    ValidIgnoresCounts(r, r.active - {id}, r.out + [UserCount(|r.active - {id}|, |r.waiting|)]);
  }

  // ------------------------------------------------------------------ readyToPair

  /** A user already waiting is only told so (and counted as active). */
  lemma ReadyToPairAlreadyQueued(s: State, id: Id, gender: String, interest: String, socket: SocketId)
    requires id in Ids(s.waiting)
    ensures ReadyToPair(s, id, gender, interest, socket) == s.(active := s.active + {id}, out := s.out + [Waiting(socket, true)])
  {
  }

  /** What `Withdraw` does to the queue and the timer tables. */
  lemma WithdrawEffect(s: State, id: Id)
    ensures var r := Withdraw(s, id);
      r.waiting == Remove(s.waiting, id) && r.timers == s.timers - {id}
      && r.pending == (if id in s.timers then s.pending - {s.timers[id]} else s.pending)
      && r.active == s.active - {id} && r.out == s.out + [UserCount(|r.active|, |r.waiting|)]
      && r.lastBot == s.lastBot && r.sessions == s.sessions && r.analytics == s.analytics
      && r.botChat == s.botChat && r.pool == s.pool && r.nextToken == s.nextToken
  {
    var q := Remove(s.waiting, id);
    var s1 := s.(waiting := q);
    if id in s.timers {
      assert DropTimer(s1, id) == s1.(pending := s.pending - {s.timers[id]}, timers := s.timers - {id});
    } else {
      assert s.timers - {id} == s.timers;
    }
  }

  /**
   * A newcomer with a compatible human waiting is paired with the first such human in queue order:
   * both are told, the partner leaves the queue with its countdown, neither stays active, and the
   * newcomer is not queued.
   */
  lemma ReadyToPairMatches(s: State, id: Id, gender: String, interest: String, socket: SocketId)
    requires QueueOk(s.waiting) && TimersOk(s) && id !in Ids(s.waiting)
    requires FirstCompatibleFrom(s.waiting, gender, interest, 0).Some?
    ensures var i := FirstCompatibleFrom(s.waiting, gender, interest, 0).value;
      var w := s.waiting[i];
      var r := ReadyToPair(s, id, gender, interest, socket);
      w.Human? && IsCompatibleMatch(gender, interest, w.gender, w.interestedIn)
      && (forall j :: 0 <= j < i ==> !(s.waiting[j].Human? && IsCompatibleMatch(gender, interest, s.waiting[j].gender, s.waiting[j].interestedIn)))
      && r.waiting == s.waiting[..i] + s.waiting[i + 1..]
      && id !in Ids(r.waiting)
      && r.timers == s.timers - {w.id}
      && w.id in s.timers && r.pending == s.pending - {s.timers[w.id]}
      && r.active == s.active - {id} - {w.id}
      && r.out == s.out + [Paired(w.socketId, id, gender), Paired(socket, w.id, w.gender), UserCount(|r.active|, |r.waiting|)]
  {
    var i := FirstCompatibleFrom(s.waiting, gender, interest, 0).value;
    var w := s.waiting[i];
    IdsMember(s.waiting, i);
    assert w.id in s.timers;
    assert ReadyToPair(s, id, gender, interest, socket) == PairWith(s.(active := s.active + {id}), w, id, gender, socket);
    PairWithEffect(s, i, id, gender, socket);
  }

  /** The match branch taken with the entry at `i`, under only the facts it needs. */
  lemma PairWithEffect(s: State, i: nat, id: Id, gender: String, socket: SocketId)
    requires UniqueIds(s.waiting) && i < |s.waiting| && s.waiting[i].Human? && s.waiting[i].id in s.timers
    requires id !in Ids(s.waiting)
    ensures var w := s.waiting[i];
      var r := PairWith(s.(active := s.active + {id}), w, id, gender, socket);
      r.waiting == s.waiting[..i] + s.waiting[i + 1..]
      && id !in Ids(r.waiting)
      && r.timers == s.timers - {w.id}
      && r.pending == s.pending - {s.timers[w.id]}
      && r.active == s.active - {id} - {w.id}
      && r.out == s.out + [Paired(w.socketId, id, gender), Paired(socket, w.id, w.gender), UserCount(|r.active|, |r.waiting|)]
  {
    var w := s.waiting[i];
    RemoveAt(s.waiting, i);
    RemoveIds(s.waiting, w.id);
    var s1 := s.(active := s.active + {id});
    var s2 := s1.(out := s1.out + [Paired(w.socketId, id, gender), Paired(socket, w.id, w.gender)]);
    var s3 := s2.(active := s2.active - {id});
    var r := PairWith(s1, w, id, gender, socket);
    assert r == Withdraw(s3, w.id);
    WithdrawEffect(s3, w.id);
    AppendTwoThenOne(s.out, Paired(w.socketId, id, gender), Paired(socket, w.id, w.gender), UserCount(|r.active|, |r.waiting|));
  }

  lemma AppendTwoThenOne<T>(xs: seq<T>, a: T, b: T, c: T)
    ensures xs + [a, b] + [c] == xs + [a, b, c]
  {
  }

  /** With no compatible human waiting, the newcomer is appended to the queue with a fresh countdown. */
  lemma ReadyToPairEnqueues(s: State, id: Id, gender: String, interest: String, socket: SocketId)
    requires id !in Ids(s.waiting)
    requires FirstCompatibleFrom(s.waiting, gender, interest, 0).None?
    ensures var r := ReadyToPair(s, id, gender, interest, socket);
      r.waiting == s.waiting + [Human(id, gender, interest, socket)]
      && r.timers == s.timers[id := s.nextToken]
      && r.pending == s.pending[s.nextToken := Evict(id, socket)]
      && r.active == s.active + {id}
      && r.out == s.out + [Waiting(socket, false), UserCount(|r.active|, |r.waiting|)]
  {
    UpsertPlace(s.waiting, Human(id, gender, interest, socket));
  }

  /** A new countdown for a key new to `timers` keeps `timers` in step with a queue that gains that key. */
  lemma ArmCountdownOk(s: State, id: Id, socket: SocketId, q: seq<WaitEntry>)
    requires TimersOk(s) && TokensOk(s) && id !in s.timers && HumanIds(q) == HumanIds(s.waiting) + {id}
    ensures TimersOk(s.(waiting := q, pending := s.pending[s.nextToken := Evict(id, socket)], nextToken := s.nextToken + 1, timers := s.timers[id := s.nextToken]))
  {
    var tok := s.nextToken;
    var r := s.(waiting := q, pending := s.pending[tok := Evict(id, socket)], nextToken := tok + 1, timers := s.timers[id := tok]);
    forall id' | id' in r.timers
      ensures r.timers[id'] in r.pending && r.pending[r.timers[id']].Evict? && r.pending[r.timers[id']].user == id'
    {
      if id' != id {
        assert s.timers[id'] in s.pending;
      }
    }
    forall t | t in r.pending && r.pending[t].Evict?
      ensures r.pending[t].user in r.timers && r.timers[r.pending[t].user] == t
    {
      if t != tok {
        assert s.pending[t].Evict?;
      }
    }
  }

  /** Appending a human under a new non-virtual key, with a fresh countdown, keeps the invariant. */
  lemma EnqueueValid(s: State, id: Id, gender: String, interest: String, socket: SocketId)
    requires Valid(s) && !IsVirtualKey(id) && id !in Ids(s.waiting)
    ensures Valid(Enqueue(s, id, gender, interest, socket))
  {
    var r := Enqueue(s, id, gender, interest, socket);
    EnqueueQueueOk(s.waiting, Human(id, gender, interest, socket));
    EnqueueTimersOk(s, id, gender, interest, socket);
    EnqueueChatsOk(s, id, gender, interest, socket);
    assert QueueOk(r.waiting);
  }

  lemma EnqueueTimersOk(s: State, id: Id, gender: String, interest: String, socket: SocketId)
    requires Valid(s) && !IsVirtualKey(id) && id !in Ids(s.waiting)
    ensures TimersOk(Enqueue(s, id, gender, interest, socket))
  {
    var e := Human(id, gender, interest, socket);
    var q := Upsert(s.waiting, e);
    EnqueueQueueOk(s.waiting, e);
    HumanIdsInIds(s.waiting);
    ArmCountdownOk(s, id, socket, q);
    var r := Enqueue(s, id, gender, interest, socket);
    assert r.waiting == q && r.timers == s.timers[id := s.nextToken] && r.pending == s.pending[s.nextToken := Evict(id, socket)];
  }

  lemma EnqueueChatsOk(s: State, id: Id, gender: String, interest: String, socket: SocketId)
    requires ChatsOk(s) && TokensOk(s)
    ensures ChatsOk(Enqueue(s, id, gender, interest, socket)) && TokensOk(Enqueue(s, id, gender, interest, socket))
  {
    ArmChatsOk(s, Evict(id, socket));
    var r := Enqueue(s, id, gender, interest, socket);
    var a := Arm(s, Evict(id, socket));
    assert r.pending == a.pending && r.sessions == a.sessions && r.nextToken == a.nextToken;
  }

  /** A human under a new non-virtual key joins the back of the queue and the queue stays well formed. */
  lemma EnqueueQueueOk(waiting: seq<WaitEntry>, e: WaitEntry)
    requires QueueOk(waiting) && e.Human? && !IsVirtualKey(e.id) && e.id !in Ids(waiting)
    ensures QueueOk(Upsert(waiting, e)) && HumanIds(Upsert(waiting, e)) == HumanIds(waiting) + {e.id}
  {
    var q := Upsert(waiting, e);
    UpsertPlace(waiting, e);
    IdsOfAppend(waiting, [e]);
    assert HumanIds([e]) == {e.id};
    UpsertUnique(waiting, e);
    assert forall x :: x in q ==> x in waiting || x == e;
  }

  lemma ReadyToPairValid(s: State, id: Id, gender: String, interest: String, socket: SocketId)
    requires Valid(s) && !IsVirtualKey(id)
    ensures Valid(ReadyToPair(s, id, gender, interest, socket))
  {
    var s1 := s.(active := s.active + {id});
    ValidIgnoresCounts(s, s1.active, s1.out);
    if id in Ids(s.waiting) {
      ValidIgnoresCounts(s, s1.active, s1.out + [Waiting(socket, true)]);
    } else {
      match FirstCompatibleFrom(s.waiting, gender, interest, 0)
      case Some(i) =>
        var w := s.waiting[i];
        var s2 := s1.(out := s1.out + [Paired(w.socketId, id, gender), Paired(socket, w.id, w.gender)]);
        var s3 := s2.(active := s2.active - {id});
        ValidIgnoresCounts(s, s3.active, s3.out);
        assert s3 == s.(active := s3.active, out := s3.out);
        WithdrawValid(s3, w.id);
      case None =>
        EnqueueValid(s1, id, gender, interest, socket);
    }
  }

  // ------------------------------------------------------------------ the countdown

  /** Valid reads only the queue, the two timer tables, the token counter and the sessions. */
  lemma ValidOnCore(s: State, r: State)
    requires Valid(s)
    requires r.waiting == s.waiting && r.timers == s.timers && r.pending == s.pending
    requires r.nextToken == s.nextToken && r.sessions == s.sessions
    ensures Valid(r)
  {
  }

  /** A pending countdown always belongs to a waiting human: the callback's `has(id)` test never fails. */
  lemma EvictFiresForWaiting(s: State, tok: Token)
    requires Valid(s) && tok in s.pending && s.pending[tok].Evict?
    ensures s.pending[tok].user in HumanIds(s.waiting) && s.pending[tok].user in Ids(s.waiting)
    ensures s.timers[s.pending[tok].user] == tok
  {
    HumanIdsInIds(s.waiting);
  }

  /**
   * `pickVirtualFromWaiting` takes the first available virtual entry out of the queue and keeps
   * everything else; when none is available it changes nothing.
   */
  lemma PickVirtualEffect(q: seq<WaitEntry>, now: int)
    requires QueueOk(q)
    ensures var p := PickVirtual(q, now);
      QueueOk(p.rest) && HumanIds(p.rest) == HumanIds(q) && Ids(p.rest) <= Ids(q)
      && (p.bot.None? ==> p.rest == q && forall j :: 0 <= j < |q| ==> !Available(q[j], now))
      && (p.bot.Some? ==> p.bot.value.id in Ids(q) - Ids(p.rest) && IsVirtualKey(p.bot.value.id)
                          && |p.rest| == |q| - 1)
  {
    match FirstAvailableFrom(q, now, 0)
    case None =>
    case Some(i) =>
      var x := q[i].id;
      IdsMember(q, i);
      assert q[i] in q;
      HumanKeysNotVirtual(q);
      RemoveUnique(q, x);
      RemoveIds(q, x);
      RemoveHumanIds(q, x);
      RemoveElements(q, x);
      RemoveSize(q, x);
  }

  /** Both picks of the callback together: queue still well formed, no human touched. */
  lemma ChosenEffect(q: seq<WaitEntry>, now: int, repeated: bool)
    requires QueueOk(q)
    ensures var first := PickVirtual(q, now);
      var chosen := if repeated then PickVirtual(first.rest, now) else first;
      QueueOk(chosen.rest) && HumanIds(chosen.rest) == HumanIds(q) && Ids(chosen.rest) <= Ids(q)
      && (chosen.bot.Some? ==> chosen.bot.value.id in Ids(q) - Ids(chosen.rest))
      && (repeated && first.bot.Some? && chosen.bot.Some? ==> chosen.bot.value.id != first.bot.value.id)
  {
    PickVirtualEffect(q, now);
    PickVirtualEffect(PickVirtual(q, now).rest, now);
  }

  /** When the countdown of a waiting user expires, the user leaves the queue, the countdown table and the active set. */
  lemma TimeoutRemovesUser(s: State, id: Id, socket: SocketId, now: int, chat: ChatId)
    requires QueueOk(s.waiting)
    ensures var r := Timeout(s, id, socket, now, chat);
      id !in Ids(r.waiting) && id !in r.timers && id !in r.active
      && QueueOk(r.waiting) && HumanIds(r.waiting) == HumanIds(s.waiting) - {id}
  {
    var first := PickVirtual(s.waiting, now);
    var repeated := first.bot.Some? && id in s.lastBot && s.lastBot[id] == first.bot.value.id;
    var chosen := if repeated then PickVirtual(first.rest, now) else first;
    ChosenEffect(s.waiting, now, repeated);
    RemoveUnique(chosen.rest, id);
    RemoveIds(chosen.rest, id);
    RemoveHumanIds(chosen.rest, id);
    RemoveElements(chosen.rest, id);
  }

  /** With no available virtual entry the user is told the wait timed out, and no session starts. */
  lemma TimeoutWithoutBots(s: State, id: Id, socket: SocketId, now: int, chat: ChatId)
    requires QueueOk(s.waiting) && FirstAvailableFrom(s.waiting, now, 0).None?
    ensures var r := Timeout(s, id, socket, now, chat);
      r.lastBot == s.lastBot && r.sessions == s.sessions && r.pending == s.pending
      && r.out == s.out + [UserCount(|r.active|, |r.waiting|), TimedOut(socket)]
  {
  }

  /** An available virtual entry that is not the user's previous bot is paired with the user in a new session. */
  lemma TimeoutPairsFirstBot(s: State, id: Id, socket: SocketId, now: int, chat: ChatId)
    requires QueueOk(s.waiting)
    requires PickVirtual(s.waiting, now).bot.Some?
    requires id !in s.lastBot || s.lastBot[id] != PickVirtual(s.waiting, now).bot.value.id
    ensures var r := Timeout(s, id, socket, now, chat);
      var v := PickVirtual(s.waiting, now).bot.value;
      r.lastBot == s.lastBot[id := v.id] && HasSession(r, chat) && r.sessions[chat].botId == v.id
      && r.out[|s.out|] == BotPaired(socket, v.id, v.gender, v.displayName, chat)
      && r.botChat == s.botChat[chat := socket]
  {
  }

  /** Whatever bot the user gets differs from the previous one, was waiting, and is no longer waiting. */
  lemma TimeoutNeverRepeatsBot(s: State, id: Id, socket: SocketId, now: int, chat: ChatId)
    requires QueueOk(s.waiting)
    ensures var r := Timeout(s, id, socket, now, chat);
      r.lastBot != s.lastBot ==>
        id in r.lastBot && r.lastBot == s.lastBot[id := r.lastBot[id]]
        && (id in s.lastBot ==> r.lastBot[id] != s.lastBot[id])
        && r.lastBot[id] in Ids(s.waiting) - Ids(r.waiting) && HasSession(r, chat)
  {
    var first := PickVirtual(s.waiting, now);
    var repeated := first.bot.Some? && id in s.lastBot && s.lastBot[id] == first.bot.value.id;
    var chosen := if repeated then PickVirtual(first.rest, now) else first;
    ChosenEffect(s.waiting, now, repeated);
    RemoveIds(chosen.rest, id);
    RemoveUnique(chosen.rest, id);
  }

  /** Firing a countdown and dropping its user from the queue and from `timers` keeps the invariant. */
  lemma ExpireValid(s: State, tok: Token, q: seq<WaitEntry>)
    requires Valid(s) && tok in s.pending && s.pending[tok].Evict?
    requires QueueOk(q) && HumanIds(q) == HumanIds(s.waiting) - {s.pending[tok].user}
    ensures Valid(s.(waiting := q, timers := s.timers - {s.pending[tok].user}, pending := s.pending - {tok}))
  {
    var u := s.pending[tok].user;
    var r := s.(waiting := q, timers := s.timers - {u}, pending := s.pending - {tok});
    forall id' | id' in r.timers
      ensures r.timers[id'] in r.pending && r.pending[r.timers[id']].Evict? && r.pending[r.timers[id']].user == id'
    {
      assert s.pending[s.timers[id']].user == id';
    }
    assert TimersOk(r);
  }

  /** Opening a session under a chat id no session has used keeps the invariant. */
  lemma StartValid(s: State, chat: ChatId, v: WaitEntry, now: int)
    requires Valid(s) && v.Virtual? && chat !in s.sessions
    ensures Valid(StartBotConversation(s, chat, v, now))
  {
    var s1 := s.(
      analytics := s.analytics[chat := Stats(v.displayName, now, 0, OrElse(v.persona, "friendly"), v.city, "", "")],
      sessions := s.sessions[chat := BotSession(v.id, 0, OrElse(v.persona, "friendly"), None, true)]);
    assert ChatsOk(s1);
    ArmValid(s1, Greet(chat, Sender(v.id, v.displayName)));
  }

  /** The countdown callback keeps the invariant, given a chat id no session has used. */
  lemma FireEvictValid(s: State, tok: Token, now: int, chat: ChatId)
    requires Valid(s) && tok in s.pending && s.pending[tok].Evict? && chat !in s.sessions
    ensures Valid(FireEvict(s, tok, now, chat))
  {
    var t := s.pending[tok];
    var u := t.user;
    EvictFiresForWaiting(s, tok);
    var s0 := Cancel(s, tok);
    var first := PickVirtual(s0.waiting, now);
    var repeated := first.bot.Some? && u in s0.lastBot && s0.lastBot[u] == first.bot.value.id;
    var chosen := if repeated then PickVirtual(first.rest, now) else first;
    ChosenEffect(s0.waiting, now, repeated);
    var q := Remove(chosen.rest, u);
    RemoveUnique(chosen.rest, u);
    RemoveHumanIds(chosen.rest, u);
    RemoveElements(chosen.rest, u);
    ExpireValid(s, tok, q);
    var core := s.(waiting := q, timers := s.timers - {u}, pending := s.pending - {tok});
    var r := FireEvict(s, tok, now, chat);
    assert r == Timeout(s0, u, t.socket, now, chat);
    var s1 := s0.(waiting := chosen.rest);
    match chosen.bot
    case None =>
      assert r.waiting == q && r.timers == core.timers && r.pending == core.pending;
      ValidOnCore(core, r);
    case Some(v) =>
      var s2 := core.(
        lastBot := s.lastBot[u := v.id],
        active := s.active - {u},
        out := s.out + [BotPaired(t.socket, v.id, v.gender, v.displayName, chat)],
        botChat := s.botChat[chat := t.socket]);
      assert s2 == s1.(
        lastBot := s1.lastBot[u := v.id],
        waiting := Remove(s1.waiting, u),
        timers := s1.timers - {u},
        active := s1.active - {u},
        out := s1.out + [BotPaired(t.socket, v.id, v.gender, v.displayName, chat)],
        botChat := s1.botChat[chat := t.socket]);
      ValidOnCore(core, s2);
      StartValid(s2, chat, v, now);
      var s3 := StartBotConversation(s2, chat, v, now);
      assert r == Broadcast(s3);
      ValidOnCore(s3, r);
  }

  // ------------------------------------------------------------------ leaving the queue

  lemma ChangePreferenceValid(s: State, id: Id, socket: SocketId)
    requires Valid(s)
    ensures Valid(ChangePreference(s, id, socket))
  {
    if id in Ids(s.waiting) {
      WithdrawValid(s, id);
      ValidOnCore(Withdraw(s, id), ChangePreference(s, id, socket));
    } else {
      ValidOnCore(s, ChangePreference(s, id, socket));
    }
  }

  /**
   * `changePreference` takes a waiting user out of the queue, out of `timers` and out of the active
   * set, and always answers `preferenceUpdated`; for a user not waiting it only answers.
   */
  lemma ChangePreferenceEffect(s: State, id: Id, socket: SocketId)
    requires Valid(s)
    ensures var r := ChangePreference(s, id, socket);
      id !in Ids(r.waiting) && id !in r.timers && Valid(r)
      && r.out[|r.out| - 1] == PreferenceUpdated(socket) && r.sessions == s.sessions
    ensures id in Ids(s.waiting) ==>
      var r := ChangePreference(s, id, socket);
      id !in r.active && |r.waiting| == |s.waiting| - 1 && r.waiting == Remove(s.waiting, id)
    ensures id !in Ids(s.waiting) ==> ChangePreference(s, id, socket) == s.(out := s.out + [PreferenceUpdated(socket)])
  {
    ChangePreferenceValid(s, id, socket);
    if id in Ids(s.waiting) {
      WithdrawEffect(s, id);
      RemoveIds(s.waiting, id);
      RemoveSize(s.waiting, id);
    } else {
      HumanIdsInIds(s.waiting);
    }
  }

  /** A second `changePreference` for the same user only answers again. */
  lemma ChangePreferenceIdempotent(s: State, id: Id, socket: SocketId)
    requires Valid(s)
    ensures var r := ChangePreference(s, id, socket);
      ChangePreference(r, id, socket) == r.(out := r.out + [PreferenceUpdated(socket)])
  {
    ChangePreferenceEffect(s, id, socket);
  }

  lemma DisconnectValid(s: State, socket: SocketId)
    requires Valid(s)
    ensures Valid(Disconnect(s, socket))
  {
    match FirstOnSocketFrom(s.waiting, socket, 0)
    case None =>
    case Some(i) => WithdrawValid(s, s.waiting[i].id);
  }

  /**
   * `disconnect` takes out the first waiting human on that socket, in queue order, with its
   * countdown and its place in the active set; with none waiting on that socket nothing changes.
   */
  lemma DisconnectRemovesFirst(s: State, socket: SocketId)
    requires Valid(s)
    ensures FirstOnSocketFrom(s.waiting, socket, 0).None? <==> forall j :: 0 <= j < |s.waiting| ==> !OnSocket(s.waiting[j], socket)
    ensures FirstOnSocketFrom(s.waiting, socket, 0).None? ==> Disconnect(s, socket) == s
    ensures FirstOnSocketFrom(s.waiting, socket, 0).Some? ==>
      var i := FirstOnSocketFrom(s.waiting, socket, 0).value;
      var id := s.waiting[i].id;
      var r := Disconnect(s, socket);
      OnSocket(s.waiting[i], socket) && (forall j :: 0 <= j < i ==> !OnSocket(s.waiting[j], socket))
      && r.waiting == s.waiting[..i] + s.waiting[i + 1..]
      && r.timers == s.timers - {id} && r.active == s.active - {id}
      && r.out == s.out + [UserCount(|r.active|, |r.waiting|)] && Valid(r)
  {
    match FirstOnSocketFrom(s.waiting, socket, 0)
    case None =>
    case Some(i) =>
      RemoveAt(s.waiting, i);
      WithdrawEffect(s, s.waiting[i].id);
      WithdrawValid(s, s.waiting[i].id);
  }

  /** Cutting out the only entry on a socket leaves none on it. */
  lemma CutLeavesNoneOnSocket(q: seq<WaitEntry>, socket: SocketId, i: nat)
    requires i < |q| && OnSocket(q[i], socket)
    requires forall a, b :: 0 <= a < b < |q| && OnSocket(q[a], socket) ==> !OnSocket(q[b], socket)
    ensures FirstOnSocketFrom(q[..i] + q[i + 1..], socket, 0).None?
  {
    var c := q[..i] + q[i + 1..];
    forall j | 0 <= j < |c|
      ensures !OnSocket(c[j], socket)
    {
      if j >= i {
        assert c[j] == q[j + 1];
      } else {
        assert c[j] == q[j];
      }
    }
  }

  /** When at most one waiting human uses the socket, a repeated `disconnect` changes nothing more. */
  lemma DisconnectIdempotent(s: State, socket: SocketId)
    requires Valid(s)
    requires forall i, j :: 0 <= i < j < |s.waiting| && OnSocket(s.waiting[i], socket) ==> !OnSocket(s.waiting[j], socket)
    ensures Disconnect(Disconnect(s, socket), socket) == Disconnect(s, socket)
  {
    match FirstOnSocketFrom(s.waiting, socket, 0)
    case None =>
    case Some(i) =>
      RemoveAt(s.waiting, i);
      WithdrawEffect(s, s.waiting[i].id);
      CutLeavesNoneOnSocket(s.waiting, socket, i);
  }

  // ------------------------------------------------------------------ bot chat

  /**
   * `sendBotMessage` on a chat without a session does nothing; on a chat with one it counts exactly
   * one message in the session (and in the chat's statistics), shows the typing indicator and arms
   * exactly one delivery of that message, changing no other session.
   */
  lemma SendBotMessageEffect(s: State, chat: ChatId, bot: Sender, message: String)
    ensures !HasSession(s, chat) ==> SendBotMessage(s, chat, bot, message) == s
    ensures HasSession(s, chat) ==>
      var r := SendBotMessage(s, chat, bot, message);
      r.sessions.Keys == s.sessions.Keys && HasSession(r, chat)
      && r.sessions[chat].messageCount == s.sessions[chat].messageCount + 1
      && r.sessions[chat].(messageCount := s.sessions[chat].messageCount) == s.sessions[chat]
      && (forall c :: c in s.sessions && c != chat ==> r.sessions[c] == s.sessions[c])
      && (chat in s.analytics ==> r.analytics[chat].messageCount == s.analytics[chat].messageCount + 1)
      && r.nextToken == s.nextToken + 1 && r.pending == s.pending[s.nextToken := Deliver(chat, bot, message)]
      && r.out == s.out + [Typing(TargetOf(s, chat))]
      && r.waiting == s.waiting && r.timers == s.timers
  {
  }

  /** Replacing a session by one with the same follow-up keeps the session side of the invariant. */
  lemma SessionUpdateChatsOk(pending: map<Token, Task>, sessions: map<ChatId, BotSession>, nextToken: Token, chat: ChatId, sess: BotSession)
    requires SessionsOk(pending, sessions, nextToken) && chat in sessions && sess.followUp == sessions[chat].followUp
    ensures SessionsOk(pending, sessions[chat := sess], nextToken)
  {
    var r := sessions[chat := sess];
    assert forall c :: c in r ==> c in sessions && r[c].followUp == sessions[c].followUp;
  }

  lemma SendBotMessageValid(s: State, chat: ChatId, bot: Sender, message: String)
    requires Valid(s)
    ensures Valid(SendBotMessage(s, chat, bot, message))
  {
    if HasSession(s, chat) {
      var r := SendBotMessage(s, chat, bot, message);
      SendBotMessageTimersOk(s, chat, bot, message);
      SendBotMessageChatsOk(s, chat, bot, message);
      assert r.waiting == s.waiting;
    }
  }

  lemma SendBotMessageTimersOk(s: State, chat: ChatId, bot: Sender, message: String)
    requires TimersOk(s) && TokensOk(s) && HasSession(s, chat)
    ensures var r := SendBotMessage(s, chat, bot, message); TimersOk(r) && TokensOk(r)
  {
    var t := Deliver(chat, bot, message);
    ArmCountdownsOk(s.waiting, s.timers, s.pending, s.nextToken, t);
    var r := SendBotMessage(s, chat, bot, message);
    assert r.pending == s.pending[s.nextToken := t] && r.nextToken == s.nextToken + 1;
    assert r.waiting == s.waiting && r.timers == s.timers;
  }

  lemma SendBotMessageChatsOk(s: State, chat: ChatId, bot: Sender, message: String)
    requires ChatsOk(s) && TokensOk(s) && HasSession(s, chat)
    ensures ChatsOk(SendBotMessage(s, chat, bot, message))
  {
    var sess := s.sessions[chat];
    var sessions := s.sessions[chat := sess.(messageCount := sess.messageCount + 1)];
    SessionUpdateChatsOk(s.pending, s.sessions, s.nextToken, chat, sess.(messageCount := sess.messageCount + 1));
    var s1 := s.(sessions := sessions);
    var t := Deliver(chat, bot, message);
    ArmChatsOk(s1, t);
    var r := SendBotMessage(s, chat, bot, message);
    assert r.pending == Arm(s1, t).pending && r.sessions == sessions && r.nextToken == s.nextToken + 1;
  }

  /** At most one follow-up timer is pending per chat. */
  lemma AtMostOneFollowUp(s: State, t1: Token, t2: Token)
    requires Valid(s)
    requires t1 in s.pending && s.pending[t1].FollowUp? && t2 in s.pending && s.pending[t2].FollowUp?
    requires s.pending[t1].chat == s.pending[t2].chat
    ensures t1 == t2
  {
  }

  /**
   * A delivery shows the message at the chat's current target, leaves the chat without a pending
   * follow-up, and arms the farewell exactly when the session has counted `MESSAGE_LIMIT` messages.
   */
  lemma FireDeliverEffect(s: State, tok: Token, byePick: nat)
    requires Valid(s) && tok in s.pending && s.pending[tok].Deliver? && byePick < |GOODBYES|
    ensures var t := s.pending[tok];
      var r := FireDeliver(s, tok, byePick);
      var target := TargetOf(s, t.chat);
      r.out == s.out + [TypingOff(target), BotMessage(target, t.chat, t.bot, t.message)]
      && tok !in r.pending
      && (forall u :: u in r.pending && r.pending[u].FollowUp? ==> r.pending[u].chat != t.chat)
      && (s.sessions[t.chat].messageCount >= MESSAGE_LIMIT ==>
            s.nextToken in r.pending && r.pending[s.nextToken] == Goodbye(t.chat, t.bot, GOODBYES[byePick]))
      && (s.sessions[t.chat].messageCount < MESSAGE_LIMIT ==> r.nextToken == s.nextToken)
  {
    var t := s.pending[tok];
    var s0 := Cancel(s, tok);
    var sess := s.sessions[t.chat];
    var p := if sess.followUp.Some? then s0.pending - {sess.followUp.value} else s0.pending;
    NoFollowUpAfterCancel(s, t.chat);
    var r := FireDeliver(s, tok, byePick);
    assert r.pending == (if sess.messageCount >= MESSAGE_LIMIT then p[s.nextToken := Goodbye(t.chat, t.bot, GOODBYES[byePick])] else p);
  }

  /** A delivery keeps the invariant. */
  lemma FireDeliverValid(s: State, tok: Token, byePick: nat)
    requires Valid(s) && tok in s.pending && s.pending[tok].Deliver? && byePick < |GOODBYES|
    ensures Valid(FireDeliver(s, tok, byePick))
  {
    var t := s.pending[tok];
    var s0 := Cancel(s, tok);
    var target := TargetOf(s0, t.chat);
    var s1 := s0.(out := s0.out + [TypingOff(target), BotMessage(target, t.chat, t.bot, t.message)]);
    CancelValid(s, tok);
    ValidOnCore(s0, s1);
    var sess := s1.sessions[t.chat];
    var s2 := if sess.followUp.Some? then Cancel(s1, sess.followUp.value).(sessions := s1.sessions[t.chat := sess.(followUp := None)]) else s1;
    if sess.followUp.Some? {
      ClearFollowUpValid(s1, t.chat);
    }
    if sess.messageCount >= MESSAGE_LIMIT {
      ArmValid(s2, Goodbye(t.chat, t.bot, GOODBYES[byePick]));
    }
  }

  /** Clearing a chat's follow-up timer and forgetting it in the session keeps the invariant. */
  lemma ClearFollowUpValid(s: State, chat: ChatId)
    requires Valid(s) && chat in s.sessions && s.sessions[chat].followUp.Some?
    ensures var sess := s.sessions[chat];
      Valid(Cancel(s, sess.followUp.value).(sessions := s.sessions[chat := sess.(followUp := None)]))
  {
    var sess := s.sessions[chat];
    var tok := sess.followUp.value;
    var r := Cancel(s, tok).(sessions := s.sessions[chat := sess.(followUp := None)]);
    CancelValid(s, tok);
    assert TimersOk(r) && TokensOk(r) && QueueOk(r.waiting) by {
      assert r.waiting == s.waiting && r.timers == s.timers && r.pending == s.pending - {tok} && r.nextToken == s.nextToken;
    }
    ClearFollowUpChatsOk(s.pending, s.sessions, s.nextToken, chat);
  }

  lemma ClearFollowUpChatsOk(pending: map<Token, Task>, sessions: map<ChatId, BotSession>, nextToken: Token, chat: ChatId)
    requires SessionsOk(pending, sessions, nextToken) && TokensFresh(pending, nextToken)
    requires chat in sessions && sessions[chat].followUp.Some?
    ensures var sess := sessions[chat];
      SessionsOk(pending - {sess.followUp.value}, sessions[chat := sess.(followUp := None)], nextToken)
  {
  }

  lemma FireGoodbyeValid(s: State, tok: Token)
    requires Valid(s) && tok in s.pending && s.pending[tok].Goodbye?
    ensures Valid(FireGoodbye(s, tok))
  {
    var t := s.pending[tok];
    CancelValid(s, tok);
    SendBotMessageValid(Cancel(s, tok), t.chat, t.bot, t.message);
    ArmValid(SendBotMessage(Cancel(s, tok), t.chat, t.bot, t.message), EndChat(t.chat));
  }

  /**
   * After `endBotChat` the chat has no session, no statistics and no user socket; the end is
   * announced; and any later bot message or follow-up for the chat does nothing.
   */
  lemma EndBotChatCloses(s: State, chat: ChatId, bot: Sender, message: String)
    ensures var r := EndBotChat(s, chat);
      !HasSession(r, chat) && chat !in r.analytics && chat !in r.botChat
      && r.out == s.out + [ChatEnded(TargetOf(s, chat), chat)]
      && SendBotMessage(r, chat, bot, message) == r
      && ScheduleFollowUp(r, chat, bot) == r
      && r.pending == s.pending && r.waiting == s.waiting
  {
  }

  lemma FireEndChatValid(s: State, tok: Token)
    requires Valid(s) && tok in s.pending && s.pending[tok].EndChat?
    ensures Valid(FireEndChat(s, tok))
  {
    var c := s.pending[tok].chat;
    CancelValid(s, tok);
    var s0 := Cancel(s, tok);
    var r := FireEndChat(s, tok);
    assert r.sessions.Keys == s0.sessions.Keys;
    assert forall c' :: c' in s0.sessions ==> r.sessions[c'].followUp == s0.sessions[c'].followUp;
    assert ChatsOk(r);
  }

  /** Clearing the follow-up a session records leaves no follow-up of that chat pending. */
  lemma NoFollowUpAfterCancel(s: State, chat: ChatId)
    requires Valid(s) && chat in s.sessions
    ensures var sess := s.sessions[chat];
      var p := if sess.followUp.Some? then s.pending - {sess.followUp.value} else s.pending;
      forall u :: u in p && p[u].FollowUp? ==> p[u].chat != chat
  {
  }

  /** A fresh follow-up recorded in its session, when no other follow-up of the chat is pending, keeps the invariant. */
  lemma FollowUpArmOk(pending: map<Token, Task>, sessions: map<ChatId, BotSession>, nextToken: Token, chat: ChatId, bot: Sender)
    requires SessionsOk(pending, sessions, nextToken) && TokensFresh(pending, nextToken) && chat in sessions
    requires forall u :: u in pending && pending[u].FollowUp? ==> pending[u].chat != chat
    ensures SessionsOk(pending[nextToken := FollowUp(chat, bot)], sessions[chat := sessions[chat].(followUp := Some(nextToken))], nextToken + 1)
    ensures TokensFresh(pending[nextToken := FollowUp(chat, bot)], nextToken + 1)
  {
    var p := pending[nextToken := FollowUp(chat, bot)];
    var ss := sessions[chat := sessions[chat].(followUp := Some(nextToken))];
    forall t | t in p && p[t].FollowUp?
      ensures p[t].chat in ss && ss[p[t].chat].followUp == Some(t)
    {
      if t != nextToken {
        assert pending[t].chat != chat;
      }
    }
    forall c | c in ss && ss[c].followUp.Some?
      ensures ss[c].followUp.value < nextToken + 1
      ensures ss[c].followUp.value in p ==> p[ss[c].followUp.value].FollowUp? && p[ss[c].followUp.value].chat == c
    {
      if c != chat {
        assert ss[c] == sessions[c];
        assert sessions[c].followUp.value < nextToken;
      }
    }
  }

  /**
   * After `scheduleFollowUp` on a chat with a session, exactly one follow-up is pending for the chat:
   * the fresh one the session records; the previous one was cleared.
   */
  lemma ScheduleFollowUpSingle(s: State, chat: ChatId, bot: Sender)
    requires Valid(s) && HasSession(s, chat)
    ensures var r := ScheduleFollowUp(s, chat, bot);
      r.sessions[chat].followUp.Some? && r.sessions[chat].followUp.value in r.pending
      && r.pending[r.sessions[chat].followUp.value] == FollowUp(chat, bot)
      && forall u :: u in r.pending && r.pending[u].FollowUp? && r.pending[u].chat == chat ==> u == r.sessions[chat].followUp.value
  {
    NoFollowUpAfterCancel(s, chat);
  }

  lemma ScheduleFollowUpValid(s: State, chat: ChatId, bot: Sender)
    requires Valid(s)
    ensures Valid(ScheduleFollowUp(s, chat, bot))
  {
    if HasSession(s, chat) {
      ScheduleFollowUpOk(s, chat, bot);
    }
  }

  lemma ScheduleFollowUpOk(s: State, chat: ChatId, bot: Sender)
    requires Valid(s) && HasSession(s, chat)
    ensures Valid(ScheduleFollowUp(s, chat, bot))
  {
    var r := ScheduleFollowUp(s, chat, bot);
    ScheduleFollowUpParts(s, chat, bot);
    assert r.waiting == s.waiting;
  }

  lemma ScheduleFollowUpParts(s: State, chat: ChatId, bot: Sender)
    requires Valid(s) && HasSession(s, chat)
    ensures var r := ScheduleFollowUp(s, chat, bot); TimersOk(r) && TokensOk(r) && ChatsOk(r)
  {
    var sess := s.sessions[chat];
    var p := if sess.followUp.Some? then s.pending - {sess.followUp.value} else s.pending;
    CancelFollowUpOk(s, chat);
    ScheduleFollowUpTimersOk(s, chat, bot, p);
    ScheduleFollowUpChatsOk(s, chat, bot, p);
  }

  lemma ScheduleFollowUpTimersOk(s: State, chat: ChatId, bot: Sender, p: map<Token, Task>)
    requires HasSession(s, chat) && CountdownsOk(s.waiting, s.timers, p) && TokensFresh(p, s.nextToken)
    requires p == if s.sessions[chat].followUp.Some? then s.pending - {s.sessions[chat].followUp.value} else s.pending
    ensures TimersOk(ScheduleFollowUp(s, chat, bot))
  {
    ArmCountdownsOk(s.waiting, s.timers, p, s.nextToken, FollowUp(chat, bot));
    var r := ScheduleFollowUp(s, chat, bot);
    assert r.pending == p[s.nextToken := FollowUp(chat, bot)] && r.waiting == s.waiting && r.timers == s.timers;
  }

  lemma ScheduleFollowUpChatsOk(s: State, chat: ChatId, bot: Sender, p: map<Token, Task>)
    requires HasSession(s, chat) && SessionsOk(p, s.sessions, s.nextToken) && TokensFresh(p, s.nextToken)
    requires forall u :: u in p && p[u].FollowUp? ==> p[u].chat != chat
    requires p == if s.sessions[chat].followUp.Some? then s.pending - {s.sessions[chat].followUp.value} else s.pending
    ensures var r := ScheduleFollowUp(s, chat, bot); TokensOk(r) && ChatsOk(r)
  {
    var sess := s.sessions[chat];
    FollowUpArmOk(p, s.sessions, s.nextToken, chat, bot);
    var r := ScheduleFollowUp(s, chat, bot);
    assert r.pending == p[s.nextToken := FollowUp(chat, bot)];
    assert r.sessions == s.sessions[chat := sess.(followUp := Some(s.nextToken))];
    assert r.nextToken == s.nextToken + 1;
  }

  /** Cancelling a chat's follow-up keeps the invariant's parts and leaves no follow-up of that chat. */
  lemma CancelFollowUpOk(s: State, chat: ChatId)
    requires Valid(s) && chat in s.sessions
    ensures var sess := s.sessions[chat];
      var p := if sess.followUp.Some? then s.pending - {sess.followUp.value} else s.pending;
      SessionsOk(p, s.sessions, s.nextToken) && TokensFresh(p, s.nextToken) && CountdownsOk(s.waiting, s.timers, p)
      && forall u :: u in p && p[u].FollowUp? ==> p[u].chat != chat
  {
    var sess := s.sessions[chat];
    NoFollowUpAfterCancel(s, chat);
    if sess.followUp.Some? {
      CancelValid(s, sess.followUp.value);
      assert Cancel(s, sess.followUp.value).pending == s.pending - {sess.followUp.value};
    }
  }

  lemma FireFollowUpValid(s: State, tok: Token, pick: nat)
    requires Valid(s) && tok in s.pending && s.pending[tok].FollowUp? && pick < |FOLLOW_UPS|
    ensures Valid(FireFollowUp(s, tok, pick))
  {
    var t := s.pending[tok];
    CancelValid(s, tok);
    SendBotMessageValid(Cancel(s, tok), t.chat, t.bot, FOLLOW_UPS[pick]);
  }

  lemma FireGreetValid(s: State, tok: Token, pick: nat)
    requires Valid(s) && tok in s.pending && s.pending[tok].Greet? && pick < |GREETINGS|
    ensures Valid(FireGreet(s, tok, pick))
  {
    var t := s.pending[tok];
    CancelValid(s, tok);
    SendBotMessageValid(Cancel(s, tok), t.chat, t.bot, GREETINGS[pick]);
  }

  lemma FireReplyValid(s: State, tok: Token)
    requires Valid(s) && tok in s.pending && s.pending[tok].Reply?
    ensures Valid(FireReply(s, tok))
  {
    var t := s.pending[tok];
    CancelValid(s, tok);
    var s1 := SendBotMessage(Cancel(s, tok), t.chat, t.bot, t.message);
    SendBotMessageValid(Cancel(s, tok), t.chat, t.bot, t.message);
    ScheduleFollowUpValid(s1, t.chat, t.bot);
  }

  /**
   * `sendMessage` always relays the payload; in a chat with a session and a message not sent by a
   * bot it arms exactly one bot reply, the one `generateBotReply` gives for the text and the
   * session's persona; otherwise it does nothing else.
   */
  lemma UserMessageEffect(s: State, chat: ChatId, raw: String, text: String, fromBot: bool, d: Reply.ReplyDraws)
    requires HasSession(s, chat) ==> Reply.DrawsFit(ReplyPersona(s, chat), d)
    ensures var r := UserMessage(s, chat, raw, text, fromBot, d);
      r.out == s.out + [Relayed(TargetOf(s, chat), chat, raw)]
      && r.sessions == s.sessions && r.waiting == s.waiting && r.timers == s.timers
    ensures fromBot || !HasSession(s, chat) ==>
      UserMessage(s, chat, raw, text, fromBot, d) == s.(out := s.out + [Relayed(TargetOf(s, chat), chat, raw)])
    ensures !fromBot && HasSession(s, chat) ==>
      var r := UserMessage(s, chat, raw, text, fromBot, d);
      var p := ReplyProfile(s, chat);
      r.pending == s.pending[s.nextToken := Reply(chat, Sender(s.sessions[chat].botId, p.displayName),
                                                  Reply.GenerateBotReply(text, ReplyPersona(s, chat), p, d))]
      && p.displayName != []
  {
  }

  /** A gender question in a bot chat is answered with the safety deflection, whatever the draws. */
  lemma UserMessageGenderDeflected(s: State, chat: ChatId, raw: String, text: String, d: Reply.ReplyDraws)
    requires HasSession(s, chat) && Reply.DrawsFit(ReplyPersona(s, chat), d)
    requires ContainsAny(Lower(text), Reply.GENDER_WORDS)
    ensures var r := UserMessage(s, chat, raw, text, false, d);
      r.pending[s.nextToken].Reply? && r.pending[s.nextToken].message == Reply.GENDER_REPLY
  {
    Reply.SafetyFiltersFirst(text, ReplyPersona(s, chat), ReplyProfile(s, chat), d);
  }

  lemma UserMessageValid(s: State, chat: ChatId, raw: String, text: String, fromBot: bool, d: Reply.ReplyDraws)
    requires Valid(s) && (HasSession(s, chat) ==> Reply.DrawsFit(ReplyPersona(s, chat), d))
    ensures Valid(UserMessage(s, chat, raw, text, fromBot, d))
  {
    var s1 := s.(out := s.out + [Relayed(TargetOf(s, chat), chat, raw)]);
    ValidOnCore(s, s1);
    if !fromBot && HasSession(s1, chat) {
      var p := ReplyProfile(s1, chat);
      ArmValid(s1, Reply(chat, Sender(p.id, p.displayName), Reply.GenerateBotReply(text, ReplyPersona(s1, chat), p, d)));
    }
  }

  // ------------------------------------------------------------------ the fleet

  /** Replacing the queue by one with the same humans keeps the invariant. */
  lemma SameHumansValid(s: State, r: State)
    requires Valid(s) && QueueOk(r.waiting) && HumanIds(r.waiting) == HumanIds(s.waiting)
    requires r.timers == s.timers && r.pending == s.pending && r.nextToken == s.nextToken && r.sessions == s.sessions
    ensures Valid(r)
  {
  }

  lemma AddVirtualUsersIfEmptyValid(s: State, minCount: nat, order: seq<nat>, suffix: nat -> String, now: nat)
    requires Valid(s) && Fleet.IsShuffle(order, |s.pool|)
    ensures Valid(Fleet.AddVirtualUsersIfEmpty(s, minCount, order, suffix, now))
  {
    Fleet.AddVirtualUsersIfEmptyBounds(s, minCount, order, suffix, now);
    if |s.waiting| < minCount {
      SameHumansValid(s, Fleet.AddVirtualUsersIfEmpty(s, minCount, order, suffix, now));
    }
  }

  lemma FluctuateValid(s: State, minRange: int, maxRange: int, d: Fleet.FleetDraws, now: nat)
    requires Valid(s) && Fleet.DrawsFit(s, d) && Fleet.IsDraw(d.jitterDraw)
    ensures Valid(Fleet.Fluctuate(s, minRange, maxRange, d, now))
  {
    Fleet.FluctuateTowardTarget(s, minRange, maxRange, d, now);
    SameHumansValid(s, Fleet.Fluctuate(s, minRange, maxRange, d, now));
  }
}
