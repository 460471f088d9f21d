/**
 * The earlier queue server (`app.js`): the same insertion-ordered `waitingUsers` map and
 * `timers` map as `oldApp.js`, without virtual entries, `activeUsers` or user counts.
 *
 * Two of its handlers do not do what their comments say. `changePreference` takes the user
 * out of the queue but leaves the countdown armed, and `disconnect` compares a property the
 * entries do not have. Both are modelled as written (`ChangePreferenceAsWritten`,
 * `DisconnectAsWritten`, with lemmas that exhibit the effect) and corrected
 * (`ChangePreference`, `Disconnect`); the invariant `Valid` below holds for the corrected
 * handlers, and `AppServer.Server` uses them.
 */
module App {
  import opened Text
  import opened WaitQueue

  type Token = nat

  /** The callback of a countdown armed by `readyToPair` for `user` on `socket`. */
  datatype Task = Evict(user: Id, socket: SocketId)

  datatype Event =
    | Waiting(to: SocketId, alreadyQueued: bool)
    | Paired(to: SocketId, partner: Id, partnerGender: String)
    | TimedOut(to: SocketId)
    | PreferenceUpdated(to: SocketId)

  datatype State = State(
    waiting: seq<WaitEntry>,      // waitingUsers
    timers: map<Id, Token>,       // timers
    pending: map<Token, Task>,    // armed, not yet fired or cleared countdowns
    nextToken: Token,
    out: seq<Event>)

  function Initial(): State
  {
    State([], map[], map[], 0, [])
  }

  /** `clearTimeout(token)`. */
  function Cancel(s: State, tok: Token): State
  {
    s.(pending := s.pending - {tok})
  }

  /** `clearTimeout(timers.get(id))` and `timers.delete(id)`; clearing a missing handle does nothing. */
  function DropTimer(s: State, id: Id): State
  {
    if id in s.timers then Cancel(s, s.timers[id]).(timers := s.timers - {id}) else s
  }

  /**
   * The `readyToPair` handler for `{ id, gender, interestedIn }` from `socket`. The scan takes the
   * first compatible entry; `app.js` has no bot filter, and every entry it queues is a human.
   */
  function ReadyToPair(s: State, id: Id, gender: String, interest: String, socket: SocketId): State
  {
    if id in Ids(s.waiting) then s.(out := s.out + [Waiting(socket, true)])
    else match FirstCompatibleFrom(s.waiting, gender, interest, 0)
      case Some(i) =>
        var w := s.waiting[i];
        var s1 := DropTimer(s.(out := s.out + [Paired(w.socketId, id, gender), Paired(socket, w.id, w.gender)]), w.id);
        s1.(waiting := Remove(s1.waiting, w.id))
      case None =>
        var s1 := s.(waiting := Upsert(s.waiting, Human(id, gender, interest, socket)), out := s.out + [Waiting(socket, false)]);
        s1.(pending := s1.pending[s1.nextToken := Evict(id, socket)], nextToken := s1.nextToken + 1, timers := s1.timers[id := s1.nextToken])
  }

  /** A countdown fires: a user still queued is removed, has the `timers` key deleted and is told. */
  function FireEvict(s: State, tok: Token): State
    requires tok in s.pending
  {
    var t := s.pending[tok];
    var s0 := Cancel(s, tok);
    if t.user in Ids(s0.waiting) then
      s0.(waiting := Remove(s0.waiting, t.user), timers := s0.timers - {t.user}, out := s0.out + [TimedOut(t.socket)])
    else s0
  }

  /** `changePreference` as written: the entry leaves the queue, its countdown stays armed. */
  function ChangePreferenceAsWritten(s: State, id: Id, socket: SocketId): State
  {
    var s1 := if id in Ids(s.waiting) then s.(waiting := Remove(s.waiting, id)) else s;
    s1.(out := s1.out + [PreferenceUpdated(socket)])
  }

  /** `changePreference` with the countdown cleared, as `oldApp.js` does. */
  function ChangePreference(s: State, id: Id, socket: SocketId): State
  {
    var s1 := if id in Ids(s.waiting) then DropTimer(s.(waiting := Remove(s.waiting, id)), id) else s;
    s1.(out := s1.out + [PreferenceUpdated(socket)])
  }

  /**
   * `user.socket` of a queued entry. Entries are stored as `{ id, gender, interestedIn, socketId }`,
   * so the property is `undefined` and never equals a socket.
   */
  function SocketProperty(e: WaitEntry): Option<SocketId>
  {
    None
  }

  predicate OnSocketAsWritten(e: WaitEntry, socket: SocketId)
  {
    SocketProperty(e) == Some(socket)
  }

  /** The search as written; no entry has a `socket` property, so it always ends in `None`. */
  function FirstOnSocketAsWrittenFrom(q: seq<WaitEntry>, socket: SocketId, k: nat): (r: Option<nat>)
    requires k <= |q|
    decreases |q| - k
    ensures r.Some? ==> k <= r.value < |q| && OnSocketAsWritten(q[r.value], socket)
  {
    if k == |q| then None
    else if OnSocketAsWritten(q[k], socket) then Some(k)
    else FirstOnSocketAsWrittenFrom(q, socket, k + 1)
  }

  /** `disconnect` as written: delete the first entry whose `socket` property is the socket. */
  function DisconnectAsWritten(s: State, socket: SocketId): State
  {
    match FirstOnSocketAsWrittenFrom(s.waiting, socket, 0)
    case None => s
    case Some(i) => s.(waiting := Remove(s.waiting, s.waiting[i].id))
  }

  /** `disconnect` comparing the stored `socketId`, and clearing the countdown of the entry it deletes. */
  function Disconnect(s: State, socket: SocketId): State
  {
    match FirstOnSocketFrom(s.waiting, socket, 0)
    case None => s
    case Some(i) =>
      var id := s.waiting[i].id;
      DropTimer(s.(waiting := Remove(s.waiting, id)), id)
  }

  // ------------------------------------------------------------------ the invariant

  /**
   * Every queued entry is a human under a distinct key, the keys of `timers` are the queued ids,
   * and the pending countdowns are exactly the ones `timers` refers to, each for its own user.
   */
  predicate Valid(s: State)
  {
    UniqueIds(s.waiting)
    && (forall e :: e in s.waiting ==> e.Human?)
    && s.timers.Keys == Ids(s.waiting)
    && (forall id :: id in s.timers ==> s.timers[id] in s.pending && s.pending[s.timers[id]].user == id)
    && (forall tok :: tok in s.pending ==> tok < s.nextToken && s.pending[tok].user in s.timers && s.timers[s.pending[tok].user] == tok)
  }

  lemma InitialValid()
    ensures Valid(Initial())
  {
  }

  /** Deleting a queued user together with that user's countdown keeps the invariant. */
  lemma DropValid(s: State, id: Id)
    requires Valid(s)
    ensures Valid(DropTimer(s.(waiting := Remove(s.waiting, id)), id))
  {
    var r := DropTimer(s.(waiting := Remove(s.waiting, id)), id);
    RemoveIds(s.waiting, id);
    RemoveUnique(s.waiting, id);
    RemoveElements(s.waiting, id);
    forall tok | tok in r.pending
      ensures r.pending[tok].user in r.timers && r.timers[r.pending[tok].user] == tok
    {
      assert s.timers[s.pending[tok].user] == tok;
    }
  }

  lemma ReadyToPairValid(s: State, id: Id, gender: String, interest: String, socket: SocketId)
    requires Valid(s)
    ensures Valid(ReadyToPair(s, id, gender, interest, socket))
  {
    if id !in Ids(s.waiting) {
      match FirstCompatibleFrom(s.waiting, gender, interest, 0)
      case Some(i) =>
        var w := s.waiting[i];
        DropValid(s.(out := s.out + [Paired(w.socketId, id, gender), Paired(socket, w.id, w.gender)]), w.id);
      case None =>
        var e := Human(id, gender, interest, socket);
        UpsertIds(s.waiting, e);
        UpsertUnique(s.waiting, e);
        UpsertElements(s.waiting, e);
        var r := ReadyToPair(s, id, gender, interest, socket);
        assert id !in s.timers;
        forall tok | tok in r.pending
          ensures tok < r.nextToken && r.pending[tok].user in r.timers && r.timers[r.pending[tok].user] == tok
        {
          if tok != s.nextToken {
            assert s.pending[tok].user != id;
          }
        }
    }
  }

  lemma FireEvictValid(s: State, tok: Token)
    requires Valid(s) && tok in s.pending
    ensures Valid(FireEvict(s, tok))
  {
    var t := s.pending[tok];
    assert t.user in Ids(s.waiting) && s.timers[t.user] == tok;
    DropValid(s, t.user);
    assert FireEvict(s, tok) == DropTimer(s.(waiting := Remove(s.waiting, t.user)), t.user).(out := s.out + [TimedOut(t.socket)]);
  }

  lemma ChangePreferenceValid(s: State, id: Id, socket: SocketId)
    requires Valid(s)
    ensures Valid(ChangePreference(s, id, socket))
  {
    if id in Ids(s.waiting) {
      DropValid(s, id);
    }
  }

  lemma DisconnectValid(s: State, socket: SocketId)
    requires Valid(s)
    ensures Valid(Disconnect(s, socket))
  {
    match FirstOnSocketFrom(s.waiting, socket, 0)
    case None =>
    case Some(i) =>
      DropValid(s, s.waiting[i].id);
  }

  /**
   * Under the invariant a countdown only ever fires for a user who is still queued and whose
   * current countdown it is, and it then takes exactly that user out of the queue.
   */
  lemma FireEvictHitsOwnCountdown(s: State, tok: Token)
    requires Valid(s) && tok in s.pending
    ensures var t := s.pending[tok]; var r := FireEvict(s, tok);
      t.user in Ids(s.waiting) && s.timers[t.user] == tok
      && Ids(r.waiting) == Ids(s.waiting) - {t.user}
      && r.out == s.out + [TimedOut(t.socket)]
  {
    RemoveIds(s.waiting, s.pending[tok].user);
  }

  // ------------------------------------------------------------------ the handlers

  /** A user already queued is only told so: queue, timers and countdowns stay as they were. */
  lemma ReadyToPairAlreadyQueued(s: State, id: Id, gender: String, interest: String, socket: SocketId)
    requires id in Ids(s.waiting)
    ensures var r := ReadyToPair(s, id, gender, interest, socket);
      r.waiting == s.waiting && r.timers == s.timers && r.pending == s.pending && r.out == s.out + [Waiting(socket, true)]
  {
  }

  /**
   * A match with the first compatible entry in insertion order cuts that entry out of the
   * queue, clears its countdown and tells both users; the newcomer is not queued.
   */
  lemma ReadyToPairMatches(s: State, id: Id, gender: String, interest: String, socket: SocketId)
    requires Valid(s) && id !in Ids(s.waiting)
    requires FirstCompatibleFrom(s.waiting, gender, interest, 0).Some?
    ensures var i := FirstCompatibleFrom(s.waiting, gender, interest, 0).value;
      var w := s.waiting[i];
      var r := ReadyToPair(s, id, gender, interest, socket);
      IsCompatibleMatch(gender, interest, w.gender, w.interestedIn)
      && (forall j :: 0 <= j < i ==> !IsCompatibleMatch(gender, interest, s.waiting[j].gender, s.waiting[j].interestedIn))
      && r.waiting == s.waiting[..i] + s.waiting[i + 1..]
      && id !in Ids(r.waiting)
      && r.timers == s.timers - {w.id}
      && w.id in s.timers && r.pending == s.pending - {s.timers[w.id]}
      && r.out == s.out + [Paired(w.socketId, id, gender), Paired(socket, w.id, w.gender)]
  {
    var i := FirstCompatibleFrom(s.waiting, gender, interest, 0).value;
    forall j | 0 <= j < i
      ensures !IsCompatibleMatch(gender, interest, s.waiting[j].gender, s.waiting[j].interestedIn)
    {
      assert s.waiting[j] in s.waiting;
    }
    IdsMember(s.waiting, i);
    RemoveAt(s.waiting, i);
    RemoveIds(s.waiting, s.waiting[i].id);
  }

  /** With no compatible entry the newcomer is appended with exactly one fresh countdown. */
  lemma ReadyToPairEnqueues(s: State, id: Id, gender: String, interest: String, socket: SocketId)
    requires id !in Ids(s.waiting)
    requires FirstCompatibleFrom(s.waiting, gender, interest, 0).None?
    ensures var r := ReadyToPair(s, id, gender, interest, socket);
      r.waiting == s.waiting + [Human(id, gender, interest, socket)]
      && r.timers == s.timers[id := s.nextToken]
      && r.pending == s.pending[s.nextToken := Evict(id, socket)]
      && r.nextToken == s.nextToken + 1
      && r.out == s.out + [Waiting(socket, false)]
  {
    UpsertPlace(s.waiting, Human(id, gender, interest, socket));
  }

  /** A countdown of a user no longer queued only disappears from the table. */
  lemma FireEvictGone(s: State, tok: Token)
    requires tok in s.pending && s.pending[tok].user !in Ids(s.waiting)
    ensures FireEvict(s, tok) == s.(pending := s.pending - {tok})
  {
  }

  lemma ChangePreferenceIdempotent(s: State, id: Id, socket: SocketId)
    requires Valid(s)
    ensures var r := ChangePreference(s, id, socket);
      id !in Ids(r.waiting) && id !in r.timers
      && ChangePreference(r, id, socket) == r.(out := r.out + [PreferenceUpdated(socket)])
  {
    RemoveIds(s.waiting, id);
  }

  /** The corrected `disconnect` takes out the first entry on the socket, with its countdown. */
  lemma DisconnectRemovesFirst(s: State, socket: SocketId)
    requires UniqueIds(s.waiting)
    ensures var r := Disconnect(s, socket);
      match FirstOnSocketFrom(s.waiting, socket, 0)
      case None => r == s
      case Some(i) =>
        r.waiting == s.waiting[..i] + s.waiting[i + 1..]
        && r.timers == s.timers - {s.waiting[i].id}
        && (s.waiting[i].id in s.timers ==> r.pending == s.pending - {s.timers[s.waiting[i].id]})
        && r.out == s.out
  {
    match FirstOnSocketFrom(s.waiting, socket, 0)
    case None =>
    case Some(i) =>
      RemoveAt(s.waiting, i);
  }

  // ------------------------------------------------------------------ the two defects

  /** `disconnect` as written never takes anyone out of the queue. */
  lemma DisconnectAsWrittenNeverRemoves(s: State, socket: SocketId)
    ensures DisconnectAsWritten(s, socket) == s
  {
    assert FirstOnSocketAsWrittenFrom(s.waiting, socket, 0).None?;
  }

  /** A user queued from socket `"s1"` who disconnects stays queued as written, and leaves when corrected. */
  lemma DisconnectCounterexample()
    ensures var s := ReadyToPair(Initial(), "u", "Male", "Female", "s1");
      "u" in Ids(DisconnectAsWritten(s, "s1").waiting) && Disconnect(s, "s1").waiting == []
  {
    var s := ReadyToPair(Initial(), "u", "Male", "Female", "s1");
    assert s.waiting == [Human("u", "Male", "Female", "s1")];
    assert FirstOnSocketFrom(s.waiting, "s1", 0) == Some(0);
  }

  /**
   * As written, `changePreference` leaves the first countdown armed. The user rejoins, gets a
   * second countdown, and the first one fires and evicts the user while the second is still
   * pending: a rejoined user can be timed out well before 30 seconds.
   */
  lemma StaleCountdownEvictsRejoin()
    ensures var s1 := ReadyToPair(Initial(), "u", "Male", "Female", "s1");
      var s2 := ChangePreferenceAsWritten(s1, "u", "s1");
      var s3 := ReadyToPair(s2, "u", "Male", "Female", "s1");
      0 in s3.pending && 1 in s3.pending && s3.timers["u"] == 1
      && "u" in Ids(s3.waiting) && "u" !in Ids(FireEvict(s3, 0).waiting)
      && 1 in FireEvict(s3, 0).pending
      && !Valid(s2)
  {
    var s1 := ReadyToPair(Initial(), "u", "Male", "Female", "s1");
    assert s1.waiting == [Human("u", "Male", "Female", "s1")];
    var s2 := ChangePreferenceAsWritten(s1, "u", "s1");
    assert s2.waiting == [];
    var s3 := ReadyToPair(s2, "u", "Male", "Female", "s1");
    assert s3.waiting == [Human("u", "Male", "Female", "s1")];
    assert FireEvict(s3, 0).waiting == [];
    assert "u" in s2.timers && "u" !in Ids(s2.waiting);
  }

  /** With the corrected handler the same sequence leaves only the second countdown to fire. */
  lemma RejoinKeepsFreshCountdown()
    ensures var s1 := ReadyToPair(Initial(), "u", "Male", "Female", "s1");
      var s2 := ChangePreference(s1, "u", "s1");
      var s3 := ReadyToPair(s2, "u", "Male", "Female", "s1");
      s3.pending.Keys == {1} && s3.timers["u"] == 1 && Valid(s3)
  {
    InitialValid();
    ReadyToPairValid(Initial(), "u", "Male", "Female", "s1");
    var s1 := ReadyToPair(Initial(), "u", "Male", "Female", "s1");
    assert s1.waiting == [Human("u", "Male", "Female", "s1")];
    ChangePreferenceValid(s1, "u", "s1");
    var s2 := ChangePreference(s1, "u", "s1");
    assert s2.waiting == [] && s2.pending == map[];
    ReadyToPairValid(s2, "u", "Male", "Female", "s1");
  }
}
