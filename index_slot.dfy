/**
 * The single-slot pairing server of `index.js`. One waiting user is kept in `waitingUser` and
 * `waitinUserData`, which are always assigned together and are modelled as one optional
 * `Waiter`; the global `interestedIn` remembers the interest of the user who took the slot.
 * Compatibility compares that interest with the newcomer's interest only: the handler reads
 * the newcomer's `interestedIn` into a variable called `gender`.
 */
module IndexSlot {
  import opened Text

  type SocketId = String

  /** A `readyToPair` payload: its raw text and the `id` and `interestedIn` fields it parses to. */
  datatype Payload = Payload(raw: String, id: String, interestedIn: String)

  /** `waitingUser` (a socket) with `waitinUserData` (its payload). */
  datatype Waiter = Waiter(socket: SocketId, data: Payload)

  datatype Event =
    | Pair(to: SocketId, data: String)
    | Waiting(to: SocketId, message: String)

  datatype State = State(slot: Option<Waiter>, interestedIn: String, out: seq<Event>)

  function Initial(): State
  {
    State(None, "auto", [])
  }

  /** The `listen` callback: the slot is emptied and `interestedIn` reset. */
  function Listen(s: State): State
  {
    s.(slot := None, interestedIn := "auto")
  }

  /** Whether the waiting user's stored interest lets a newcomer with interest `gender` in. */
  predicate Accepts(stored: String, gender: String)
  {
    stored == "auto" || stored == gender
  }

  /** The `readyToPair` handler for payload `p` from `socket`. */
  function ReadyToPair(s: State, socket: SocketId, p: Payload): State
  {
    match s.slot
    case None =>
      State(Some(Waiter(socket, p)), p.interestedIn, s.out + [Waiting(socket, "Waiting for another user to join...")])
    case Some(w) =>
      var gender := p.interestedIn;
      if w.data.id != p.id then
        if Accepts(s.interestedIn, gender) then
          State(None, "auto", s.out + [Pair(socket, w.data.raw), Pair(w.socket, p.raw)])
        else s.(out := s.out + [Waiting(socket, "Waiting for another " + gender + " user to join...")])
      else s.(out := s.out + [Waiting(w.socket, "Waiting for " + gender + " user to join...")])
  }

  /** `interestedIn` is `"auto"` while the slot is empty and the waiting user's interest while it is full. */
  predicate Valid(s: State)
  {
    s.interestedIn == (match s.slot case None => "auto" case Some(w) => w.data.interestedIn)
  }

  lemma InitialValid()
    ensures Valid(Initial())
  {
  }

  lemma ReadyToPairValid(s: State, socket: SocketId, p: Payload)
    requires Valid(s)
    ensures Valid(ReadyToPair(s, socket, p))
  {
  }

  lemma ListenValid(s: State)
    ensures Valid(Listen(s))
  {
  }

  /** An empty slot takes the newcomer, remembers its interest and tells it to wait. */
  lemma EmptySlotStores(s: State, socket: SocketId, p: Payload)
    requires s.slot.None?
    ensures var r := ReadyToPair(s, socket, p);
      r.slot == Some(Waiter(socket, p)) && r.interestedIn == p.interestedIn
      && r.out == s.out + [Waiting(socket, "Waiting for another user to join...")]
  {
  }

  /**
   * A newcomer with another id is paired exactly when the stored interest is `"auto"` or the
   * newcomer's interest: both sockets get the other's payload, the slot empties and the
   * interest resets. Otherwise the newcomer is told to wait and nothing is stored.
   */
  lemma OccupiedSlot(s: State, socket: SocketId, p: Payload)
    requires s.slot.Some? && s.slot.value.data.id != p.id
    ensures var r := ReadyToPair(s, socket, p); var w := s.slot.value;
      (r.slot.None? <==> Accepts(s.interestedIn, p.interestedIn))
      && (Accepts(s.interestedIn, p.interestedIn) ==>
            r.interestedIn == "auto" && r.out == s.out + [Pair(socket, w.data.raw), Pair(w.socket, p.raw)])
      && (!Accepts(s.interestedIn, p.interestedIn) ==>
            r.slot == s.slot && r.interestedIn == s.interestedIn
            && r.out == s.out + [Waiting(socket, "Waiting for another " + p.interestedIn + " user to join...")])
  {
  }

  /** The same id again leaves the slot as it is and tells the waiting socket to wait. */
  lemma SameIdWaits(s: State, socket: SocketId, p: Payload)
    requires s.slot.Some? && s.slot.value.data.id == p.id
    ensures var r := ReadyToPair(s, socket, p);
      r.slot == s.slot && r.interestedIn == s.interestedIn
      && r.out == s.out + [Waiting(s.slot.value.socket, "Waiting for " + p.interestedIn + " user to join...")]
  {
  }

  /** A `readyToPair` empties the slot only by pairing the waiting user. */
  lemma SlotEmptiedOnlyByPairing(s: State, socket: SocketId, p: Payload)
    requires s.slot.Some? && ReadyToPair(s, socket, p).slot.None?
    ensures ReadyToPair(s, socket, p).out == s.out + [Pair(socket, s.slot.value.data.raw), Pair(s.slot.value.socket, p.raw)]
  {
  }

  /** Compatibility never looks at a gender: two users wanting the same thing pair up. */
  lemma SameInterestPairs(socket1: SocketId, socket2: SocketId, p1: Payload, p2: Payload)
    requires p1.id != p2.id && p1.interestedIn == p2.interestedIn
    ensures ReadyToPair(ReadyToPair(Initial(), socket1, p1), socket2, p2).slot.None?
  {
  }
}

/** The `index.js` server with its module-level variables as fields. */
module IndexSlotServer {
  import opened Text
  import opened IndexSlot

  class Server {
    var waiting: Option<Waiter>   // waitingUser with waitinUserData
    var interestedIn: String
    var out: seq<Event>

    function Model(): State
      reads this
    {
      State(waiting, interestedIn, out)
    }

    constructor ()
      ensures Model() == Initial()
    {
      waiting := None;
      interestedIn := "auto";
      out := [];
    }

    method Listen()
      modifies this
      ensures Model() == IndexSlot.Listen(old(Model()))
    {
      waiting := None;
      interestedIn := "auto";
    }

    method ReadyToPair(socket: SocketId, p: Payload)
      modifies this
      ensures Model() == IndexSlot.ReadyToPair(old(Model()), socket, p)
      ensures Valid(old(Model())) ==> Valid(Model())
    {
      if waiting.Some? {
        var gender := p.interestedIn;
        var w := waiting.value;
        if w.data.id != p.id {
          if interestedIn == "auto" {
            out := out + [Pair(socket, w.data.raw), Pair(w.socket, p.raw)];
            waiting := None;
            interestedIn := "auto";
          } else if interestedIn == gender {
            out := out + [Pair(socket, w.data.raw), Pair(w.socket, p.raw)];
            waiting := None;
            interestedIn := "auto";
          } else {
            out := out + [Waiting(socket, "Waiting for another " + gender + " user to join...")];
          }
        } else {
          out := out + [Waiting(w.socket, "Waiting for " + gender + " user to join...")];
        }
      } else {
        interestedIn := p.interestedIn;
        waiting := Some(Waiter(socket, p));
        out := out + [Waiting(socket, "Waiting for another user to join...")];
      }
    }
  }
}
