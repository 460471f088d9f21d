/**
 * The single-slot pairing server of `src/index.js`. A second `readyToPair` always pairs with the
 * user in the slot, whatever the ids and interests, and every pairing appends the newcomer's raw
 * payload to `dataValues`.
 */
module SrcIndexSlot {
  import opened Text

  type SocketId = String

  /** `waitingUser` (a socket) with `waitinUserData` (its raw payload), always assigned together. */
  datatype Waiter = Waiter(socket: SocketId, data: String)

  datatype Event =
    | Pair(to: SocketId, data: String)
    | Waiting(to: SocketId, message: String)

  datatype State = State(slot: Option<Waiter>, dataValues: seq<String>, out: seq<Event>)

  function Initial(): State
  {
    State(None, [], [])
  }

  /** The `readyToPair` handler for the raw payload `data` from `socket`. */
  function ReadyToPair(s: State, socket: SocketId, data: String): State
  {
    match s.slot
    case Some(w) => State(None, s.dataValues + [data], s.out + [Pair(socket, w.data), Pair(w.socket, data)])
    case None => s.(slot := Some(Waiter(socket, data)), out := s.out + [Waiting(socket, "Waiting for another user to join...")])
  }

  /** A `readyToPair` from `socket` with payload `data`. */
  datatype Request = Request(socket: SocketId, data: String)

  /** The state after the requests `rs`, in order. */
  function Run(s: State, rs: seq<Request>): State
    decreases |rs|
  {
    if rs == [] then s else Run(ReadyToPair(s, rs[0].socket, rs[0].data), rs[1..])
  }

  /** How many users wait in the slot: 0 or 1. */
  function Occupancy(s: State): nat
  {
    if s.slot.Some? then 1 else 0
  }

  /** A full slot pairs: both sockets get the other's payload, the slot empties and `dataValues` gains the newcomer's payload. */
  lemma FullSlotPairs(s: State, socket: SocketId, data: String)
    requires s.slot.Some?
    ensures var r := ReadyToPair(s, socket, data);
      r.slot.None? && r.dataValues == s.dataValues + [data]
      && r.out == s.out + [Pair(socket, s.slot.value.data), Pair(s.slot.value.socket, data)]
  {
  }

  /** An empty slot takes the newcomer and leaves `dataValues` alone. */
  lemma EmptySlotStores(s: State, socket: SocketId, data: String)
    requires s.slot.None?
    ensures var r := ReadyToPair(s, socket, data);
      r.slot == Some(Waiter(socket, data)) && r.dataValues == s.dataValues
      && r.out == s.out + [Waiting(socket, "Waiting for another user to join...")]
  {
  }

  /**
   * After `n` requests the slot holds a user exactly when the users so far (the one waiting at
   * the start, if any, plus `n`) are odd in number, each completed pair added one payload to
   * `dataValues`, and `dataValues` only grew at its end.
   */
  lemma {:induction false} RunCounts(s: State, rs: seq<Request>)
    ensures var r := Run(s, rs);
      Occupancy(r) == (Occupancy(s) + |rs|) % 2
      && |r.dataValues| == |s.dataValues| + (Occupancy(s) + |rs|) / 2
      && s.dataValues <= r.dataValues
    decreases |rs|
  {
    if rs != [] {
      RunCounts(ReadyToPair(s, rs[0].socket, rs[0].data), rs[1..]);
    }
  }

  /** From an empty slot, any two requests leave the slot empty again with one more payload recorded. */
  lemma TwoRequestsPair(s: State, a: Request, b: Request)
    requires s.slot.None?
    ensures Run(s, [a, b]).slot.None? && Run(s, [a, b]).dataValues == s.dataValues + [b.data]
  {
    var s1 := ReadyToPair(s, a.socket, a.data);
    var s2 := ReadyToPair(s1, b.socket, b.data);
    assert [a, b][1..] == [b];
    assert Run(s, [a, b]) == Run(s1, [b]);
    assert Run(s1, [b]) == Run(s2, []);
  }
}

/** The `src/index.js` server with its module-level variables as fields. */
module SrcIndexSlotServer {
  import opened Text
  import opened SrcIndexSlot

  class Server {
    var waiting: Option<Waiter>
    var dataValues: seq<String>
    var out: seq<Event>

    function Model(): State
      reads this
    {
      State(waiting, dataValues, out)
    }

    constructor ()
      ensures Model() == Initial()
    {
      waiting := None;
      dataValues := [];
      out := [];
    }

    method ReadyToPair(socket: SocketId, data: String)
      modifies this
      ensures Model() == SrcIndexSlot.ReadyToPair(old(Model()), socket, data)
    {
      if waiting.Some? {
        dataValues := dataValues + [data];
        out := out + [Pair(socket, waiting.value.data), Pair(waiting.value.socket, data)];
        waiting := None;
      } else {
        waiting := Some(Waiter(socket, data));
        out := out + [Waiting(socket, "Waiting for another user to join...")];
      }
    }
  }
}
