/** The `app.js` server updating its two maps in place, with the corrected handlers. */
module AppServer {
  import opened Text
  import opened WaitQueue
  import opened App

  class Server {
    var waiting: seq<WaitEntry>
    var timers: map<Id, Token>
    var pending: map<Token, Task>
    var nextToken: Token
    var out: seq<Event>

    function Model(): State
      reads this
    {
      State(waiting, timers, pending, nextToken, out)
    }

    constructor ()
      ensures Model() == Initial()
    {
      waiting := [];
      timers := map[];
      pending := map[];
      nextToken := 0;
      out := [];
    }

    /** `clearTimeout(timers.get(id))` and `timers.delete(id)`. */
    method DropTimer(id: Id)
      modifies this
      ensures Model() == App.DropTimer(old(Model()), id)
    {
      if id in timers {
        pending := pending - {timers[id]};
        timers := timers - {id};
      }
    }

    method ReadyToPair(id: Id, gender: String, interest: String, socket: SocketId)
      modifies this
      ensures Model() == App.ReadyToPair(old(Model()), id, gender, interest, socket)
      ensures Valid(old(Model())) ==> Valid(Model())
    {
      if Valid(Model()) {
        App.ReadyToPairValid(Model(), id, gender, interest, socket);
      }
      if id in Ids(waiting) {
        out := out + [Waiting(socket, true)];
        return;
      }
      var m := FindCompatible(waiting, gender, interest);
      match m
      case Some(i) =>
        var w := waiting[i];
        out := out + [Paired(w.socketId, id, gender), Paired(socket, w.id, w.gender)];
        DropTimer(w.id);
        waiting := Remove(waiting, w.id);
      case None =>
        waiting := Upsert(waiting, Human(id, gender, interest, socket));
        out := out + [Waiting(socket, false)];
        pending := pending[nextToken := Evict(id, socket)];
        timers := timers[id := nextToken];
        nextToken := nextToken + 1;
    }

    method FireEvict(tok: Token)
      requires tok in pending
      modifies this
      ensures Model() == App.FireEvict(old(Model()), tok)
      ensures Valid(old(Model())) ==> Valid(Model())
    {
      if Valid(Model()) {
        FireEvictValid(Model(), tok);
      }
      var t := pending[tok];
      pending := pending - {tok};
      if t.user in Ids(waiting) {
        waiting := Remove(waiting, t.user);
        timers := timers - {t.user};
        out := out + [TimedOut(t.socket)];
      }
    }

    method ChangePreference(id: Id, socket: SocketId)
      modifies this
      ensures Model() == App.ChangePreference(old(Model()), id, socket)
      ensures Valid(old(Model())) ==> Valid(Model())
    {
      if Valid(Model()) {
        ChangePreferenceValid(Model(), id, socket);
      }
      if id in Ids(waiting) {
        waiting := Remove(waiting, id);
        DropTimer(id);
      }
      out := out + [PreferenceUpdated(socket)];
    }

    method Disconnect(socket: SocketId)
      modifies this
      ensures Model() == App.Disconnect(old(Model()), socket)
      ensures Valid(old(Model())) ==> Valid(Model())
    {
      if Valid(Model()) {
        DisconnectValid(Model(), socket);
      }
      var m := FindOnSocket(waiting, socket);
      if m.Some? {
        var id := waiting[m.value].id;
        waiting := Remove(waiting, id);
        DropTimer(id);
      }
    }
  }
}
