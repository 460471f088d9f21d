/**
 * The waiting queue both matchmaking servers keep: a JavaScript `Map` from a
 * user id to that user's entry. Iteration follows insertion order, `set` on a
 * present key keeps its place, and `delete` followed by `set` moves the key to
 * the end. Every entry is stored under its own `id`, so the map is modelled as
 * a sequence of entries with distinct ids.
 */
module WaitQueue {
  import opened Text

  type Id = String
  type SocketId = String

  /**
   * A waiting entry: a human who sent `readyToPair`, or a virtual entry made by
   * `makeVirtualEntry` (no socket, `interestedIn` fixed to `"Auto"`, `isBot` set).
   */
  datatype WaitEntry =
    | Human(id: Id, gender: String, interestedIn: String, socketId: SocketId)
    | Virtual(id: Id, displayName: String, gender: String, persona: String, city: String, cooldownUntil: int)

  /** `isCompatibleMatch(gender1, interest1, gender2, interest2)`. */
  predicate IsCompatibleMatch(gender1: String, interest1: String, gender2: String, interest2: String)
  {
    if interest1 == "Auto" || interest2 == "Auto" then true
    else interest1 == gender2 && interest2 == gender1
  }

  /** Either side choosing `"Auto"` accepts anyone; otherwise both must want the other's gender. */
  lemma CompatibleRule(gender1: String, interest1: String, gender2: String, interest2: String)
    ensures (interest1 == "Auto" || interest2 == "Auto") ==> IsCompatibleMatch(gender1, interest1, gender2, interest2)
    ensures interest1 != "Auto" && interest2 != "Auto" ==>
      (IsCompatibleMatch(gender1, interest1, gender2, interest2) <==> interest1 == gender2 && interest2 == gender1)
  {
  }

  /** The test does not depend on which of the two users is the newcomer. */
  lemma CompatibleSymmetric(gender1: String, interest1: String, gender2: String, interest2: String)
    ensures IsCompatibleMatch(gender1, interest1, gender2, interest2) == IsCompatibleMatch(gender2, interest2, gender1, interest1)
  {
  }

  /** No key occurs twice. */
  predicate UniqueIds(q: seq<WaitEntry>)
  {
    q == [] || (q[0].id !in Ids(q[1..]) && UniqueIds(q[1..]))
  }

  /** The key set of the map. */
  function Ids(q: seq<WaitEntry>): set<Id>
  {
    if q == [] then {} else {q[0].id} + Ids(q[1..])
  }

  /** The ids of the human entries. */
  function HumanIds(q: seq<WaitEntry>): set<Id>
  {
    if q == [] then {} else (if q[0].Human? then {q[0].id} else {}) + HumanIds(q[1..])
  }

  /** The virtual entries, in insertion order (`Array.from(waitingUsers.entries()).filter(([_, u]) => u.isBot)`). */
  function Bots(q: seq<WaitEntry>): (r: seq<WaitEntry>)
    ensures |r| <= |q|
    ensures forall k :: 0 <= k < |r| ==> r[k].Virtual? && r[k] in q
  {
    if q == [] then [] else (if q[0].Virtual? then [q[0]] else []) + Bots(q[1..])
  }

  /** The position of the entry with key `id`. */
  function IndexOf(q: seq<WaitEntry>, id: Id): (r: Option<nat>)
    ensures r.Some? ==> r.value < |q| && q[r.value].id == id && forall j :: 0 <= j < r.value ==> q[j].id != id
    ensures r.None? <==> id !in Ids(q)
  {
    if q == [] then None
    else if q[0].id == id then Some(0)
    else match IndexOf(q[1..], id)
      case None => None
      case Some(i) => Some(i + 1)
  }

  /** `waitingUsers.has(id) ? waitingUsers.get(id) : undefined`. */
  function Get(q: seq<WaitEntry>, id: Id): (r: Option<WaitEntry>)
    ensures r.Some? <==> id in Ids(q)
    ensures r.Some? ==> r.value in q && r.value.id == id
  {
    match IndexOf(q, id)
    case None => None
    case Some(i) => Some(q[i])
  }

  /** `waitingUsers.delete(id)`. */
  function Remove(q: seq<WaitEntry>, id: Id): (r: seq<WaitEntry>)
    ensures |r| <= |q|
  {
    if q == [] then []
    else if q[0].id == id then q[1..]
    else [q[0]] + Remove(q[1..], id)
  }

  /** `waitingUsers.set(e.id, e)`. */
  function Upsert(q: seq<WaitEntry>, e: WaitEntry): seq<WaitEntry>
  {
    if q == [] then [e]
    else if q[0].id == e.id then [e] + q[1..]
    else [q[0]] + Upsert(q[1..], e)
  }

  /** A waiting entry the newcomer may be paired with: a human compatible with the newcomer. */
  predicate Acceptable(e: WaitEntry, gender: String, interest: String)
  {
    e.Human? && IsCompatibleMatch(gender, interest, e.gender, e.interestedIn)
  }

  /** The first acceptable entry at or after position `k`, in insertion order. */
  function FirstCompatibleFrom(q: seq<WaitEntry>, gender: String, interest: String, k: nat): (r: Option<nat>)
    requires k <= |q|
    decreases |q| - k
    ensures r.Some? ==> k <= r.value < |q| && Acceptable(q[r.value], gender, interest)
    ensures r.Some? ==> forall j :: k <= j < r.value ==> !Acceptable(q[j], gender, interest)
    ensures r.None? ==> forall j :: k <= j < |q| ==> !Acceptable(q[j], gender, interest)
  {
    if k == |q| then None
    else if Acceptable(q[k], gender, interest) then Some(k)
    else FirstCompatibleFrom(q, gender, interest, k + 1)
  }

  /** An entry queued from `socket`. */
  predicate OnSocket(e: WaitEntry, socket: SocketId)
  {
    e.Human? && e.socketId == socket
  }

  function FirstOnSocketFrom(q: seq<WaitEntry>, socket: SocketId, k: nat): (r: Option<nat>)
    requires k <= |q|
    decreases |q| - k
    ensures r.Some? ==> k <= r.value < |q| && OnSocket(q[r.value], socket)
    ensures r.Some? ==> forall j :: k <= j < r.value ==> !OnSocket(q[j], socket)
    ensures r.None? ==> forall j :: k <= j < |q| ==> !OnSocket(q[j], socket)
  {
    if k == |q| then None
    else if OnSocket(q[k], socket) then Some(k)
    else FirstOnSocketFrom(q, socket, k + 1)
  }

  /** The `for (const [id, user] of waitingUsers)` scan of `readyToPair` for a compatible partner. */
  method FindCompatible(q: seq<WaitEntry>, gender: String, interest: String) returns (r: Option<nat>)
    ensures r == FirstCompatibleFrom(q, gender, interest, 0)
    ensures r.Some? ==> r.value < |q| && Acceptable(q[r.value], gender, interest)
  {
    var k := 0;
    while k < |q|
      invariant k <= |q|
      invariant FirstCompatibleFrom(q, gender, interest, k) == FirstCompatibleFrom(q, gender, interest, 0)
    {
      if Acceptable(q[k], gender, interest) {
        return Some(k);
      }
      k := k + 1;
    }
    return None;
  }

  /** The scan of the `disconnect` handler. */
  method FindOnSocket(q: seq<WaitEntry>, socket: SocketId) returns (r: Option<nat>)
    ensures r == FirstOnSocketFrom(q, socket, 0)
  {
    var k := 0;
    while k < |q|
      invariant k <= |q|
      invariant FirstOnSocketFrom(q, socket, k) == FirstOnSocketFrom(q, socket, 0)
    {
      if q[k].Human? && q[k].socketId == socket {
        return Some(k);
      }
      k := k + 1;
    }
    return None;
  }

  lemma IdsMember(q: seq<WaitEntry>, k: nat)
    requires k < |q|
    ensures q[k].id in Ids(q)
    ensures q[k].Human? ==> q[k].id in HumanIds(q)
  {
    if k > 0 {
      IdsMember(q[1..], k - 1);
    }
  }

  lemma HumanIdsInIds(q: seq<WaitEntry>)
    ensures HumanIds(q) <= Ids(q)
  {
  }

  /** Deleting a key removes exactly that key. */
  lemma {:induction false} RemoveIds(q: seq<WaitEntry>, id: Id)
    requires UniqueIds(q)
    ensures Ids(Remove(q, id)) == Ids(q) - {id}
  {
    if q != [] && q[0].id != id {
      RemoveIds(q[1..], id);
    }
  }

  lemma {:induction false} RemoveHumanIds(q: seq<WaitEntry>, id: Id)
    requires UniqueIds(q)
    ensures HumanIds(Remove(q, id)) == HumanIds(q) - {id}
  {
    if q != [] {
      if q[0].id == id {
        HumanIdsInIds(q[1..]);
      } else {
        RemoveHumanIds(q[1..], id);
      }
    }
  }

  lemma {:induction false} RemoveUnique(q: seq<WaitEntry>, id: Id)
    requires UniqueIds(q)
    ensures UniqueIds(Remove(q, id))
  {
    if q != [] && q[0].id != id {
      RemoveUnique(q[1..], id);
      RemoveIds(q[1..], id);
      assert ([q[0]] + Remove(q[1..], id))[1..] == Remove(q[1..], id);
    }
  }

  /** Deleting a present key shortens the map by one; deleting an absent key changes nothing. */
  lemma {:induction false} RemoveSize(q: seq<WaitEntry>, id: Id)
    ensures id in Ids(q) ==> |Remove(q, id)| == |q| - 1
    ensures id !in Ids(q) ==> Remove(q, id) == q
  {
    if q != [] && q[0].id != id {
      RemoveSize(q[1..], id);
    }
  }

  /** The other entries keep their order: the entry at the key's position is cut out. */
  lemma {:induction false} RemoveCutsOut(q: seq<WaitEntry>, id: Id)
    requires IndexOf(q, id).Some?
    ensures Remove(q, id) == q[..IndexOf(q, id).value] + q[IndexOf(q, id).value + 1..]
  {
    if q[0].id == id {
      assert IndexOf(q, id) == Some(0);
    } else {
      var i := IndexOf(q[1..], id).value;
      assert IndexOf(q, id) == Some(i + 1);
      RemoveCutsOut(q[1..], id);
      assert Remove(q, id) == [q[0]] + Remove(q[1..], id);
      CutStep(q[0], q[1..], i, Remove(q[1..], id));
      assert [q[0]] + q[1..] == q;
    }
  }

  /** Cutting out position `i` of `t` and then putting `x` in front cuts out position `i + 1` of `[x] + t`. */
  lemma CutStep(x: WaitEntry, t: seq<WaitEntry>, i: nat, r: seq<WaitEntry>)
    requires i < |t| && r == t[..i] + t[i + 1..]
    ensures [x] + r == ([x] + t)[..i + 1] + ([x] + t)[i + 2..]
  {
    assert ([x] + t)[..i + 1] == [x] + t[..i];
    assert ([x] + t)[i + 2..] == t[i + 1..];
  }

  lemma {:induction false} BotsAfterRemove(q: seq<WaitEntry>, id: Id)
    requires UniqueIds(q)
    ensures Bots(Remove(q, id)) == Remove(Bots(q), id)
  {
    if q != [] {
      var head: seq<WaitEntry> := if q[0].Virtual? then [q[0]] else [];
      assert Bots(q) == head + Bots(q[1..]);
      if q[0].id == id {
        BotIds(q[1..]);
        RemoveSize(Bots(q[1..]), id);
        if q[0].Virtual? {
          assert Bots(q)[0].id == id;
          assert Bots(q)[1..] == Bots(q[1..]);
        } else {
          assert Bots(q) == Bots(q[1..]);
        }
      } else {
        BotsAfterRemove(q[1..], id);
        var r := Remove(q, id);
        assert r == [q[0]] + Remove(q[1..], id);
        assert r[0] == q[0] && r[1..] == Remove(q[1..], id);
        assert Bots(r) == head + Remove(Bots(q[1..]), id);
        if q[0].Virtual? {
          assert Bots(q)[0] == q[0] && Bots(q)[1..] == Bots(q[1..]);
          assert Remove(Bots(q), id) == head + Remove(Bots(q[1..]), id);
        } else {
          assert Bots(q) == Bots(q[1..]);
        }
      }
    }
  }

  lemma {:induction false} BotIds(q: seq<WaitEntry>)
    ensures Ids(Bots(q)) <= Ids(q)
  {
    if q != [] {
      BotIds(q[1..]);
      var head: seq<WaitEntry> := if q[0].Virtual? then [q[0]] else [];
      IdsOfAppend(head, Bots(q[1..]));
    }
  }

  /** Setting a key keeps the keys distinct and adds that key. */
  lemma {:induction false} UpsertIds(q: seq<WaitEntry>, e: WaitEntry)
    ensures Ids(Upsert(q, e)) == Ids(q) + {e.id}
  {
    if q != [] && q[0].id != e.id {
      UpsertIds(q[1..], e);
    }
  }

  lemma {:induction false} UpsertUnique(q: seq<WaitEntry>, e: WaitEntry)
    requires UniqueIds(q)
    ensures UniqueIds(Upsert(q, e))
  {
    if q != [] {
      if q[0].id == e.id {
        assert ([e] + q[1..])[1..] == q[1..];
      } else {
        UpsertUnique(q[1..], e);
        UpsertIds(q[1..], e);
        assert ([q[0]] + Upsert(q[1..], e))[1..] == Upsert(q[1..], e);
      }
    }
  }

  /** A virtual entry set under a key leaves no human under that key. */
  lemma {:induction false} UpsertVirtualHumanIds(q: seq<WaitEntry>, e: WaitEntry)
    requires UniqueIds(q) && e.Virtual?
    ensures HumanIds(Upsert(q, e)) == HumanIds(q) - {e.id}
  {
    if q != [] {
      if q[0].id == e.id {
        HumanIdsInIds(q[1..]);
        assert ([e] + q[1..])[1..] == q[1..];
      } else {
        UpsertVirtualHumanIds(q[1..], e);
        assert ([q[0]] + Upsert(q[1..], e))[1..] == Upsert(q[1..], e);
      }
    }
  }

  /** `set` on an absent key appends; on a present key it overwrites in place. */
  lemma {:induction false} UpsertPlace(q: seq<WaitEntry>, e: WaitEntry)
    ensures e.id !in Ids(q) ==> Upsert(q, e) == q + [e]
    ensures IndexOf(q, e.id).Some? ==> Upsert(q, e) == q[IndexOf(q, e.id).value := e]
  {
    if q != [] && q[0].id != e.id {
      UpsertPlace(q[1..], e);
      if IndexOf(q, e.id).Some? {
        var i := IndexOf(q[1..], e.id).value;
        assert [q[0]] + q[1..][i := e] == q[i + 1 := e];
      }
    }
  }

  /** `delete` then `set` of the same key moves that key to the end. */
  lemma DeleteThenSetMovesToEnd(q: seq<WaitEntry>, e: WaitEntry)
    requires UniqueIds(q)
    ensures Upsert(Remove(q, e.id), e) == Remove(q, e.id) + [e]
  {
    RemoveIds(q, e.id);
    UpsertPlace(Remove(q, e.id), e);
  }

  lemma {:induction false} BotsOfAppend(a: seq<WaitEntry>, b: seq<WaitEntry>)
    ensures Bots(a + b) == Bots(a) + Bots(b)
  {
    if a == [] {
      assert a + b == b;
    } else {
      BotsOfAppend(a[1..], b);
      assert (a + b)[0] == a[0];
      assert (a + b)[1..] == a[1..] + b;
      var head: seq<WaitEntry> := if a[0].Virtual? then [a[0]] else [];
      calc {
        Bots(a + b);
        head + Bots(a[1..] + b);
        head + (Bots(a[1..]) + Bots(b));
        (head + Bots(a[1..])) + Bots(b);
        Bots(a) + Bots(b);
      }
    }
  }

  lemma {:induction false} IdsOfAppend(a: seq<WaitEntry>, b: seq<WaitEntry>)
    ensures HumanIds(a + b) == HumanIds(a) + HumanIds(b)
    ensures Ids(a + b) == Ids(a) + Ids(b)
  {
    if a == [] {
      assert a + b == b;
    } else {
      IdsOfAppend(a[1..], b);
      assert (a + b)[0] == a[0];
      assert (a + b)[1..] == a[1..] + b;
    }
  }

  /** With distinct keys, deleting the key of the entry at `idx` cuts out exactly that entry. */
  lemma {:induction false} RemoveAt(q: seq<WaitEntry>, idx: nat)
    requires UniqueIds(q) && idx < |q|
    ensures Remove(q, q[idx].id) == q[..idx] + q[idx + 1..]
  {
    if idx > 0 {
      IdsMember(q[1..], idx - 1);
      RemoveAt(q[1..], idx - 1);
      assert q[..idx] == [q[0]] + q[1..][..idx - 1];
      assert q[idx + 1..] == q[1..][idx..];
    }
  }

  /** The virtual entries of a map with distinct keys have distinct keys. */
  lemma {:induction false} BotsUnique(q: seq<WaitEntry>)
    requires UniqueIds(q)
    ensures UniqueIds(Bots(q))
  {
    if q != [] {
      BotsUnique(q[1..]);
      if q[0].Virtual? {
        BotIds(q[1..]);
        assert ([q[0]] + Bots(q[1..]))[1..] == Bots(q[1..]);
      } else {
        assert Bots(q) == Bots(q[1..]);
      }
    }
  }

  /** Every entry after `set` is the new entry or one that was there before. */
  lemma {:induction false} UpsertElements(q: seq<WaitEntry>, e: WaitEntry)
    ensures forall x :: x in Upsert(q, e) ==> x in q || x == e
  {
    if q != [] && q[0].id != e.id {
      UpsertElements(q[1..], e);
    }
  }

  /** `set` adds at most one entry, and one virtual entry at most one more virtual entry. */
  lemma {:induction false} UpsertCounts(q: seq<WaitEntry>, e: WaitEntry)
    requires e.Virtual?
    ensures |q| <= |Upsert(q, e)| <= |q| + 1
    ensures |Bots(q)| <= |Bots(Upsert(q, e))| <= |Bots(q)| + 1
  {
    if q != [] {
      var head: seq<WaitEntry> := if q[0].Virtual? then [q[0]] else [];
      assert Bots(q) == head + Bots(q[1..]);
      if q[0].id == e.id {
        assert ([e] + q[1..])[0] == e;
        assert ([e] + q[1..])[1..] == q[1..];
      } else {
        UpsertCounts(q[1..], e);
        assert ([q[0]] + Upsert(q[1..], e))[0] == q[0];
        assert ([q[0]] + Upsert(q[1..], e))[1..] == Upsert(q[1..], e);
      }
    }
  }

  /** Every entry after `delete` was there before. */
  lemma {:induction false} RemoveElements(q: seq<WaitEntry>, id: Id)
    ensures forall x :: x in Remove(q, id) ==> x in q
  {
    if q != [] && q[0].id != id {
      RemoveElements(q[1..], id);
    }
  }
}
