/**
 * The fallback collection of `botModule_chroma.js` (`createFallbackCollection`), used when no
 * Chroma server is reachable. Its `items` is a JavaScript `Map`, so it is modelled as a list of
 * id/item pairs with distinct ids in insertion order: `set` on a new id appends, `set` on an id
 * already present replaces the item where it stands.
 */
module ChromaFallback {
  import opened Text

  /** A stored item; `documents[index]` is `undefined` when `documents` is shorter than `ids`. */
  datatype Item = Item(document: Option<String>)

  type Items = seq<(String, Item)>

  function Ids(items: Items): (r: seq<String>)
    ensures |r| == |items| && forall k :: 0 <= k < |items| ==> r[k] == items[k].0
  {
    seq(|items|, k requires 0 <= k < |items| => items[k].0)
  }

  /** No id occurs twice. */
  predicate Distinct(items: Items)
  {
    forall i, j :: 0 <= i < j < |items| ==> items[i].0 != items[j].0
  }

  /** `items.get(id)`. */
  function Get(items: Items, id: String): Option<Item>
    decreases |items|
  {
    if items == [] then None
    else if items[0].0 == id then Some(items[0].1)
    else Get(items[1..], id)
  }

  /** `items.set(id, item)`. */
  function Set(items: Items, id: String, item: Item): Items
    decreases |items|
  {
    if items == [] then [(id, item)]
    else if items[0].0 == id then [(id, item)] + items[1..]
    else [items[0]] + Set(items[1..], id, item)
  }

  /** `data.documents[index]`. */
  function DocumentAt(documents: seq<String>, index: nat): Option<String>
  {
    if index < |documents| then Some(documents[index]) else None
  }

  /** `add(data)` after its first `n` ids. */
  function AddPrefix(items: Items, ids: seq<String>, documents: seq<String>, n: nat): Items
    requires n <= |ids|
  {
    if n == 0 then items
    else Set(AddPrefix(items, ids, documents, n - 1), ids[n - 1], Item(DocumentAt(documents, n - 1)))
  }

  /** `add({ids, documents})`. */
  function Add(items: Items, ids: seq<String>, documents: seq<String>): Items
  {
    AddPrefix(items, ids, documents, |ids|)
  }

  /** `query({nResults: n})`: the documents of the first `n` items. */
  function Query(items: Items, n: nat): (r: seq<Option<String>>)
    ensures |r| == if n <= |items| then n else |items|
    ensures forall k :: 0 <= k < |r| ==> r[k] == items[k].1.document
  {
    var m := if n <= |items| then n else |items|;
    seq(m, k requires 0 <= k < m => items[k].1.document)
  }

  /**
   * After `set`, `id` holds the new item and every other id keeps its own; an id already
   * present keeps its place and the list its length, and a new id goes at the end.
   */
  lemma SetGet(items: Items, id: String, item: Item)
    requires Distinct(items)
    ensures var r := Set(items, id, item);
      Distinct(r) && Get(r, id) == Some(item)
      && (forall other :: other != id ==> Get(r, other) == Get(items, other))
      && (Get(items, id).Some? ==> |r| == |items| && Ids(r) == Ids(items))
      && (Get(items, id).None? ==> r == items + [(id, item)])
  {
    SetGetSame(items, id, item);
    forall other | other != id
      ensures Get(Set(items, id, item), other) == Get(items, other)
    {
      SetGetOther(items, id, item, other);
    }
    if Get(items, id).Some? {
      SetKeepsIds(items, id, item);
    } else {
      SetAppends(items, id, item);
    }
    SetDistinct(items, id, item);
  }

  /** After `set`, `id` holds the new item. */
  lemma {:induction false} SetGetSame(items: Items, id: String, item: Item)
    ensures Get(Set(items, id, item), id) == Some(item)
    decreases |items|
  {
    if items != [] && items[0].0 != id {
      SetGetSame(items[1..], id, item);
      assert Set(items, id, item) == [items[0]] + Set(items[1..], id, item);
      assert ([items[0]] + Set(items[1..], id, item))[1..] == Set(items[1..], id, item);
    }
  }

  /** After `set`, every other id keeps its item. */
  lemma {:induction false} SetGetOther(items: Items, id: String, item: Item, other: String)
    requires other != id
    ensures Get(Set(items, id, item), other) == Get(items, other)
    decreases |items|
  {
    if items != [] {
      var r := Set(items, id, item);
      if items[0].0 == id {
        assert r[1..] == items[1..];
      } else if items[0].0 != other {
        SetGetOther(items[1..], id, item, other);
        assert r[1..] == Set(items[1..], id, item);
      }
    }
  }

  /** `Ids` of a list with one more item in front. */
  lemma IdsCons(x: (String, Item), xs: Items)
    ensures Ids([x] + xs) == [x.0] + Ids(xs)
  {
  }

  /** `set` on an id already present keeps the ids where they stand. */
  lemma {:induction false} SetKeepsIds(items: Items, id: String, item: Item)
    requires Get(items, id).Some?
    ensures Ids(Set(items, id, item)) == Ids(items)
    decreases |items|
  {
    var rest := items[1..];
    assert items == [items[0]] + rest;
    if items[0].0 == id {
      IdsCons((id, item), rest);
      IdsCons(items[0], rest);
    } else {
      SetKeepsIds(rest, id, item);
      IdsCons(items[0], Set(rest, id, item));
      IdsCons(items[0], rest);
    }
  }

  /** `set` on a new id appends it. */
  lemma {:induction false} SetAppends(items: Items, id: String, item: Item)
    requires Get(items, id).None?
    ensures Set(items, id, item) == items + [(id, item)]
    decreases |items|
  {
    if items != [] {
      SetAppends(items[1..], id, item);
      assert [items[0]] + (items[1..] + [(id, item)]) == items + [(id, item)];
    }
  }

  /** `set` keeps the ids distinct. */
  lemma SetDistinct(items: Items, id: String, item: Item)
    requires Distinct(items)
    ensures Distinct(Set(items, id, item))
  {
    var r := Set(items, id, item);
    if Get(items, id).Some? {
      SetKeepsIds(items, id, item);
      forall i, j | 0 <= i < j < |r| ensures r[i].0 != r[j].0 {
        assert Ids(r)[i] == Ids(items)[i] && Ids(r)[j] == Ids(items)[j];
      }
    } else {
      SetAppends(items, id, item);
      GetSomeIn(items, id);
      forall i, j | 0 <= i < j < |r| ensures r[i].0 != r[j].0 {
        if j < |items| {
          assert r[i] == items[i] && r[j] == items[j];
        } else {
          assert r[i] == items[i] && r[j] == (id, item);
        }
      }
    }
  }

  /** An id that no item has is absent. */
  lemma {:induction false} GetAbsent(items: Items, id: String)
    requires forall k :: 0 <= k < |items| ==> items[k].0 != id
    ensures Get(items, id).None?
    decreases |items|
  {
    if items != [] {
      GetAbsent(items[1..], id);
    }
  }

  /** An absent id is no item's id. */
  lemma {:induction false} GetSomeIn(items: Items, id: String)
    requires Get(items, id).None?
    ensures forall k :: 0 <= k < |items| ==> items[k].0 != id
    decreases |items|
  {
    if items != [] {
      GetSomeIn(items[1..], id);
      forall k | 0 <= k < |items| ensures items[k].0 != id {
        if k > 0 { assert items[k] == items[1..][k - 1]; }
      }
    }
  }

  /** Re-adding an id overwrites its document in place; the number of items does not change. */
  lemma AddOverwrites(items: Items, id: String, document: String)
    requires Distinct(items) && Get(items, id).Some?
    ensures var r := Add(items, [id], [document]);
      Get(r, id) == Some(Item(Some(document))) && |r| == |items| && Ids(r) == Ids(items)
  {
    assert AddPrefix(items, [id], [document], 0) == items;
    assert DocumentAt([document], 0) == Some(document);
    assert Add(items, [id], [document]) == Set(items, id, Item(Some(document)));
    SetGet(items, id, Item(Some(document)));
  }

  /** `add` keeps the ids distinct. */
  lemma {:induction false} AddDistinct(items: Items, ids: seq<String>, documents: seq<String>, n: nat)
    requires Distinct(items) && n <= |ids|
    ensures Distinct(AddPrefix(items, ids, documents, n))
  {
    if n > 0 {
      AddDistinct(items, ids, documents, n - 1);
      SetDistinct(AddPrefix(items, ids, documents, n - 1), ids[n - 1], Item(DocumentAt(documents, n - 1)));
    }
  }

  /** The id at index `i`, when it does not occur again before `n`, holds the document at `i`. */
  lemma {:induction false} AddGetLast(items: Items, ids: seq<String>, documents: seq<String>, n: nat, i: nat)
    requires i < n <= |ids|
    requires forall j :: i < j < n ==> ids[j] != ids[i]
    ensures Get(AddPrefix(items, ids, documents, n), ids[i]) == Some(Item(DocumentAt(documents, i)))
  {
    var prev := AddPrefix(items, ids, documents, n - 1);
    if i == n - 1 {
      SetGetSame(prev, ids[i], Item(DocumentAt(documents, i)));
    } else {
      AddGetLast(items, ids, documents, n - 1, i);
      SetGetOther(prev, ids[n - 1], Item(DocumentAt(documents, n - 1)), ids[i]);
    }
  }

  /** An id not among the first `n` ids keeps its item. */
  lemma {:induction false} AddGetUntouched(items: Items, ids: seq<String>, documents: seq<String>, n: nat, id: String)
    requires n <= |ids| && forall i :: 0 <= i < n ==> ids[i] != id
    ensures Get(AddPrefix(items, ids, documents, n), id) == Get(items, id)
  {
    if n > 0 {
      AddGetUntouched(items, ids, documents, n - 1, id);
      SetGetOther(AddPrefix(items, ids, documents, n - 1), ids[n - 1], Item(DocumentAt(documents, n - 1)), id);
    }
  }
}

/** The fallback collection as an object over its `items` map. */
module ChromaFallbackStore {
  import opened Text
  import opened ChromaFallback

  class FallbackCollection {
    var items: Items

    constructor ()
      ensures items == [] && Distinct(items)
    {
      items := [];
    }

    /** `add({ids, documents})`: `items.set` for each id in turn. */
    method Add(ids: seq<String>, documents: seq<String>)
      requires Distinct(items)
      modifies this
      ensures items == ChromaFallback.Add(old(items), ids, documents) && Distinct(items)
    {
      var index := 0;
      while index < |ids|
        invariant index <= |ids|
        invariant items == AddPrefix(old(items), ids, documents, index)
        invariant Distinct(items)
      {
        SetGet(items, ids[index], Item(DocumentAt(documents, index)));
        items := Set(items, ids[index], Item(DocumentAt(documents, index)));
        index := index + 1;
      }
    }

    /** `query({nResults: n})`: the result's `documents[0]`. */
    method Query(n: nat) returns (docs: seq<Option<String>>)
      ensures docs == ChromaFallback.Query(items, n)
    {
      var all := items;
      var m := if n <= |all| then n else |all|;
      docs := seq(m, k requires 0 <= k < m => all[k].1.document);
    }
  }
}
