/** The client-side history store: an ordered list of past identifications,
    newest first, with add (prepend a stamped copy), remove (drop every item
    with a given id) and clear.  The store object owns the list and each
    operation replaces it; the new list is computed by the functions below.
    The two clock readings that stamp an item are parameters. */
module History {
  import opened Identification

  /** What the caller hands to add: a result and the image it came from
      (a history item without `id` and `timestamp`). */
  datatype Entry = Entry(result: IdentifyOutput, imageUrl: string)

  /** A stored item: the caller's fields plus the id and the display
      timestamp the store assigns. */
  datatype HistoryItem = HistoryItem(result: IdentifyOutput, imageUrl: string, id: string, timestamp: string)

  /** `{ ...item, id, timestamp }` */
  function Stamp(e: Entry, id: string, timestamp: string): (item: HistoryItem)
    ensures Unstamp(item) == e && item.id == id && item.timestamp == timestamp
  {
    HistoryItem(e.result, e.imageUrl, id, timestamp)
  }

  /** The caller-supplied part of an item. */
  function Unstamp(item: HistoryItem): Entry
  {
    Entry(item.result, item.imageUrl)
  }

  /** Stamping keeps every field the caller supplied and sets only `id` and
      `timestamp`; an item is its entry stamped with its own id and timestamp. */
  lemma StampKeepsEntry(e: Entry, id: string, timestamp: string, item: HistoryItem)
    ensures Unstamp(Stamp(e, id, timestamp)) == e
    ensures Stamp(Unstamp(item), item.id, item.timestamp) == item
  {
  }

  /** The history after add: the stamped entry in front of the old history. */
  function Added(h: seq<HistoryItem>, e: Entry, isoNow: string, localeNow: string): (r: seq<HistoryItem>)
    ensures |r| == |h| + 1
    ensures Unstamp(r[0]) == e && r[0].id == isoNow && r[0].timestamp == localeNow
    ensures r[1..] == h
  {
    [Stamp(e, isoNow, localeNow)] + h
  }

  /** `history.filter((item) => item.id !== id)` */
  function WithoutId(h: seq<HistoryItem>, id: string): (r: seq<HistoryItem>)
    ensures |r| <= |h|
    ensures forall x :: x in r <==> x in h && x.id != id
    ensures (forall k :: 0 <= k < |h| ==> h[k].id != id) ==> r == h
  {
    if h == [] then []
    else if h[0].id != id then [h[0]] + WithoutId(h[1..], id)
    else WithoutId(h[1..], id)
  }

  /** The ids in the history, in order. */
  function Ids(h: seq<HistoryItem>): (ids: seq<string>)
    ensures |ids| == |h| && forall k :: 0 <= k < |h| ==> ids[k] == h[k].id
  {
    if h == [] then [] else [h[0].id] + Ids(h[1..])
  }

  /** How many items carry the id. */
  function CountId(h: seq<HistoryItem>, id: string): nat
  {
    if h == [] then 0 else (if h[0].id == id then 1 else 0) + CountId(h[1..], id)
  }

  /** No two items share an id. */
  predicate UniqueIds(h: seq<HistoryItem>)
  {
    forall i, j :: 0 <= i < j < |h| ==> h[i].id != h[j].id
  }

  /** `s` is `t` with some items deleted, the rest in their original order. */
  predicate Subsequence(s: seq<HistoryItem>, t: seq<HistoryItem>)
    decreases |t|
  {
    if s == [] then true
    else if t == [] then false
    else if s[0] == t[0] then Subsequence(s[1..], t[1..])
    else Subsequence(s, t[1..])
  }

  /** Remove acts on the two halves of a history independently, so the items
      it keeps stay in their order. */
  lemma {:induction false} WithoutIdAppend(a: seq<HistoryItem>, b: seq<HistoryItem>, id: string)
    ensures WithoutId(a + b, id) == WithoutId(a, id) + WithoutId(b, id)
    decreases |a|
  {
    if a == [] {
      assert a + b == b;
    } else {
      assert (a + b)[0] == a[0] && (a + b)[1..] == a[1..] + b;
      WithoutIdAppend(a[1..], b, id);
    }
  }

  /** The items kept by remove are the old items in their old relative order. */
  lemma {:induction false} WithoutIdSubsequence(h: seq<HistoryItem>, id: string)
    ensures Subsequence(WithoutId(h, id), h)
    decreases |h|
  {
    if h != [] {
      WithoutIdSubsequence(h[1..], id);
      if h[0].id != id {
        var r := WithoutId(h, id);
        assert r[0] == h[0] && r[1..] == WithoutId(h[1..], id);
      } else {
        var r := WithoutId(h, id);
        if r != [] {
          assert r[0] in r;
          assert r[0].id != id;
        }
      }
    }
  }

  /** Remove drops every item carrying the id, not just the first: the
      length falls by exactly the number of such items. */
  lemma {:induction false} WithoutIdCount(h: seq<HistoryItem>, id: string)
    ensures |WithoutId(h, id)| == |h| - CountId(h, id)
    ensures CountId(WithoutId(h, id), id) == 0
    decreases |h|
  {
    if h != [] {
      WithoutIdCount(h[1..], id);
      if h[0].id != id {
        assert WithoutId(h, id)[1..] == WithoutId(h[1..], id);
      }
    }
  }

  /** Every other item keeps its multiplicity: remove deletes the items with
      the id and nothing else. */
  lemma {:induction false} WithoutIdMultiset(h: seq<HistoryItem>, id: string, x: HistoryItem)
    ensures multiset(WithoutId(h, id))[x] == if x.id == id then 0 else multiset(h)[x]
    decreases |h|
  {
    if h != [] {
      WithoutIdMultiset(h[1..], id, x);
      assert h == [h[0]] + h[1..];
      assert multiset(h) == multiset([h[0]]) + multiset(h[1..]);
    } else {
      assert WithoutId(h, id) == [];
    }
  }

  /** Removing the same id twice is the same as removing it once. */
  lemma WithoutIdIdempotent(h: seq<HistoryItem>, id: string)
    ensures WithoutId(WithoutId(h, id), id) == WithoutId(h, id)
  {
  }

  /** An id no item carries leaves the history as it is. */
  lemma WithoutAbsentId(h: seq<HistoryItem>, id: string)
    requires id !in Ids(h)
    ensures WithoutId(h, id) == h
  {
  }

  /** Remove undoes add: removing the id just assigned drops the new item,
      and any older items that happen to share it. */
  lemma RemoveAfterAdd(h: seq<HistoryItem>, e: Entry, isoNow: string, localeNow: string)
    ensures WithoutId(Added(h, e, isoNow, localeNow), isoNow) == WithoutId(h, isoNow)
    ensures WithoutId(Added(h, e, isoNow, localeNow), isoNow) == h <==> isoNow !in Ids(h)
  {
  }

  /** Ids stay unique under add only when the clock reading is new; remove
      always keeps them unique. */
  lemma UniqueIdsPreserved(h: seq<HistoryItem>, e: Entry, isoNow: string, localeNow: string, id: string)
    requires UniqueIds(h)
    ensures UniqueIds(Added(h, e, isoNow, localeNow)) <==> isoNow !in Ids(h)
    ensures UniqueIds(WithoutId(h, id))
  {
    var a := Added(h, e, isoNow, localeNow);
    if isoNow in Ids(h) {
      var k :| 0 <= k < |h| && Ids(h)[k] == isoNow;
      assert a[0].id == a[k + 1].id;
    } else {
      forall i, j | 0 <= i < j < |a| ensures a[i].id != a[j].id {
        if i == 0 {
          assert a[j] == h[j - 1];
          assert Ids(h)[j - 1] == h[j - 1].id;
        } else {
          assert a[i] == h[i - 1] && a[j] == h[j - 1];
        }
      }
    }
    WithoutIdUnique(h, id);
  }

  lemma {:induction false} WithoutIdUnique(h: seq<HistoryItem>, id: string)
    requires UniqueIds(h)
    ensures UniqueIds(WithoutId(h, id))
    decreases |h|
  {
    if h != [] {
      var t := h[1..];
      assert UniqueIds(t) by {
        forall i, j | 0 <= i < j < |t| ensures t[i].id != t[j].id {
          assert t[i] == h[i + 1] && t[j] == h[j + 1];
        }
      }
      WithoutIdUnique(t, id);
      if h[0].id != id {
        var r := WithoutId(h, id);
        assert r == [h[0]] + WithoutId(t, id);
        forall i, j | 0 <= i < j < |r| ensures r[i].id != r[j].id {
          if i == 0 {
            assert r[j] in WithoutId(t, id);
            assert r[j] in t;
            var m :| 0 <= m < |t| && t[m] == r[j];
            assert h[m + 1] == r[j];
          }
        }
      }
    }
  }

  /** Two adds in the same clock tick (same ISO string) give two items with
      one id, and a remove of that id then deletes both. */
  lemma SameTickAdds(h: seq<HistoryItem>, e1: Entry, e2: Entry, isoNow: string, locale1: string, locale2: string)
    ensures var h2 := Added(Added(h, e1, isoNow, locale1), e2, isoNow, locale2);
      !UniqueIds(h2) && CountId(WithoutId(h2, isoNow), isoNow) == 0 && |WithoutId(h2, isoNow)| <= |h2| - 2
  {
    var h1 := Added(h, e1, isoNow, locale1);
    var h2 := Added(h1, e2, isoNow, locale2);
    assert h2[0].id == h2[1].id;
    WithoutIdCount(h2, isoNow);
    assert CountId(h2, isoNow) == 2 + CountId(h, isoNow) by {
      assert h2[1..] == h1 && h1[1..] == h;
    }
  }

  /** Two adds to an empty history: two items, newest first, whose ids
      differ exactly when the two clock readings differ. */
  lemma TwoAdds(e1: Entry, e2: Entry, iso1: string, iso2: string, locale1: string, locale2: string)
    ensures var h := Added(Added([], e1, iso1, locale1), e2, iso2, locale2);
      |h| == 2 && Unstamp(h[0]) == e2 && Unstamp(h[1]) == e1 && (h[0].id != h[1].id <==> iso1 != iso2)
  {
  }

  /** The store's state, `history`, which every operation replaces wholesale. */
  class HistoryStore {
    var history: seq<HistoryItem>

    /** The store starts out empty. */
    constructor ()
      ensures history == []
    {
      history := [];
    }

    /** `addHistoryItem(item)`: prepend the item stamped with the ISO clock
        reading as id and the locale clock reading as timestamp. */
    method AddHistoryItem(e: Entry, isoNow: string, localeNow: string)
      modifies this
      ensures history == Added(old(history), e, isoNow, localeNow)
      ensures |history| == |old(history)| + 1 && history[1..] == old(history)
      ensures Unstamp(history[0]) == e && history[0].id == isoNow && history[0].timestamp == localeNow
    {
      history := [Stamp(e, isoNow, localeNow)] + history;
    }

    /** `removeHistoryItem(id)`: keep the items whose id differs, in order. */
    method RemoveHistoryItem(id: string)
      modifies this
      ensures history == WithoutId(old(history), id)
      ensures forall x :: x in history <==> x in old(history) && x.id != id
      ensures Subsequence(history, old(history)) && |history| == |old(history)| - CountId(old(history), id)
      ensures id !in Ids(old(history)) ==> history == old(history)
    {
      WithoutIdSubsequence(history, id);
      WithoutIdCount(history, id);
      if id !in Ids(history) {
        WithoutAbsentId(history, id);
      }
      history := WithoutId(history, id);
    }

    /** `clearHistory()`: the empty history, whatever it held before. */
    method ClearHistory()
      modifies this
      ensures history == []
    {
      history := [];
    }
  }
}
