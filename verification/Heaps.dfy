/** Python's heapq as seen by its callers. A heap of (key, sequence number, item) tuples is kept here
    as the list of its entries in the order in which successive pops would return them. */
module Heaps {

  datatype Entry<+T> = Entry(key: int, ord: nat, item: T)

  predicate Before<T>(a: Entry<T>, b: Entry<T>) {
    a.key < b.key || (a.key == b.key && a.ord <= b.ord)
  }

  ghost predicate IsHeap<T>(h: seq<Entry<T>>) {
    forall i, j :: 0 <= i < j < |h| ==> Before(h[i], h[j])
  }

  ghost function Items<T>(h: seq<Entry<T>>): set<T> {
    set e | e in h :: e.item
  }

  /** No item occurs in two entries. */
  ghost predicate Distinct<T>(h: seq<Entry<T>>) {
    |Items(h)| == |h|
  }

  lemma ItemsSize<T>(h: seq<Entry<T>>)
    ensures |Items(h)| <= |h|
  {
    if h != [] {
      ItemsSize(h[1..]);
      assert Items(h) == Items(h[1..]) + {h[0].item};
    }
  }

  /** heappush. */
  function Push<T(!new)>(h: seq<Entry<T>>, e: Entry<T>): (r: seq<Entry<T>>)
    ensures |r| == |h| + 1
    ensures forall x :: x in r <==> x == e || x in h
    ensures Items(r) == Items(h) + {e.item}
    ensures IsHeap(h) ==> IsHeap(r)
  {
    if h == [] then [e]
    else if Before(h[0], e) then
      var rest := Push(h[1..], e);
      assert h == [h[0]] + h[1..];
      MoreItems(h, e, [h[0]] + rest);
      FirstStays(h, e, rest);
      [h[0]] + rest
    else
      MoreItems(h, e, [e] + h);
      [e] + h
  }

  lemma MoreItems<T(!new)>(h: seq<Entry<T>>, e: Entry<T>, r: seq<Entry<T>>)
    requires forall x :: x in r <==> x == e || x in h
    ensures Items(r) == Items(h) + {e.item}
  {
  }

  lemma FirstStays<T(!new)>(h: seq<Entry<T>>, e: Entry<T>, rest: seq<Entry<T>>)
    requires h != [] && Before(h[0], e) && (forall x :: x in rest <==> x == e || x in h[1..])
    requires IsHeap(h[1..]) ==> IsHeap(rest)
    ensures IsHeap(h) ==> IsHeap([h[0]] + rest)
  {
    if IsHeap(h) {
      forall i, j | 0 <= i < j < |[h[0]] + rest|
        ensures Before(([h[0]] + rest)[i], ([h[0]] + rest)[j])
      {
        assert rest[j - 1] in rest;
      }
    }
  }

  lemma PushDistinct<T(!new)>(h: seq<Entry<T>>, e: Entry<T>)
    requires Distinct(h) && e.item !in Items(h)
    ensures Distinct(Push(h, e))
  {
  }

  /** heappop removes the first entry, which no other entry precedes. */
  lemma Pop<T>(h: seq<Entry<T>>)
    requires h != [] && IsHeap(h)
    ensures IsHeap(h[1..])
    ensures forall x :: x in h ==> x == h[0] || (x in h[1..] && Before(h[0], x))
    ensures Distinct(h) ==> Items(h[1..]) == Items(h) - {h[0].item} && Distinct(h[1..])
  {
    assert h == [h[0]] + h[1..];
    assert Items(h) == Items(h[1..]) + {h[0].item};
    ItemsSize(h[1..]);
    forall x | x in h[1..]
      ensures Before(h[0], x)
    {
      var i :| 0 <= i < |h[1..]| && h[1..][i] == x;
      assert x == h[i + 1];
    }
  }

  /** The list comprehension and heapify of _drop_ready: every entry for item goes. */
  function Drop<T(==,!new)>(h: seq<Entry<T>>, item: T): (r: seq<Entry<T>>)
    ensures |r| <= |h|
    ensures forall x :: x in r <==> x in h && x.item != item
    ensures Items(r) == Items(h) - {item}
    ensures IsHeap(h) ==> IsHeap(r)
  {
    if h == [] then []
    else
      assert h == [h[0]] + h[1..];
      if h[0].item == item then Drop(h[1..], item)
      else
        var r := [h[0]] + Drop(h[1..], item);
        assert forall x :: x in r <==> x == h[0] || x in Drop(h[1..], item);
        r
  }

  lemma DropHead<T(!new)>(h: seq<Entry<T>>, item: T)
    requires h != []
    ensures Drop(h, item) == (if h[0].item == item then [] else [h[0]]) + Drop(h[1..], item)
  {
  }

  lemma ConsDistinct<T>(e: Entry<T>, h: seq<Entry<T>>)
    requires Distinct(h) && e.item !in Items(h)
    ensures Distinct([e] + h)
  {
    assert Items([e] + h) == Items(h) + {e.item};
  }

  lemma DropDistinct<T(!new)>(h: seq<Entry<T>>, item: T)
    requires IsHeap(h) && Distinct(h)
    ensures Distinct(Drop(h, item))
    ensures |Drop(h, item)| == |h| - (if item in Items(h) then 1 else 0)
  {
    hide IsHeap, Drop;
    if h != [] {
      Pop(h);
      DropDistinct(h[1..], item);
      DropHead(h, item);
      if h[0].item != item {
        ConsDistinct(h[0], Drop(h[1..], item));
      }
    }
  }
}
