/** The shared provider vector and `ProviderIter`, the double-ended cursor the
    root hands out from `providers()`. */
module ProviderIteration {
  import opened Config

  /** The provider vector every clone of a root shares. `readers` counts the
      shared borrows outstanding (the iterator's `Ref` and every item's clone of
      it); an exclusive borrow succeeds only when it is zero. `handles` stands for
      the other reference-count holders of the vector, the advisory number a
      refused reload reports. */
  class ProviderList {
    var providers: seq<Provider>
    var readers: nat
    var handles: nat

    constructor (ps: seq<Provider>)
      ensures providers == ps && readers == 0 && handles == 0
    {
      providers, readers, handles := ps, 0, 0;
    }

    /** Dropping one shared borrow (an iterator or an item). */
    method Release()
      requires readers > 0
      modifies this`readers
      ensures readers == old(readers) - 1
    {
      readers := readers - 1;
    }
  }

  /** The cursor over a borrowed provider vector. `items` is the vector as the
      borrow sees it; it cannot change while the borrow lives. An item handed
      out is the index of its provider in `items`. */
  class ProviderIter {
    var head: nat
    var tail: nat
    const items: seq<Provider>
    const list: ProviderList

    ghost predicate Valid()
      reads this
    {
      head <= |items| && tail <= |items|
    }

    /** `ProviderIter::new` applied to a fresh shared borrow of the vector. */
    constructor (list: ProviderList)
      modifies list`readers
      ensures Valid() && this.list == list && items == list.providers
      ensures head == 0 && tail == |items|
      ensures list.readers == old(list.readers) + 1
    {
      head, tail := 0, |list.providers|;
      items := list.providers;
      this.list := list;
      list.readers := list.readers + 1;
    }

    /** `next`, as written: it stops at the end of the vector, not at `tail`.
        The item it returns holds a clone of the borrow. */
    method Next() returns (r: Option<nat>)
      requires Valid()
      modifies this`head, list`readers
      ensures Valid()
      ensures old(head) < |items| ==>
        r == Some(old(head)) && head == old(head) + 1 && list.readers == old(list.readers) + 1
      ensures old(head) >= |items| ==>
        r == None && head == old(head) && list.readers == old(list.readers)
    {
      if head < |items| {
        r := Some(head);
        head := head + 1;
        list.readers := list.readers + 1;
      } else {
        r := None;
      }
    }

    /** `next_back`: it counts `tail` down to zero, whatever `head` is. */
    method NextBack() returns (r: Option<nat>)
      requires Valid()
      modifies this`tail, list`readers
      ensures Valid()
      ensures old(tail) > 0 ==>
        r == Some(old(tail) - 1) && tail == old(tail) - 1 && list.readers == old(list.readers) + 1
      ensures old(tail) == 0 ==>
        r == None && tail == 0 && list.readers == old(list.readers)
    {
      if tail > 0 {
        tail := tail - 1;
        r := Some(tail);
        list.readers := list.readers + 1;
      } else {
        r := None;
      }
    }

    /** `len`, as written: the number of providers, however many were consumed. */
    function Len(): (n: nat)
      reads this
      ensures n == |items|
    {
      |items|
    }

    /** The number of items not yet handed out from either end, in a cursor
        whose two ends have not crossed. */
    function Remaining(): (n: nat)
      reads this
      requires head <= tail
      ensures n == 0 <==> head == tail
      ensures Valid() ==> n <= |items|
    {
      tail - head
    }

    /** `next` as a double-ended iterator requires: it stops where `next_back`
        has got to, so no index is handed out twice. */
    method NextMeeting() returns (r: Option<nat>)
      requires Valid() && head <= tail
      modifies this`head, list`readers
      ensures Valid() && head <= tail
      ensures r.Some? <==> old(Remaining()) > 0
      ensures r.Some? ==> r == Some(old(head)) && old(head) < old(tail) && head == old(head) + 1
      ensures Remaining() == if r.Some? then old(Remaining()) - 1 else 0
      ensures list.readers == old(list.readers) + (if r.Some? then 1 else 0)
    {
      if head < tail {
        r := Some(head);
        head := head + 1;
        list.readers := list.readers + 1;
      } else {
        r := None;
      }
    }

    /** `next_back` with the same stop. */
    method NextBackMeeting() returns (r: Option<nat>)
      requires Valid() && head <= tail
      modifies this`tail, list`readers
      ensures Valid() && head <= tail
      ensures r.Some? <==> old(Remaining()) > 0
      ensures r.Some? ==> r == Some(old(tail) - 1) && old(head) < old(tail) && tail == old(tail) - 1
      ensures Remaining() == if r.Some? then old(Remaining()) - 1 else 0
      ensures list.readers == old(list.readers) + (if r.Some? then 1 else 0)
    {
      if head < tail {
        tail := tail - 1;
        r := Some(tail);
        list.readers := list.readers + 1;
      } else {
        r := None;
      }
    }
  }

  /** The indices `from`, `from + 1`, ..., `to - 1`. */
  function Ascending(from: nat, to: nat): (s: seq<nat>)
    requires from <= to
    ensures |s| == to - from && forall k :: 0 <= k < |s| ==> s[k] == from + k
  {
    seq(to - from, k requires 0 <= k < to - from => from + k)
  }

  /** The indices `n - 1`, `n - 2`, ..., `0`. */
  function Descending(n: nat): (s: seq<nat>)
    ensures |s| == n && forall k :: 0 <= k < n ==> s[k] == n - 1 - k
  {
    seq(n, k requires 0 <= k < n => n - 1 - k)
  }

  /** Consuming the cursor from the front, as `fold` does in `children`,
      dropping every item once it has been used: the items are the positions
      from `head` to the end of the vector, after which `next` answers `None`;
      the borrows the items took are all released again. */
  method DrainForward(it: ProviderIter) returns (yielded: seq<nat>)
    requires it.Valid()
    modifies it`head, it.list`readers
    ensures it.Valid() && it.head == |it.items|
    ensures yielded == Ascending(old(it.head), |it.items|)
    ensures it.list.readers == old(it.list.readers)
  {
    yielded := [];
    var r := it.Next();
    while r.Some?
      invariant it.Valid() && old(it.head) <= it.head
      invariant r.Some? ==> it.head >= 1 && r == Some(it.head - 1) && it.list.readers == old(it.list.readers) + 1
      invariant r.None? ==> it.head == |it.items| && it.list.readers == old(it.list.readers)
      invariant yielded == Ascending(old(it.head), if r.Some? then it.head - 1 else it.head)
      decreases |it.items| - it.head, r.Some?
    {
      yielded := yielded + [r.value];
      it.list.Release();
      r := it.Next();
    }
  }

  /** Consuming the cursor from the back, as `rev` does in `get`: positions
      `tail - 1` down to zero, after which `next_back` answers `None`. */
  method DrainBackward(it: ProviderIter) returns (yielded: seq<nat>)
    requires it.Valid()
    modifies it`tail, it.list`readers
    ensures it.Valid() && it.tail == 0
    ensures yielded == Descending(old(it.tail))
    ensures it.list.readers == old(it.list.readers)
  {
    ghost var n := it.tail;
    yielded := [];
    var r := it.NextBack();
    while r.Some?
      invariant it.Valid() && it.tail <= n
      invariant r.Some? ==> it.tail < n && r == Some(it.tail) && it.list.readers == old(it.list.readers) + 1
      invariant r.None? ==> it.tail == 0 && it.list.readers == old(it.list.readers)
      invariant yielded == Descending(n)[..n - (if r.Some? then it.tail + 1 else 0)]
      decreases it.tail, r.Some?
    {
      yielded := yielded + [r.value];
      it.list.Release();
      r := it.NextBack();
    }
  }

  /** With one provider, `next` followed by `next_back` hands out the same
      provider twice, because `next` does not stop at `tail`. */
  method MixedDirectionsYieldTwice(p: Provider) returns (forward: Option<nat>, backward: Option<nat>)
    ensures forward == Some(0) && backward == Some(0)
  {
    var list := new ProviderList([p]);
    var it := new ProviderIter(list);
    forward := it.Next();
    backward := it.NextBack();
  }

  /** With the meeting cursor the same two calls hand the provider out once. */
  method MixedDirectionsMeet(p: Provider) returns (forward: Option<nat>, backward: Option<nat>)
    ensures forward == Some(0) && backward == None
  {
    var list := new ProviderList([p]);
    var it := new ProviderIter(list);
    forward := it.NextMeeting();
    backward := it.NextBackMeeting();
  }

  /** With one provider, once `next` has answered `None`, `len` still says one. */
  method LenAfterExhaustion(p: Provider) returns (first: Option<nat>, second: Option<nat>, len: nat)
    ensures first == Some(0) && second == None && len == 1
  {
    var list := new ProviderList([p]);
    var it := new ProviderIter(list);
    first := it.Next();
    second := it.Next();
    len := it.Len();
  }

  /** With the meeting cursor, the count of what is left reaches zero exactly
      when the cursor is exhausted. */
  method RemainingAfterExhaustion(p: Provider) returns (first: Option<nat>, second: Option<nat>, left: nat)
    ensures first == Some(0) && second == None && left == 0
  {
    var list := new ProviderList([p]);
    var it := new ProviderIter(list);
    first := it.NextMeeting();
    second := it.NextMeeting();
    left := it.Remaining();
  }
}
