/**
  The doubly linked list with a guard node at each end, and its iterators, on the heap. `nodes` is the
  sequence the links spell out, guards included; every contract is about that sequence. Freeing a node
  is leaving it out of the sequence.
 */
module LinkedList {
  import opened Prelude

  class Node<T> {
    const data: Ptr<T>
    var next: Node?<T>
    var prev: Node?<T>

    constructor (data: Ptr<T>)
      ensures this.data == data && next == null && prev == null
    {
      this.data := data;
      next, prev := null, null;
    }
  }

  /** Two neighbours point at each other. */
  ghost predicate Linked<T>(nodes: seq<Node<T>>, i: nat)
    requires i < |nodes| - 1
    reads nodes
  {
    nodes[i].next == nodes[i + 1] && nodes[i + 1].prev == nodes[i]
  }

  /** The links of a chain of nodes: mutual inverses, open at both ends, no node met twice. */
  ghost predicate Chain<T>(nodes: seq<Node<T>>)
    reads nodes
  {
    && |nodes| >= 2
    && (forall i, j :: 0 <= i < j < |nodes| ==> nodes[i] != nodes[j])
    && (forall i :: 0 <= i < |nodes| - 1 ==> Linked(nodes, i))
    && nodes[0].prev == null && nodes[|nodes| - 1].next == null
  }

  /** Every node of one chain is a node of another. */
  ghost predicate Within<T>(nodes: seq<Node<T>>, others: seq<Node<T>>) {
    forall k :: 0 <= k < |nodes| ==> nodes[k] in others
  }

  ghost function DataOf<T>(nodes: seq<Node<T>>): (s: seq<Ptr<T>>)
    ensures |s| == |nodes|
  {
    seq(|nodes|, i requires 0 <= i < |nodes| => nodes[i].data)
  }

  ghost function NonNull<T>(s: seq<Ptr<T>>): seq<Ptr<T>> {
    if s == [] then [] else (if s[0].To? then [s[0]] else []) + NonNull(s[1..])
  }

  lemma {:induction false} NonNullAppend<T>(s: seq<Ptr<T>>, x: Ptr<T>)
    ensures NonNull(s + [x]) == NonNull(s) + if x.To? then [x] else []
  {
    if s != [] {
      assert (s + [x])[1..] == s[1..] + [x];
      NonNullAppend(s[1..], x);
    }
  }

  lemma DataAt<T>(nodes: seq<Node<T>>, p: nat)
    requires 0 < p < |nodes| - 1
    ensures DataOf(nodes)[1..|nodes| - 1][p - 1] == nodes[p].data
  {
  }

  lemma DataWith<T>(nodes: seq<Node<T>>, p: nat, node: Node<T>)
    requires p < |nodes| - 1
    ensures
      var data := DataOf(nodes)[1..|nodes| - 1];
      DataOf(nodes[..p + 1] + [node] + nodes[p + 1..])[1..|nodes|] == data[..p] + [node.data] + data[p..]
  {
    var data := DataOf(nodes)[1..|nodes| - 1];
    var more := nodes[..p + 1] + [node] + nodes[p + 1..];
    var got, want := DataOf(more)[1..|nodes|], data[..p] + [node.data] + data[p..];
    forall i | 0 <= i < |got| ensures got[i] == want[i] {
      assert got[i] == more[i + 1].data;
      assert i < p ==> data[i] == nodes[i + 1].data;
      assert i > p ==> data[i - 1] == nodes[i].data && more[i + 1] == nodes[i];
    }
  }

  lemma DataWithout<T>(nodes: seq<Node<T>>, p: nat)
    requires 0 < p < |nodes| - 1
    ensures
      var data := DataOf(nodes)[1..|nodes| - 1];
      DataOf(nodes[..p] + nodes[p + 1..])[1..|nodes| - 2] == data[..p - 1] + data[p..]
  {
    var data := DataOf(nodes)[1..|nodes| - 1];
    var fewer := nodes[..p] + nodes[p + 1..];
    var got, want := DataOf(fewer)[1..|nodes| - 2], data[..p - 1] + data[p..];
    forall i | 0 <= i < |got| ensures got[i] == want[i] {
      assert got[i] == fewer[i + 1].data;
      assert i < p - 1 ==> data[i] == nodes[i + 1].data;
      assert i >= p - 1 ==> data[i + 1] == nodes[i + 2].data && fewer[i + 1] == nodes[i + 2];
    }
  }

  class List<T> {
    const head: Node<T>
    const tail: Node<T>
    var size: nat
    /** Whether a free function is set. */
    const releases: bool
    /** The nodes in order, from guard to guard. */
    ghost var nodes: seq<Node<T>>
    /** What the free function has been called on, in order. */
    ghost var released: seq<Ptr<T>>

    ghost predicate Valid()
      reads this, nodes
    {
      && Chain(nodes)
      && nodes[0] == head && nodes[|nodes| - 1] == tail
      && head.data == Null && tail.data == Null
      && size == |nodes| - 2
    }

    ghost function Contents(): (s: seq<Ptr<T>>)
      reads this, nodes
      requires Valid()
      ensures |s| == size
    {
      DataOf(nodes)[1..|nodes| - 1]
    }

    lemma ElementAt(p: nat)
      requires Valid() && 0 < p < |nodes| - 1
      ensures Contents()[p - 1] == nodes[p].data
    {
      DataAt(nodes, p);
    }

    constructor (releases: bool)
      ensures Valid() && fresh(nodes) && Contents() == [] && released == [] && this.releases == releases
    {
      var h := new Node<T>(Null);
      var t := new Node<T>(Null);
      h.next, t.prev := t, h;
      head, tail, size := h, t, 0;
      this.releases := releases;
      nodes, released := [h, t], [];
    }

    /** Put a new node between a node and its successor. */
    method LinkAfter(left: Node<T>, data: Ptr<T>, ghost p: nat) returns (node: Node<T>)
      requires Valid() && p < |nodes| - 1 && nodes[p] == left
      modifies this`size, this`nodes, nodes
      ensures Valid() && released == old(released)
      ensures fresh(node) && node.data == data
      ensures nodes == old(nodes)[..p + 1] + [node] + old(nodes)[p + 1..]
      ensures Contents() == old(Contents())[..p] + [data] + old(Contents())[p..]
    {
      node := new Node<T>(data);
      assert Linked(nodes, p);
      var right := left.next;
      node.next, node.prev := right, left;
      right.prev := node;
      left.next := node;
      size := size + 1;
      nodes := nodes[..p + 1] + [node] + nodes[p + 1..];
      forall i | 0 <= i < |nodes| - 1 ensures Linked(nodes, i) {
        assert i < p ==> old(Linked(nodes, i));
        assert p + 1 < i ==> old(Linked(nodes, i - 1));
      }
      DataWith(old(nodes), p, node);
    }

    /** Take a node out from between its neighbours. */
    method Unlink(node: Node<T>, ghost p: nat)
      requires Valid() && 0 < p < |nodes| - 1 && nodes[p] == node
      modifies this`size, this`nodes, nodes
      ensures Valid() && released == old(released)
      ensures nodes == old(nodes)[..p] + old(nodes)[p + 1..]
      ensures Contents() == old(Contents())[..p - 1] + old(Contents())[p..]
    {
      assert Linked(nodes, p - 1) && Linked(nodes, p);
      node.prev.next := node.next;
      node.next.prev := node.prev;
      size := size - 1;
      nodes := nodes[..p] + nodes[p + 1..];
      forall i | 0 <= i < |nodes| - 1 ensures Linked(nodes, i) {
        assert i < p - 1 ==> old(Linked(nodes, i));
        assert p <= i ==> old(Linked(nodes, i + 1));
      }
      DataWithout(old(nodes), p);
    }

    method IsEmpty() returns (code: int)
      requires Valid()
      ensures code == if Contents() == [] then 1 else 0
    {
      code := if size == 0 then 1 else 0;
    }

    method InsertFirst(data: Ptr<T>) returns (code: int)
      requires Valid()
      modifies this, nodes
      ensures Valid() && (forall n :: n in nodes ==> n in old(nodes) || fresh(n))
      ensures code == 0 && Contents() == [data] + old(Contents()) && released == old(released)
    {
      var _ := LinkAfter(head, data, 0);
      code := 0;
    }

    method InsertLast(data: Ptr<T>) returns (code: int)
      requires Valid()
      modifies this, nodes
      ensures Valid() && (forall n :: n in nodes ==> n in old(nodes) || fresh(n))
      ensures code == 0 && Contents() == old(Contents()) + [data] && released == old(released)
    {
      assert Linked(nodes, |nodes| - 2);
      var _ := LinkAfter(tail.prev, data, |nodes| - 2);
      code := 0;
    }

    /** `wanted` is whether the caller passed somewhere to store the datum; if not, it goes to the free function. */
    method RemoveFirst(wanted: bool) returns (code: int, out: Ptr<T>)
      requires Valid()
      modifies this, nodes
      ensures Valid() && Within(nodes, old(nodes))
      ensures Removed(old(Contents()), old(released), wanted, code, out, 0)
    {
      if size == 0 {
        return 0, Null;
      }
      if !wanted && !releases {
        return 1, Null;
      }
      assert Linked(nodes, 0);
      out := TakeOut(head.next, wanted, 1);
      code := 0;
    }

    method RemoveLast(wanted: bool) returns (code: int, out: Ptr<T>)
      requires Valid()
      modifies this, nodes
      ensures Valid() && Within(nodes, old(nodes))
      ensures Removed(old(Contents()), old(released), wanted, code, out, |old(Contents())| - 1)
    {
      if size == 0 {
        return 0, Null;
      }
      if !wanted && !releases {
        return 1, Null;
      }
      assert Linked(nodes, |nodes| - 2);
      out := TakeOut(tail.prev, wanted, |nodes| - 2);
      code := 0;
    }

    /** Store the datum for the caller, or else release it unless it is NULL. */
    method Hand(node: Node<T>, wanted: bool) returns (out: Ptr<T>)
      requires wanted || releases
      modifies this`released
      ensures out == if wanted then node.data else Null
      ensures released == old(released) + if !wanted && node.data.To? then [node.data] else []
    {
      out := if wanted then node.data else Null;
      if !wanted && node.data.To? {
        released := released + [node.data];
      }
    }

    /** Hand over the datum of a node and unlink it. */
    method TakeOut(node: Node<T>, wanted: bool, ghost p: nat) returns (out: Ptr<T>)
      requires Valid() && 0 < p < |nodes| - 1 && nodes[p] == node && (wanted || releases)
      modifies this, nodes
      ensures Valid() && nodes == old(nodes)[..p] + old(nodes)[p + 1..]
      ensures Removed(old(Contents()), old(released), wanted, 0, out, p - 1)
    {
      ElementAt(p);
      out := Hand(node, wanted);
      Unlink(node, p);
    }

    /** The outcome of removing the `k`-th element of a list that held `was`, of which `gone` had been released. */
    ghost predicate Removed(was: seq<Ptr<T>>, gone: seq<Ptr<T>>, wanted: bool, code: int, out: Ptr<T>, k: int)
      reads this, nodes
      requires Valid()
    {
      if was == [] then code == 0 && out == Null && Contents() == was && released == gone
      else if !wanted && !releases then code == 1 && out == Null && Contents() == was && released == gone
      else
        && 0 <= k < |was|
        && code == 0 && out == (if wanted then was[k] else Null)
        && Contents() == was[..k] + was[k + 1..]
        && released == gone + if !wanted && was[k].To? then [was[k]] else []
    }

    /** Release every remaining element, first to last, and drop the nodes. */
    method Free()
      requires Valid()
      modifies this`released
      ensures released == old(released) + if releases then NonNull(old(Contents())) else []
    {
      ghost var all, gone, p := DataOf(nodes)[1..|nodes| - 1], released, 1;
      assert Linked(nodes, 0);
      var current := head.next;
      while current != tail
        invariant 1 <= p < |nodes| && current == nodes[p]
        invariant released == gone + if releases then NonNull(all[..p - 1]) else []
        decreases |nodes| - p
      {
        assert Linked(nodes, p);
        var next := current.next;
        DataAt(nodes, p);
        assert all[..p] == all[..p - 1] + [current.data];
        NonNullAppend(all[..p - 1], current.data);
        if releases && current.data.To? {
          released := released + [current.data];
        }
        current, p := next, p + 1;
      }
      assert all[..p - 1] == all;
    }
  }

  /** Whether position `k` of a list with these contents holds an element that matches. */
  predicate Hits<T>(contents: seq<Ptr<T>>, matches: Ptr<T> -> bool, k: int) {
    0 < k <= |contents| && matches(contents[k - 1])
  }

  /** Position `p` is the first match from `start` up to `stop`; without one, it is `end`. */
  ghost predicate Sought<T>(contents: seq<Ptr<T>>, matches: Ptr<T> -> bool, start: nat, stop: nat, end: nat, p: nat) {
    if exists k :: start <= k < stop && Hits(contents, matches, k) then
      && start <= p < stop && Hits(contents, matches, p)
      && forall k :: start <= k < p ==> !Hits(contents, matches, k)
    else p == end
  }

  /**
    A live iterator: a node of a list. Its position counts from 0, the head guard, to the tail guard;
    position `k` is element `k - 1` of the contents. An iterator keeps its node while the list changes
    around it, as long as that node is not the one removed.
   */
  class Iterator<T> {
    const list: List<T>
    var current: Node<T>

    ghost predicate Valid()
      reads this, list, list.nodes
    {
      list.Valid() && current in list.nodes
    }

    ghost function Position(): (p: nat)
      reads this, list, list.nodes
      requires Valid()
      ensures p < |list.nodes| && list.nodes[p] == current
    {
      var p :| 0 <= p < |list.nodes| && list.nodes[p] == current;
      p
    }

    lemma PositionIs(p: nat)
      requires Valid() && p < |list.nodes| && list.nodes[p] == current
      ensures Position() == p
    {
    }

    /** The position of the tail guard. */
    ghost function End(): (p: nat)
      reads list, list.nodes
      requires list.Valid()
      ensures p == list.size + 1
    {
      |list.nodes| - 1
    }

    constructor (list: List<T>, node: Node<T>)
      requires list.Valid() && node in list.nodes
      ensures Valid() && this.list == list && current == node
    {
      this.list, current := list, node;
    }

    static method Begin(list: List<T>) returns (it: Iterator<T>)
      requires list.Valid()
      ensures fresh(it) && it.list == list && it.Valid() && it.Position() == 1
    {
      assert Linked(list.nodes, 0);
      it := new Iterator(list, list.head.next);
      assert it.current == list.nodes[1];
    }

    static method AtEnd(list: List<T>) returns (it: Iterator<T>)
      requires list.Valid()
      ensures fresh(it) && it.list == list && it.Valid() && it.Position() == it.End()
    {
      it := new Iterator(list, list.tail);
    }

    static method ReverseBegin(list: List<T>) returns (it: Iterator<T>)
      requires list.Valid()
      ensures fresh(it) && it.list == list && it.Valid() && it.Position() == list.size
    {
      assert Linked(list.nodes, |list.nodes| - 2);
      it := new Iterator(list, list.tail.prev);
      assert it.current == list.nodes[|list.nodes| - 2];
    }

    static method ReverseEnd(list: List<T>) returns (it: Iterator<T>)
      requires list.Valid()
      ensures fresh(it) && it.list == list && it.Valid() && it.Position() == 0
    {
      it := new Iterator(list, list.head);
    }

    method IsValid() returns (code: int)
      requires Valid()
      ensures code == if 0 < Position() < End() then 0 else 1
    {
      code := if current == list.head || current == list.tail then 1 else 0;
    }

    method Get() returns (code: int, out: Ptr<T>)
      requires Valid()
      ensures 0 < Position() < End() ==> code == 0 && out == list.Contents()[Position() - 1]
      ensures Position() == 0 || Position() == End() ==> code == 1 && out == Null
    {
      if current == list.head || current == list.tail {
        return 1, Null;
      }
      return 0, current.data;
    }

    method Next() returns (code: int)
      requires Valid()
      modifies this`current
      ensures Valid()
      ensures old(Position()) == End() ==> code == 1 && Position() == old(Position())
      ensures old(Position()) < End() ==> code == 0 && Position() == old(Position()) + 1
    {
      if current == list.tail {
        return 1;
      }
      assert Linked(list.nodes, Position());
      current := current.next;
      code := 0;
    }

    method Prev() returns (code: int)
      requires Valid()
      modifies this`current
      ensures Valid()
      ensures old(Position()) == 0 ==> code == 1 && Position() == 0
      ensures old(Position()) > 0 ==> code == 0 && Position() == old(Position()) - 1
    {
      if current == list.head {
        return 1;
      }
      assert Linked(list.nodes, Position() - 1);
      current := current.prev;
      code := 0;
    }

    /** Forward `n` positions, stopping at the tail guard. */
    method Advance(n: nat) returns (code: int)
      requires Valid()
      modifies this`current
      ensures Valid() && code == 0
      ensures Position() == if old(Position()) + n < End() then old(Position()) + n else End()
    {
      var i := 0;
      while i < n && current != list.tail
        invariant i <= n && Valid() && Position() == old(Position()) + i
      {
        assert Linked(list.nodes, Position());
        current := current.next;
        i := i + 1;
      }
      code := 0;
    }

    /** Back `n` positions, stopping at the head guard. */
    method ReverseAdvance(n: nat) returns (code: int)
      requires Valid()
      modifies this`current
      ensures Valid() && code == 0
      ensures Position() == if n < old(Position()) then old(Position()) - n else 0
    {
      var i := 0;
      while i < n && current != list.head
        invariant i <= n && Valid() && Position() == old(Position()) - i
      {
        assert Linked(list.nodes, Position() - 1);
        current := current.prev;
        i := i + 1;
      }
      code := 0;
    }

    /** Remove the current element and stand on its successor. At a guard, or with nowhere to put the datum, nothing happens. */
    method Remove(wanted: bool) returns (code: int, out: Ptr<T>)
      requires Valid()
      modifies this`current, list, list.nodes
      ensures Valid() && Within(list.nodes, old(list.nodes))
      ensures old(Position()) == 0 || old(Position()) == old(End()) || (!wanted && !list.releases) ==>
        && code == 1 && out == Null && Position() == old(Position())
        && list.nodes == old(list.nodes) && list.released == old(list.released)
      ensures 0 < old(Position()) < old(End()) && (wanted || list.releases) ==>
        && Position() == old(Position())
        && list.nodes == old(list.nodes)[..old(Position())] + old(list.nodes)[old(Position()) + 1..]
        && list.Removed(old(list.Contents()), old(list.released), wanted, code, out, old(Position()) - 1)
    {
      if current == list.head || current == list.tail || (!wanted && !list.releases) {
        return 1, Null;
      }
      ghost var p := Position();
      var node := current;
      assert Linked(list.nodes, p);
      var next := node.next;
      out := list.TakeOut(node, wanted, p);
      current := next;
      PositionIs(p);
      code := 0;
    }

    /** The number of elements from here up to `end`; code 1 when `end` lies before. The head guard is not counted. */
    method Distance(end: Iterator<T>) returns (code: int, distance: nat)
      requires Valid() && end.Valid()
      ensures code == if end.list == list && Position() <= end.Position() then 0 else 1
      ensures code == 0 ==>
        distance == end.Position() - Position() - if Position() == 0 < end.Position() then 1 else 0
    {
      distance := 0;
      if list != end.list {
        return 1, 0;
      }
      var node: Node?<T> := current;
      ghost var p := Position();
      while node != null && node != end.current
        invariant Position() <= p < |list.nodes| && node == list.nodes[p]
        invariant Position() <= end.Position() ==> p <= end.Position()
        invariant distance == p - Position() - if Position() == 0 < p then 1 else 0
        decreases |list.nodes| - p
      {
        if node == list.tail {
          return 1, 0;
        }
        if node != list.head {
          distance := distance + 1;
        }
        assert Linked(list.nodes, p);
        node, p := node.next, p + 1;
      }
      code := 0;
    }

    /** Where a search from here to `end` stops: at `end`, or past the last element when `end` lies before. */
    ghost function Stop(end: Iterator<T>): nat
      reads this, list, list.nodes, end, end.list, end.list.nodes
      requires Valid() && end.Valid() && end.list == list
    {
      if Position() <= end.Position() then end.Position() else End()
    }

    /** The search loop of `find`. */
    method Seek(end: Iterator<T>, matches: Ptr<T> -> bool) returns (node: Node<T>, ghost p: nat)
      requires Valid() && end.Valid() && end.list == list
      ensures p < |list.nodes| && list.nodes[p] == node && Sought(list.Contents(), matches, Position(), Stop(end), end.Position(), p)
    {
      var at: Node?<T> := current;
      p := Position();
      while at != null && at != end.current
        invariant Position() <= p <= |list.nodes| && at == if p < |list.nodes| then list.nodes[p] else null
        invariant Position() <= end.Position() ==> p <= end.Position()
        invariant forall k :: Position() <= k < p ==> !Hits(list.Contents(), matches, k)
        decreases |list.nodes| - p
      {
        assert at == list.nodes[p];
        if 0 < p < End() {
          list.ElementAt(p);
        }
        if at != list.head && at != list.tail && matches(at.data) {
          assert Hits(list.Contents(), matches, p);
          return at, p;
        }
        assert p < |list.nodes| - 1 ==> Linked(list.nodes, p);
        at, p := at.next, p + 1;
      }
      return end.current, end.Position();
    }

    /** The first match before the stop; without one, an iterator at `end`. */
    method Find(end: Iterator<T>, matches: Ptr<T> -> bool) returns (code: int, found: Iterator?<T>)
      requires Valid() && end.Valid()
      ensures code == if end.list == list then 0 else 1
      ensures code == 0 ==> found != null && fresh(found) && found.list == list && found.Valid()
      ensures code == 0 ==> Sought(list.Contents(), matches, Position(), Stop(end), end.Position(), found.Position())
    {
      if list != end.list {
        return 1, null;
      }
      var node, p := Seek(end, matches);
      found := new Iterator(list, node);
      found.PositionIs(p);
      code := 0;
    }

    /** Call `apply` on the data from here up to `end`, or up to the tail guard; `seen` lists the calls. A start at the head guard hands it NULL. */
    method ForEach(end: Iterator<T>) returns (code: int, seen: seq<Ptr<T>>)
      requires Valid() && end.Valid()
      ensures code == if end.list == list then 0 else 1
      ensures code == 1 ==> seen == []
      ensures code == 0 ==> seen == DataOf(list.nodes)[Position()..Stop(end)]
    {
      seen := [];
      if list != end.list {
        return 1, seen;
      }
      var node: Node?<T> := current;
      ghost var p := Position();
      while node != null && node != end.current && node != list.tail
        invariant Position() <= p < |list.nodes| && node == list.nodes[p]
        invariant Position() <= end.Position() ==> p <= end.Position()
        invariant seen == DataOf(list.nodes)[Position()..p]
        decreases |list.nodes| - p
      {
        assert Linked(list.nodes, p);
        seen := seen + [node.data];
        node, p := node.next, p + 1;
      }
      code := 0;
    }
  }

  // ---- A sweep -----------------------------------------------------------------------------------

  /** The elements for which `p` answers `wanted`, in order. */
  ghost function Select<T>(s: seq<T>, p: T -> bool, wanted: bool): seq<T> {
    if s == [] then [] else (if p(s[0]) == wanted then [s[0]] else []) + Select(s[1..], p, wanted)
  }

  lemma {:induction false} SelectAppend<T>(s: seq<T>, x: T, p: T -> bool, wanted: bool)
    ensures Select(s + [x], p, wanted) == Select(s, p, wanted) + if p(x) == wanted then [x] else []
  {
    if s != [] {
      assert (s + [x])[1..] == s[1..] + [x];
      SelectAppend(s[1..], x, p, wanted);
    }
  }

  /** Half-way through a sweep: the first `i` elements are dealt with, the iterator stands on the next one at position `p`. */
  ghost predicate Swept<T>(
    all: seq<T>, i: nat, matches: T -> bool, contents: seq<T>, p: nat, taken: seq<T>)
  {
    && i <= |all| && 0 < p <= |contents| + 1
    && contents[..p - 1] == Select(all[..i], matches, false)
    && contents[p - 1..] == all[i..]
    && taken == Select(all[..i], matches, true)
  }

  lemma SweepOne<T>(all: seq<T>, i: nat, matches: T -> bool, contents: seq<T>, p: nat, taken: seq<T>)
    requires Swept(all, i, matches, contents, p, taken) && p <= |contents|
    ensures i < |all| && contents[p - 1] == all[i]
    ensures matches(all[i]) ==> Swept(all, i + 1, matches, contents[..p - 1] + contents[p..], p, taken + [all[i]])
    ensures !matches(all[i]) ==> Swept(all, i + 1, matches, contents, p + 1, taken)
  {
    assert contents[p - 1..][0] == all[i..][0];
    assert contents[p..] == contents[p - 1..][1..] == all[i + 1..];
    assert all[..i + 1] == all[..i] + [all[i]];
    assert contents[..p] == contents[..p - 1] + [contents[p - 1]];
    SelectAppend(all[..i], all[i], matches, true);
    SelectAppend(all[..i], all[i], matches, false);
    assert (contents[..p - 1] + contents[p..])[..p - 1] == contents[..p - 1];
    assert (contents[..p - 1] + contents[p..])[p - 1..] == contents[p..];
  }

  /**
    Walk the list once, removing the current element when it matches and stepping otherwise. What is
    left is the elements that do not match, in order; what came out is the rest, in order.
   */
  method Sweep<T>(list: List<T>, matches: Ptr<T> -> bool) returns (taken: seq<Ptr<T>>)
    requires list.Valid()
    modifies list, list.nodes
    ensures list.Valid() && Within(list.nodes, old(list.nodes))
    ensures list.Contents() == Select(old(list.Contents()), matches, false)
    ensures taken == Select(old(list.Contents()), matches, true)
    ensures list.released == old(list.released)
  {
    var it := Iterator.Begin(list);
    taken := SweepFrom(it, matches);
  }

  /** The loop of the sweep, from the first element on. */
  method SweepFrom<T>(it: Iterator<T>, matches: Ptr<T> -> bool) returns (taken: seq<Ptr<T>>)
    requires it.Valid() && it.Position() == 1
    modifies it`current, it.list, it.list.nodes
    ensures it.list.Valid() && Within(it.list.nodes, old(it.list.nodes))
    ensures it.list.Contents() == Select(old(it.list.Contents()), matches, false)
    ensures taken == Select(old(it.list.Contents()), matches, true)
    ensures it.list.released == old(it.list.released)
  {
    ghost var all, i, nodes := it.list.Contents(), 0, it.list.nodes;
    taken := [];
    while it.current != it.list.tail
      invariant it.Valid() && Within(it.list.nodes, nodes)
      invariant Swept(all, i, matches, it.list.Contents(), it.Position(), taken)
      invariant it.list.released == old(it.list.released)
      decreases |all| - i
    {
      taken := SweepStep(it, matches, taken, all, i, nodes);
      i := i + 1;
    }
    it.PositionIs(|it.list.nodes| - 1);
    SweptAll(all, i, matches, it.list.Contents(), it.Position(), taken);
  }

  lemma SweptAll<T>(all: seq<T>, i: nat, matches: T -> bool, contents: seq<T>, p: nat, taken: seq<T>)
    requires Swept(all, i, matches, contents, p, taken) && p == |contents| + 1
    ensures contents == Select(all, matches, false) && taken == Select(all, matches, true)
  {
    assert all[..i] == all;
    assert contents[..p - 1] == contents;
  }

  method SweepStep<T>(it: Iterator<T>, matches: Ptr<T> -> bool, before: seq<Ptr<T>>, ghost all: seq<Ptr<T>>, ghost i: nat, ghost nodes: seq<Node<T>>)
    returns (taken: seq<Ptr<T>>)
    requires it.Valid() && it.current != it.list.tail && Within(it.list.nodes, nodes)
    requires Swept(all, i, matches, it.list.Contents(), it.Position(), before)
    modifies it`current, it.list, it.list.nodes
    ensures it.Valid() && Within(it.list.nodes, nodes)
    ensures Swept(all, i + 1, matches, it.list.Contents(), it.Position(), taken)
    ensures it.list.released == old(it.list.released) && i < |all|
  {
    SweepOne(all, i, matches, it.list.Contents(), it.Position(), before);
    var _, data := it.Get();
    taken := before;
    if matches(data) {
      var _, out := it.Remove(true);
      taken := taken + [out];
    } else {
      var _ := it.Next();
    }
  }
}
