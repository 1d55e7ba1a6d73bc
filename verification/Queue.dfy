/** The queue: a list that takes data at its tail and gives them out at its head. */
module Queue {
  import opened Prelude
  import opened LinkedList

  /** Half-way through a clear: the first `i` data are gone, released unless NULL. */
  ghost predicate Drained<T>(
    all: seq<Ptr<T>>, gone: seq<Ptr<T>>, i: nat, contents: seq<Ptr<T>>, released: seq<Ptr<T>>)
  {
    i <= |all| && contents == all[i..] && released == gone + NonNull(all[..i])
  }

  lemma DrainOne<T>(all: seq<Ptr<T>>, gone: seq<Ptr<T>>, i: nat, contents: seq<Ptr<T>>, released: seq<Ptr<T>>)
    requires Drained(all, gone, i, contents, released) && contents != []
    ensures i < |all|
    ensures Drained(all, gone, i + 1, contents[..0] + contents[0 + 1..],
                    released + if contents[0].To? then [contents[0]] else [])
  {
    assert all[..i + 1] == all[..i] + [all[i]];
    NonNullAppend(all[..i], all[i]);
  }

  lemma DrainedAll<T>(all: seq<Ptr<T>>, gone: seq<Ptr<T>>, i: nat, contents: seq<Ptr<T>>, released: seq<Ptr<T>>)
    requires Drained(all, gone, i, contents, released) && contents == []
    ensures released == gone + NonNull(all)
  {
    assert all[..i] == all;
  }

  /** Some element matches. */
  ghost predicate Any<T>(s: seq<T>, matches: T -> bool) {
    exists k :: 0 <= k < |s| && matches(s[k])
  }

  /** A search of the whole list ends on an element exactly when some element matches. */
  lemma FoundExactly<T>(contents: seq<Ptr<T>>, matches: Ptr<T> -> bool, p: nat)
    requires Sought(contents, matches, 1, |contents| + 1, |contents| + 1, p)
    ensures 0 < p < |contents| + 1 <==> Any(contents, matches)
  {
    if 0 < p < |contents| + 1 {
      assert Hits(contents, matches, p) && matches(contents[p - 1]);
    } else {
      forall k | 0 <= k < |contents| ensures !matches(contents[k]) {
        assert !Hits(contents, matches, k + 1);
      }
    }
  }

  class Queue<T> {
    const list: List<T>

    ghost predicate Valid()
      reads this, list, list.nodes
    {
      list.Valid()
    }

    /** The queued data, oldest first. */
    ghost function Contents(): seq<Ptr<T>>
      reads this, list, list.nodes
      requires Valid()
    {
      list.Contents()
    }

    constructor (releases: bool)
      ensures Valid() && fresh(list) && fresh(list.nodes)
      ensures Contents() == [] && list.released == [] && list.releases == releases
    {
      list := new List(releases);
    }

    method IsEmpty() returns (code: int)
      requires Valid()
      ensures code == if Contents() == [] then 1 else 0
    {
      code := list.IsEmpty();
    }

    method Enqueue(data: Ptr<T>) returns (code: int)
      requires Valid()
      modifies list, list.nodes
      ensures Valid() && forall n :: n in list.nodes ==> n in old(list.nodes) || fresh(n)
      ensures code == 0 && Contents() == old(Contents()) + [data] && list.released == old(list.released)
    {
      code := list.InsertLast(data);
    }

    /** Take the oldest datum; an empty queue answers 0 and hands out NULL. */
    method Dequeue(wanted: bool) returns (code: int, out: Ptr<T>)
      requires Valid()
      modifies list, list.nodes
      ensures Valid() && Within(list.nodes, old(list.nodes))
      ensures list.Removed(old(Contents()), old(list.released), wanted, code, out, 0)
    {
      code, out := list.RemoveFirst(wanted);
    }

    method Peek() returns (code: int, out: Ptr<T>)
      requires Valid()
      ensures code == 0 && out == if Contents() == [] then Null else Contents()[0]
    {
      var empty := list.IsEmpty();
      if empty == 1 {
        return 0, Null;
      }
      var it := Iterator.Begin(list);
      code, out := it.Get();
    }

    method PeekRear() returns (code: int, out: Ptr<T>)
      requires Valid()
      ensures code == 0 && out == if Contents() == [] then Null else Contents()[|Contents()| - 1]
    {
      var empty := list.IsEmpty();
      if empty == 1 {
        return 0, Null;
      }
      var it := Iterator.ReverseBegin(list);
      code, out := it.Get();
    }

    /**
      Empty the queue through the free function, oldest first. A queue that holds data and has no free
      function answers 1 and keeps them all.
     */
    method Clear() returns (code: int)
      requires Valid()
      modifies list, list.nodes
      ensures Valid() && Within(list.nodes, old(list.nodes))
      ensures code == if list.releases || old(Contents()) == [] then 0 else 1
      ensures code == 0 ==> Contents() == [] && list.released == old(list.released) + NonNull(old(Contents()))
      ensures code == 1 ==> Contents() == old(Contents()) && list.released == old(list.released)
    {
      ghost var all, gone, nodes, i := Contents(), list.released, list.nodes, 0;
      var empty := list.IsEmpty();
      while empty == 0
        invariant Valid() && Within(list.nodes, nodes)
        invariant Drained(all, gone, i, Contents(), list.released)
        invariant i > 0 ==> list.releases
        invariant empty == if Contents() == [] then 1 else 0
        decreases |all| - i
      {
        DrainOne(all, gone, i, Contents(), list.released);
        var removed, _ := list.RemoveFirst(false);
        if removed != 0 {
          return removed;
        }
        i := i + 1;
        empty := list.IsEmpty();
      }
      DrainedAll(all, gone, i, Contents(), list.released);
      code := 0;
    }

    /** 1 when some queued datum matches, else 0. */
    method Contains(matches: Ptr<T> -> bool) returns (code: int)
      requires Valid()
      ensures code == if Any(Contents(), matches) then 1 else 0
    {
      var begin := Iterator.Begin(list);
      var end := Iterator.AtEnd(list);
      var _, found := begin.Find(end, matches);
      var valid := found.IsValid();
      FoundExactly(list.Contents(), matches, found.Position());
      code := if valid == 0 then 1 else 0;
    }

    /** The calls `apply` receives: every datum once, oldest first. */
    method ForEach() returns (code: int, seen: seq<Ptr<T>>)
      requires Valid()
      ensures code == 0 && seen == Contents()
    {
      var begin := Iterator.Begin(list);
      var end := Iterator.AtEnd(list);
      code, seen := begin.ForEach(end);
    }
  }
}
