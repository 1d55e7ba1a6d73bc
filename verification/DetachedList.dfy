/**
  The server's list of detached subscriptions: a singly linked list, added to at the front and
  spliced in the middle through a pointer to the previous link.
 */
module DetachedList {
  import opened Prelude

  datatype Entry<+T> = Entry(id: nat, subscription: T)

  /** The place of the first entry with an id, or the length of the list. */
  function FirstAt<T>(entries: seq<Entry<T>>, id: nat): (i: nat)
    ensures i <= |entries|
    ensures i < |entries| ==> entries[i].id == id
    ensures forall j :: 0 <= j < i ==> entries[j].id != id
  {
    if entries == [] || entries[0].id == id then 0 else 1 + FirstAt(entries[1..], id)
  }

  /** The entries without the first one that has the id. */
  function Dropped<T>(entries: seq<Entry<T>>, id: nat): seq<Entry<T>> {
    var i := FirstAt(entries, id);
    if i == |entries| then entries else entries[..i] + entries[i + 1..]
  }

  /** `FirstAt` is the only place with its properties. */
  lemma FirstAtUnique<T>(entries: seq<Entry<T>>, id: nat, i: nat)
    requires i <= |entries| && (i < |entries| ==> entries[i].id == id)
    requires forall j :: 0 <= j < i ==> entries[j].id != id
    ensures FirstAt(entries, id) == i
  {
  }

  /** Every other entry is still there. */
  lemma DroppedKeeps<T>(entries: seq<Entry<T>>, id: nat, j: nat) returns (j': nat)
    requires j < |entries| && j != FirstAt(entries, id)
    ensures j' < |Dropped(entries, id)| && Dropped(entries, id)[j'] == entries[j]
  {
    var i := FirstAt(entries, id);
    j' := if j < i then j else j - 1;
    if i == |entries| {
      j' := j;
    }
  }

  /** And nothing else is. */
  lemma DroppedPlace<T>(entries: seq<Entry<T>>, id: nat, j: nat) returns (i: nat)
    requires FirstAt(entries, id) < |entries| && j < |Dropped(entries, id)|
    ensures i == if j < FirstAt(entries, id) then j else j + 1
    ensures i < |entries| && i != FirstAt(entries, id) && Dropped(entries, id)[j] == entries[i]
  {
    i := if j < FirstAt(entries, id) then j else j + 1;
  }

  class Node<T> {
    const entry: Entry<T>
    var next: Node?<T>

    constructor (entry: Entry<T>, next: Node?<T>)
      ensures this.entry == entry && this.next == next
    {
      this.entry, this.next := entry, next;
    }
  }

  ghost function EntriesOf<T>(nodes: seq<Node<T>>): (s: seq<Entry<T>>)
    ensures |s| == |nodes|
  {
    seq(|nodes|, i requires 0 <= i < |nodes| => nodes[i].entry)
  }

  lemma EntriesWithout<T>(nodes: seq<Node<T>>, i: nat)
    requires i < |nodes|
    ensures EntriesOf(nodes[..i] + nodes[i + 1..]) == EntriesOf(nodes)[..i] + EntriesOf(nodes)[i + 1..]
  {
  }

  class Detached<T> {
    var first: Node?<T>
    ghost var nodes: seq<Node<T>>

    /** What the link that leads to place `i` points at. */
    ghost function Target(i: nat): Node?<T>
      reads this
    {
      if i < |nodes| then nodes[i] else null
    }

    ghost predicate Valid()
      reads this, nodes
    {
      && first == Target(0)
      && (forall i, j :: 0 <= i < j < |nodes| ==> nodes[i] != nodes[j])
      && (forall i :: 0 <= i < |nodes| ==> nodes[i].next == Target(i + 1))
    }

    ghost function Entries(): seq<Entry<T>>
      reads this, nodes
    {
      EntriesOf(nodes)
    }

    constructor ()
      ensures Valid() && Entries() == []
    {
      first, nodes := null, [];
    }

    method Add(id: nat, subscription: T)
      requires Valid()
      modifies this
      ensures Valid() && (forall n :: n in nodes ==> n in old(nodes) || fresh(n))
      ensures Entries() == [Entry(id, subscription)] + old(Entries())
    {
      var node := new Node(Entry(id, subscription), first);
      first := node;
      ghost var was := nodes;
      nodes := [node] + nodes;
      forall i | 0 <= i < |nodes| ensures nodes[i].next == Target(i + 1) {
        assert i > 0 ==> was[i - 1].next == if i < |was| then was[i] else null;
      }
    }

    /** Take out the first entry with the id and hand over its subscription; the others keep their order. */
    method FindAndRemove(id: nat) returns (found: Option<T>)
      requires Valid()
      modifies this, nodes
      ensures Valid() && (forall n :: n in nodes ==> n in old(nodes))
      ensures Entries() == Dropped(old(Entries()), id)
      ensures
        var i := FirstAt(old(Entries()), id);
        found == if i < |old(Entries())| then Some(old(Entries())[i].subscription) else None
    {
      var prev: Node?<T>, node := null, first;
      ghost var i := 0;
      while node != null
        invariant i <= |nodes| && node == Target(i)
        invariant prev == if i == 0 then null else nodes[i - 1]
        invariant forall j :: 0 <= j < i ==> Entries()[j].id != id
        decreases |nodes| - i
      {
        if node.entry.id == id {
          FirstAtUnique(Entries(), id, i);
          found := Some(node.entry.subscription);
          Splice(prev, node, i);
          return;
        }
        prev, node, i := node, node.next, i + 1;
      }
      FirstAtUnique(Entries(), id, i);
      found := None;
    }

    /** `*pp = found->next`: the link before place `i` skips the node there. */
    method Splice(prev: Node?<T>, node: Node<T>, ghost i: nat)
      requires Valid() && i < |nodes| && node == nodes[i]
      requires prev == if i == 0 then null else nodes[i - 1]
      modifies this, nodes
      ensures Valid() && nodes == old(nodes)[..i] + old(nodes)[i + 1..]
      ensures Entries() == old(Entries())[..i] + old(Entries())[i + 1..]
    {
      if prev == null {
        first := node.next;
      } else {
        prev.next := node.next;
      }
      ghost var was := nodes;
      nodes := was[..i] + was[i + 1..];
      EntriesWithout(was, i);
      assert old(Target(i + 1)) == Target(i);
      forall j | 0 <= j < |nodes| ensures nodes[j].next == Target(j + 1) {
        assert j < i ==> nodes[j] == was[j];
        assert j >= i ==> nodes[j] == was[j + 1] && old(Target(j + 2)) == Target(j + 1);
      }
    }
  }
}
