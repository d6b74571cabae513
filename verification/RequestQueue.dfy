/**
 The request queue as the server keeps it: a chain of heap nodes behind a header node, relinked in
 place, with a cached size.  Every operation is the sequence operation that the server model uses.
 */
module RequestQueue {
  import opened Bank

  class Node {
    var element: Request
    var next: Node?

    constructor (element: Request)
      ensures this.element == element && next == null
    {
      this.element := element;
      next := null;
    }
  }

  /** `s` with `x` inserted at `position`. */
  function Inserted<T>(s: seq<T>, x: T, position: nat): seq<T>
    requires position <= |s|
  {
    s[..position] + [x] + s[position..]
  }

  /** `s` without the element at `position`. */
  function Deleted<T>(s: seq<T>, position: nat): seq<T>
    requires position < |s|
  {
    s[..position] + s[position + 1..]
  }

  class Queue {
    var header: Node
    var size: nat
    ghost var spine: seq<Node>  // the header and the nodes behind it, in order
    ghost var Contents: seq<Request>  // what the nodes behind the header hold

    /** The chain is acyclic, ends in null, and has `size` nodes behind the header, which hold `Contents`. */
    ghost predicate Valid()
      reads this, spine
    {
      && |spine| == size + 1 && |Contents| == size && spine[0] == header
      && (forall i :: 0 <= i < size ==> spine[i + 1].element == Contents[i])
      && (forall i, j :: 0 <= i < j < |spine| ==> spine[i] != spine[j])
      && (forall i :: 0 <= i < size ==> spine[i].next == spine[i + 1])
      && spine[size].next == null
    }

    constructor ()
      ensures Valid() && Contents == [] && fresh(spine)
    {
      var first := new Node(Request(0, 0, "", 0, CheckBalance));
      header := first;
      size := 0;
      spine := [first];
      Contents := [];
    }

    /** Links `node` behind the node at `index` of the spine. */
    method LinkBehind(node: Node, ghost index: nat, current: Node)
      requires Valid() && index <= size && current == spine[index] && node !in spine
      modifies this`size, this`spine, this`Contents, current, node
      ensures Valid() && header == old(header)
      ensures spine == Inserted(old(spine), node, index + 1)
      ensures Contents == Inserted(old(Contents), old(node.element), index)
    {
      node.next := current.next;
      current.next := node;
      size := size + 1;
      Contents := Inserted(Contents, node.element, index);
      spine := Inserted(spine, node, index + 1);
    }

    method Insert(element: Request, position: nat)
      requires Valid() && position <= size
      modifies this, spine
      ensures Valid() && Contents == Inserted(old(Contents), element, position)
      ensures header == old(header) && fresh(set n | n in spine && n !in old(spine))
      ensures |spine| == |old(spine)| + 1 && spine == Inserted(old(spine), spine[position + 1], position + 1)
    {
      var node := new Node(element);
      var current := header.next;
      var i := 0;
      if position == 0 {
        LinkBehind(node, 0, header);
        return;
      }
      while current != null
        invariant 0 <= i <= size && i < position
        invariant current == if i < size then spine[i + 1] else null
        invariant unchanged(this) && unchanged(spine) && node.element == element
        decreases size - i
      {
        if i == position - 1 {
          LinkBehind(node, position, current);
          return;
        }
        current := current.next;
        i := i + 1;
      }
      assert false;  // beyond the end `queue_insert` follows a null pointer; position <= size rules it out
    }

    /** Unlinks the node behind the one at `index` of the spine. */
    method UnlinkBehind(ghost index: nat, current: Node)
      requires Valid() && index < size && current == spine[index]
      modifies this`size, this`spine, this`Contents, current
      ensures Valid() && header == old(header)
      ensures spine == Deleted(old(spine), index + 1)
      ensures Contents == Deleted(old(Contents), index)
    {
      var removed := current.next;
      assert removed == spine[index + 1];
      current.next := removed.next;
      size := size - 1;
      Contents := Deleted(Contents, index);
      spine := Deleted(spine, index + 1);
    }

    /** Deletes at a position inside the queue; any other position but `size` itself is refused with -1. */
    method Delete(position: int) returns (code: int)
      requires Valid() && position != size
      modifies this, spine
      ensures Valid() && header == old(header)
      ensures code == if 0 <= position < old(size) then 0 else -1
      ensures Contents == if 0 <= position < old(size) then Deleted(old(Contents), position) else old(Contents)
      ensures spine == if 0 <= position < old(size) then Deleted(old(spine), position + 1) else old(spine)
    {
      var current := header.next;
      var i := 0;
      if position == 0 {
        UnlinkBehind(0, header);
        return 0;
      }
      while current != null
        invariant 0 <= i <= size && (position > 0 ==> i < position)
        invariant current == if i < size then spine[i + 1] else null
        invariant unchanged(this) && unchanged(spine)
        decreases size - i
      {
        if i == position - 1 {
          UnlinkBehind(position, current);
          return 0;
        }
        current := current.next;
        i := i + 1;
      }
      return -1;
    }

    /** The element at `position`; `queue_retreive` answers a request of length 0 when there is none. */
    method Retrieve(position: int) returns (result: Option<Request>)
      requires Valid()
      ensures result == if 0 <= position < size then Some(Contents[position]) else None
    {
      var current := header.next;
      var i := 0;
      while current != null
        invariant 0 <= i <= size && (position >= 0 ==> i <= position)
        invariant current == if i < size then spine[i + 1] else null
        decreases size - i
      {
        if i == position {
          return Some(current.element);
        }
        current := current.next;
        i := i + 1;
      }
      return None;
    }

    method Push(element: Request)
      requires Valid()
      modifies this, spine
      ensures Valid() && Contents == old(Contents) + [element]
      ensures fresh(set n | n in spine && n !in old(spine))
    {
      Insert(element, size);
    }

    method Pop() returns (result: Request)
      requires Valid() && Contents != []
      modifies this, spine
      ensures Valid() && old(Contents) == [result] + Contents
      ensures forall k :: 0 <= k < |spine| ==> spine[k] in old(spine)
    {
      var first := Retrieve(0);
      var code := Delete(0);
      result := first.value;
    }

    method Empty()
      requires Valid()
      modifies this, spine
      ensures Valid() && Contents == []
      ensures forall k :: 0 <= k < |spine| ==> spine[k] in old(spine)
    {
      while size != 0
        invariant Valid() && forall k :: 0 <= k < |spine| ==> spine[k] in old(spine)
        decreases size
      {
        ghost var before := spine;
        var code := Delete(0);
        assert forall k :: 0 <= k < |spine| ==> spine[k] == before[if k == 0 then 0 else k + 1];
      }
    }

    method IsEmpty() returns (empty: bool)
      requires Valid()
      ensures empty <==> Contents == []
    {
      empty := header.next == null;
      assert size > 0 ==> spine[0].next == spine[1];
    }
  }
}
