/** The intrusive doubly linked list: rings of nodes, one node of each ring being a list's head. */
module IntrusiveList {
  import opened Sequences

  ghost predicate Mutual(heap: set<ListNode>, n: ListNode)
    requires n in heap
    reads heap
  {
    n.next in heap && n.prev in heap && n.next.prev == n && n.prev.next == n
  }

  /** Any collection of well-formed rings: `next` and `prev` are mutually inverse on it. */
  ghost predicate Rings(heap: set<ListNode>)
    reads heap
  {
    forall n {:trigger Mutual(heap, n)} | n in heap :: Mutual(heap, n)
  }

  ghost function Nodes(s: seq<ListNode>): set<ListNode> {
    set n | n in s
  }

  ghost function Successor(s: seq<ListNode>, i: nat): ListNode
    requires i < |s|
  {
    if i + 1 < |s| then s[i + 1] else s[0]
  }

  ghost predicate Follows(s: seq<ListNode>, i: nat)
    requires i < |s|
    reads s[i], Successor(s, i)
  {
    s[i].next == Successor(s, i) && Successor(s, i).prev == s[i]
  }

  /** The ring that, read from its first node, is the sequence `s`. */
  ghost predicate Ring(s: seq<ListNode>)
    reads s
  {
    s != [] && NoDup(s) && forall i | 0 <= i < |s| :: Follows(s, i)
  }

  class ListNode {
    var prev: ListNode
    var next: ListNode

    constructor ()
      ensures Ring([this])
    {
      prev, next := this, this;
    }

    predicate IsLinked()
      reads this
    {
      this != next
    }

    /** For any two nodes of any rings, exchanges what comes before them. */
    method LinkNext(x: ListNode, ghost heap: set<ListNode>)
      requires Rings(heap) && this in heap && x in heap
      modifies this`prev, x`prev, this.prev`next, x.prev`next
      ensures Rings(heap)
      ensures prev == old(x.prev) && x.prev == old(prev)
      ensures old(prev).next == x && old(x.prev).next == this
    {
      assert Mutual(heap, this) && Mutual(heap, x);
      var newPrev := x.prev;
      x.prev := prev;
      newPrev.next := this;
      prev.next := x;
      prev := newPrev;
      forall n | n in heap ensures Mutual(heap, n) {
        assert old(Mutual(heap, n)) && old(Mutual(heap, n.next));
      }
    }

    /** Two applications of `LinkNext` restore every pointer. */
    method LinkNextTwice(x: ListNode, ghost heap: set<ListNode>)
      requires Rings(heap) && this in heap && x in heap
      modifies heap
      ensures forall n | n in heap :: n.next == old(n.next) && n.prev == old(n.prev)
    {
      assert Mutual(heap, this) && Mutual(heap, x);
      LinkNext(x, heap);
      assert Mutual(heap, this) && Mutual(heap, x);
      LinkNext(x, heap);
    }

    /** On nodes of two different rings `LinkNext` joins the rings. */
    method LinkNextJoins(x: ListNode, ghost s: seq<ListNode>, ghost t: seq<ListNode>)
      requires Ring(s) && Ring(t) && s[0] == this && t[0] == x && forall n | n in s :: n !in t
      modifies this`prev, x`prev, this.prev`next, x.prev`next
      ensures Ring(s + t)
    {
      RingsOfTwo(s, t);
      assert Follows(s, |s| - 1) && Follows(t, |t| - 1);
      assert NoDup(s + t) by {
        forall i, j | 0 <= i < j < |s + t| ensures (s + t)[i] != (s + t)[j] {
          assert i < |s| <= j ==> s[i] in s && t[j - |s|] in t;
        }
      }
      LinkNext(x, Nodes(s + t));
      forall i | 0 <= i < |s + t| ensures Follows(s + t, i) {
        assert if i < |s| then old(Follows(s, i)) else old(Follows(t, i - |s|));
      }
    }

    /** On two nodes of one ring `LinkNext` splits the ring in two. */
    method LinkNextSplits(x: ListNode, ghost s: seq<ListNode>, ghost k: nat)
      requires Ring(s) && s[0] == this && 0 < k < |s| && s[k] == x
      modifies this`prev, x`prev, this.prev`next, x.prev`next
      ensures Ring(s[..k]) && Ring(s[k..])
    {
      RingsOfRing(s);
      assert Follows(s, |s| - 1) && Follows(s, k - 1);
      LinkNext(x, Nodes(s));
      forall i | 0 <= i < k ensures Follows(s[..k], i) { assert old(Follows(s, i)); }
      forall i | 0 <= i < |s| - k ensures Follows(s[k..], i) { assert old(Follows(s, k + i)); }
    }

    /** Takes the node at position `i` out of the ring `s`; it becomes a ring of its own. */
    method Unlink(ghost s: seq<ListNode>, ghost i: nat)
      requires Ring(s) && i < |s| && s[i] == this
      modifies this, this.prev`next, this.next`prev
      ensures Ring([this])
      ensures 1 < |s| ==> Ring(s[..i] + s[i + 1..])
      ensures this !in s[..i] + s[i + 1..]
    {
      assert Follows(s, i) && Follows(s, if 0 < i then i - 1 else |s| - 1);
      prev.next := next;
      next.prev := prev;
      next := this;
      prev := this;
      ghost var d := s[..i] + s[i + 1..];
      forall j | 0 <= j < |d| ensures Follows(d, j) {
        assert old(Follows(s, if j < i then j else j + 1));
      }
    }
  }

  lemma RingsOfRing(s: seq<ListNode>)
    requires Ring(s)
    ensures Rings(Nodes(s))
  {
    forall n | n in s ensures Mutual(Nodes(s), n) {
      var i :| 0 <= i < |s| && s[i] == n;
      assert Follows(s, i) && Follows(s, if 0 < i then i - 1 else |s| - 1);
    }
  }

  lemma RingsOfTwo(s: seq<ListNode>, t: seq<ListNode>)
    requires Ring(s) && Ring(t)
    ensures Rings(Nodes(s + t))
  {
    RingsOfRing(s);
    RingsOfRing(t);
    forall n | n in Nodes(s + t) ensures Mutual(Nodes(s + t), n) {
      assert if n in s then Mutual(Nodes(s), n) else Mutual(Nodes(t), n);
    }
  }

  /** A list: the ring read from its head node is the head followed by the elements. */
  class IntrusiveList {
    const head: ListNode
    ghost var elements: seq<ListNode>

    ghost predicate Valid()
      reads this, head, elements
    {
      Ring([head] + elements)
    }

    constructor ()
      ensures Valid() && elements == [] && fresh(head)
    {
      head := new ListNode();
      elements := [];
      new;
      assert [head] + [] == [head];
    }

    method IsEmpty() returns (r: bool)
      requires Valid()
      ensures r <==> elements == []
    {
      assert Follows([head] + elements, 0);
      r := !head.IsLinked();
    }

    /** Appends `x` and, when `x` stands in another ring, the rest of that ring after it; an
        unlinked node is the ring `[x]`. */
    method PushBack(x: ListNode, ghost ring: seq<ListNode>)
      requires Valid() && Ring(ring) && ring[0] == x && forall n | n in ring :: n !in [head] + elements
      modifies `elements, head`prev, x`prev, head.prev`next, x.prev`next
      ensures Valid() && elements == old(elements) + ring
    {
      head.LinkNextJoins(x, [head] + elements, ring);
      elements := elements + ring;
      assert [head] + elements == [head] + old(elements) + ring;
    }

    /** Removes the element at position `i`. */
    method Remove(x: ListNode, ghost i: nat)
      requires Valid() && i < |elements| && elements[i] == x
      modifies `elements, x, x.prev`next, x.next`prev
      ensures Valid() && elements == old(elements[..i] + elements[i + 1..]) && Ring([x]) && x !in [head] + elements
    {
      ghost var s := [head] + elements;
      x.Unlink(s, i + 1);
      elements := elements[..i] + elements[i + 1..];
      assert s[..i + 1] + s[i + 2..] == [head] + elements;
    }

    method PopFront() returns (x: ListNode)
      requires Valid() && elements != []
      modifies `elements, head.next, head, head.next.next`prev
      ensures x == old(elements)[0] && Valid() && elements == old(elements)[1..] && Ring([x])
    {
      x := head.next;
      assert Follows([head] + elements, 0);
      Remove(x, 0);
    }

    method PopBack() returns (x: ListNode)
      requires Valid() && elements != []
      modifies `elements, head.prev, head, head.prev.prev`next
      ensures var n := |old(elements)| - 1;
              && x == old(elements)[n] && Valid() && elements == old(elements)[..n]
              && Ring([x])
    {
      x := head.prev;
      assert Follows([head] + elements, |elements|);
      Remove(x, |elements| - 1);
    }

    /** The range-for loop: an iterator holds the node after the one it stands on. */
    method Traverse() returns (visited: seq<ListNode>)
      requires Valid()
      ensures visited == elements
    {
      visited := [];
      ghost var s := [head] + elements;
      assert Follows(s, 0);
      var iter, end := head.next.next, head.next;
      assert 1 < |s| ==> Follows(s, 1);
      while iter != end
        invariant |visited| <= |elements| && visited == elements[..|visited|]
        invariant iter == if |visited| == |elements| then end else Successor(s, |visited| + 1)
        decreases |elements| - |visited|
      {
        assert Follows(s, |visited| + 1);
        visited := visited + [iter.prev];
        assert |visited| < |elements| ==> Follows(s, |visited| + 1);
        iter := iter.next;
      }
    }
  }

  ghost predicate Apart(a: IntrusiveList, b: IntrusiveList)
    reads a, b
  {
    a != b && forall n | n in [a.head] + a.elements :: n !in [b.head] + b.elements
  }

  /** Moving an element from one list to the back of another, as the scheduler's queues do, leaves
      any third list alone. */
  method Requeue(x: ListNode, src: IntrusiveList, ghost i: nat, dst: IntrusiveList, ghost other: IntrusiveList)
    requires src.Valid() && dst.Valid() && other.Valid() && Apart(src, dst) && Apart(src, other) && Apart(dst, other)
    requires i < |src.elements| && src.elements[i] == x
    modifies src`elements, dst`elements, x, x.prev`next, x.next`prev, dst.head`prev, dst.head.prev`next
    ensures src.Valid() && src.elements == old(src.elements[..i] + src.elements[i + 1..])
    ensures dst.Valid() && dst.elements == old(dst.elements) + [x]
    ensures other.Valid() && other.elements == old(other.elements)
  {
    ghost var s, d, o := [src.head] + src.elements, [dst.head] + dst.elements, [other.head] + other.elements;
    assert x == s[i + 1] && s[i + 1] in s;
    assert x.prev in s && x.next in s && dst.head in d && dst.head.prev in d by {
      assert Follows(s, i) && Follows(s, i + 1) && Follows(d, |d| - 1);
    }
    src.Remove(x, i);
    assert dst.Valid() && other.Valid();
    assert x.prev == x by { assert Follows([x], 0); }
    ghost var r := [src.head] + src.elements;
    assert forall n | n in r :: n in s;
    dst.PushBack(x, [x]);
  }
}
