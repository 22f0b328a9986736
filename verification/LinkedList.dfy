/** The kernel's singly linked list: a head sentinel, a tail sentinel, and nodes relinked in place. */
module LinkedList {

  class Node {
    var next: Node?
    var data: int

    constructor (next: Node?, data: int)
      ensures this.next == next && this.data == data
    {
      this.next, this.data := next, data;
    }
  }

  /** The nodes in `s` are linked one to the next, and all different. */
  ghost predicate Linked(s: seq<Node>)
    reads s
  {
    && (forall i :: 0 <= i < |s| - 1 ==> s[i].next == s[i + 1])
    && Distinct(s)
  }

  ghost predicate Distinct(s: seq<Node>) {
    forall i, j :: 0 <= i < j < |s| ==> s[i] != s[j]
  }

  lemma {:induction false} DistinctInsert(s: seq<Node>, i: int, n: Node)
    requires Distinct(s) && n !in s && 0 <= i <= |s|
    ensures Distinct(s[..i] + [n] + s[i..])
  {
    var t := s[..i] + [n] + s[i..];
    forall x, y | 0 <= x < y < |t| ensures t[x] != t[y] {
      assert t[x] == if x < i then s[x] else if x == i then n else s[x - 1];
      assert t[y] == if y < i then s[y] else if y == i then n else s[y - 1];
    }
  }

  class List {
    var head: Node
    var tail: Node
    var length: int
    ghost var spine: seq<Node>     // all nodes, sentinels included

    ghost predicate Valid()
      reads this, spine
    {
      && |spine| >= 2 && spine[0] == head && spine[|spine| - 1] == tail && tail.next == null
      && Linked(spine) && length == |spine| - 2
    }

    /** The values of the list: what the nodes between the sentinels hold. */
    ghost function Contents(): seq<int>
      requires |spine| >= 2
      reads this, spine
    {
      seq(|spine| - 2, i requires 0 <= i < |spine| - 2 reads this, spine => spine[i + 1].data)
    }

    /** Links two fresh sentinels. */
    constructor ()
      ensures Valid() && Contents() == [] && fresh(spine)
    {
      var t := new Node(null, 0);
      var h := new Node(t, 0xdead);
      head, tail, length, spine := h, t, 0, [h, t];
    }

    /** list_push; `memory` says whether malloc finds room, here and below. */
    method Push(val: int, memory: bool) returns (node: Node?)
      requires Valid()
      modifies this, spine
      ensures Valid() && (node == null <==> !memory)
      ensures node == null ==> spine == old(spine) && Contents() == old(Contents())
      ensures node != null ==> fresh(node) && spine == [old(head), node] + old(spine)[1..]
      ensures node != null ==> Contents() == [val] + old(Contents())
    {
      if !memory {
        return null;
      }
      node := new Node(head.next, val);
      head.next := node;
      length := length + 1;
      spine := [head, node] + spine[1..];
    }

    /** The value goes into the old tail sentinel, and a fresh node takes over as sentinel. */
    method PushBack(val: int, memory: bool) returns (last: Node?)
      requires Valid()
      modifies this, spine
      ensures Valid() && (last == null <==> !memory)
      ensures last == null ==> spine == old(spine) && Contents() == old(Contents())
      ensures last != null ==> last == old(tail) && fresh(tail) && spine == old(spine) + [tail]
      ensures last != null ==> Contents() == old(Contents()) + [val]
    {
      if !memory {
        return null;
      }
      var node := new Node(null, 0);
      last := tail;
      tail.next := node;
      tail.data := val;
      tail := node;
      length := length + 1;
      spine := spine + [node];
    }

    method Pop() returns (val: int)
      requires Valid()
      modifies this, spine
      ensures Valid()
      ensures old(Contents()) == [] ==> val == 0 && spine == old(spine) && Contents() == []
      ensures old(Contents()) != [] ==> [val] + Contents() == old(Contents()) && spine == [old(head)] + old(spine)[2..]
    {
      assert spine[0].next == spine[1];
      assert |spine| == 2 || spine[1].next == spine[2];
      if head.next.next == null {
        return 0;
      }
      var node := head.next;
      val := node.data;
      head.next := node.next;
      length := length - 1;
      spine := [head] + spine[2..];
    }

    method PopBack() returns (val: int)
      requires Valid()
      modifies this, spine
      ensures Valid()
      ensures old(Contents()) == [] ==> val == 0 && spine == old(spine) && Contents() == []
      ensures old(Contents()) != [] ==>
                Contents() + [val] == old(Contents()) && spine == old(spine)[..|old(spine)| - 2] + [old(tail)]
    {
      assert spine[0].next == spine[1];
      assert |spine| == 2 || spine[1].next == spine[2];
      if head.next.next == null {
        return 0;
      }
      var last := head;
      ghost var k := 0;
      assert |spine| == 3 || spine[2].next == spine[3];
      while last.next.next.next != null
        invariant 0 <= k < |spine| - 2 && last == spine[k] && last.next == spine[k + 1]
                  && spine[k + 1].next == spine[k + 2]
        invariant spine[k + 2].next == if k + 3 < |spine| then spine[k + 3] else null
        decreases |spine| - k
      {
        last := last.next;
        k := k + 1;
        assert spine[k + 2].next == if k + 3 < |spine| then spine[k + 3] else null;
      }
      val := last.next.data;
      last.next := tail;
      length := length - 1;
      spine := spine[..k + 1] + [tail];
    }

    /** Walks to the predecessor of node number `i`. */
    method Before(node: Node, ghost i: int) returns (last: Node)
      requires Valid() && 0 < i < |spine| && spine[i] == node
      ensures last == spine[i - 1]
    {
      last := head;
      ghost var k := 0;
      assert spine[0].next == spine[1];
      while last.next != node
        invariant 0 <= k < i && last == spine[k] && last.next == spine[k + 1]
        decreases i - k
      {
        last := last.next;
        k := k + 1;
        assert spine[k].next == spine[k + 1];
      }
    }

    /** list_remove of the node number `i`; the sentinels are refused. */
    method Remove(node: Node, ghost i: int) returns (val: int)
      requires Valid() && 0 <= i < |spine| && spine[i] == node
      modifies this, spine
      ensures Valid()
      ensures i == 0 || i == |old(spine)| - 1 ==> val == 0 && spine == old(spine) && Contents() == old(Contents())
      ensures 0 < i < |old(spine)| - 1 ==> spine == old(spine)[..i] + old(spine)[i + 1..]
      ensures 0 < i < |old(spine)| - 1 ==>
                val == old(Contents())[i - 1] && Contents() == old(Contents())[..i - 1] + old(Contents())[i..]
    {
      if node == head || node == tail {
        return 0;
      }
      val := node.data;
      var last := Before(node, i);
      assert spine[i].next == spine[i + 1];
      last.next := node.next;
      length := length - 1;
      spine := spine[..i] + spine[i + 1..];
    }

    /** The first node becomes the tail sentinel, and its value goes into the old one. */
    method Rotate() returns (last: Node?)
      requires Valid()
      modifies this, spine
      ensures Valid() && length == old(length)
      ensures old(Contents()) == [] ==> last == null && spine == old(spine) && Contents() == []
      ensures old(Contents()) != [] ==>
                && last == old(tail) && Contents() == old(Contents())[1..] + [old(Contents())[0]]
                && spine == [old(head)] + old(spine)[2..] + [old(spine)[1]]
    {
      assert spine[0].next == spine[1];
      assert |spine| == 2 || spine[1].next == spine[2];
      if head.next.next == null {
        return null;
      }
      var node := head.next;
      head.next := node.next;
      last := tail;
      tail.next := node;
      tail.data := node.data;
      tail := node;
      node.data := 0;
      node.next := null;
      ghost var s := spine;
      spine := [head] + s[2..] + [node];
      assert forall k :: 0 <= k < |spine| ==> spine[k] == if k == 0 then s[0] else if k == |s| - 1 then s[1]
             else s[k + 1];
    }

    /** The tail end of list_move: a node from elsewhere becomes the tail sentinel. */
    method Adopt(node: Node, val: int)
      requires Valid() && node !in spine
      modifies this, tail, node
      ensures Valid() && head == old(head) && spine == old(spine) + [node] && Contents() == old(Contents()) + [val]
    {
      assert forall k :: 0 <= k < |spine| - 1 ==> spine[k] != tail;
      node.next := null;
      tail.next := node;
      tail.data := val;
      tail := node;
      node.data := 0;
      length := length + 1;
      spine := spine + [node];
    }

    /** list_insert after node number `i`; nothing can follow the tail sentinel. */
    method Insert(prev: Node, val: int, memory: bool, ghost i: int) returns (node: Node?)
      requires Valid() && 0 <= i < |spine| && spine[i] == prev
      modifies this, spine
      ensures Valid() && (node == null <==> !memory || i == |old(spine)| - 1)
      ensures node == null ==> spine == old(spine) && Contents() == old(Contents())
      ensures node != null ==>
                && fresh(node) && spine == old(spine)[..i + 1] + [node] + old(spine)[i + 1..]
                && Contents() == old(Contents())[..i] + [val] + old(Contents())[i..]
    {
      if !memory {
        return null;
      }
      assert i < |spine| - 1 ==> prev.next == spine[i + 1];
      node := new Node(prev.next, val);
      if prev.next == null {
        return null;
      }
      Splice(prev, node, i);
    }

    /** Links a node that already points at the successor of node number `i` behind it. */
    method Splice(prev: Node, node: Node, ghost i: int)
      requires Valid() && 0 <= i < |spine| - 1 && spine[i] == prev && node !in spine && node.next == spine[i + 1]
      modifies this, prev
      ensures Valid() && head == old(head) && spine == old(spine)[..i + 1] + [node] + old(spine)[i + 1..]
      ensures Contents() == old(Contents())[..i] + [node.data] + old(Contents())[i..]
    {
      ghost var s := spine;
      DistinctInsert(s, i + 1, node);
      prev.next := node;
      length := length + 1;
      spine := s[..i + 1] + [node] + s[i + 1..];
      assert forall k :: 0 <= k <= i ==> spine[k] == s[k];
      assert spine[i + 1] == node;
      assert forall k :: i + 1 < k < |spine| ==> spine[k] == s[k - 1];
      assert Contents() == old(Contents())[..i] + [node.data] + old(Contents())[i..];
    }

    /** list_insert_sorted: before the first value of strictly lower priority. */
    method InsertSorted(val: int, priority: int -> int) returns (ghost at: int)
      requires Valid()
      modifies this, spine
      ensures Valid() && 0 <= at <= |old(Contents())|
      ensures Contents() == old(Contents())[..at] + [val] + old(Contents())[at..]
      ensures forall j :: 0 <= j < at ==> priority(old(Contents())[j]) >= priority(val)
      ensures at < |old(Contents())| ==> priority(old(Contents())[at]) < priority(val)
    {
      var current := head;
      at := 0;
      assert spine[0].next == spine[1];
      while current.next != tail && priority(current.next.data) >= priority(val)
        invariant 0 <= at < |spine| - 1 && current == spine[at] && current.next == spine[at + 1]
        invariant forall j :: 0 < j <= at ==> priority(spine[j].data) >= priority(val)
        decreases |spine| - at
      {
        current := current.next;
        at := at + 1;
        assert spine[at].next == spine[at + 1];
      }
      var node := Insert(current, val, true, at);
    }

    /** list_index */
    method Index(idx: int) returns (node: Node?)
      requires Valid()
      ensures node == if 0 <= idx <= length then spine[idx + 1] else null
    {
      if idx < 0 {
        return null;
      }
      assert spine[0].next == spine[1];
      node := head.next;
      var i := 0;
      while node != null && i < idx
        invariant 0 <= i <= idx && node == if i + 1 < |spine| then spine[i + 1] else null
      {
        assert i + 2 < |spine| ==> spine[i + 1].next == spine[i + 2];
        node := node.next;
        i := i + 1;
      }
    }
  }

  ghost predicate Descending(s: seq<int>, priority: int -> int) {
    forall i, j :: 0 <= i < j < |s| ==> priority(s[i]) >= priority(s[j])
  }

  /** Sorted insertion keeps a list sorted, and puts the value after all of its own priority. */
  lemma {:induction false} SortedInsertion(s: seq<int>, val: int, at: int, priority: int -> int)
    requires Descending(s, priority) && 0 <= at <= |s|
    requires forall j :: 0 <= j < at ==> priority(s[j]) >= priority(val)
    requires at < |s| ==> priority(s[at]) < priority(val)
    ensures Descending(s[..at] + [val] + s[at..], priority)
    ensures forall j :: 0 <= j < |s| && priority(s[j]) == priority(val) ==> j < at
  {
    var t := s[..at] + [val] + s[at..];
    forall i, j | 0 <= i < j < |t| ensures priority(t[i]) >= priority(t[j]) {
      assert t[i] == if i < at then s[i] else if i == at then val else s[i - 1];
      assert t[j] == if j < at then s[j] else if j == at then val else s[j - 1];
      assert j > at ==> at < |s| && priority(s[at]) >= priority(s[j - 1]);
    }
  }

  /** list_create: the three flags say which of its allocations find room. */
  method Create(list: bool, head: bool, tail: bool) returns (l: List?)
    ensures l == null <==> !list || !head || !tail
    ensures l != null ==> fresh(l) && fresh(l.spine) && l.Valid() && l.Contents() == []
  {
    if !list || !head || !tail {
      return null;
    }
    l := new List();
  }

  /** list_move: the node leaves `src` and becomes the tail sentinel of `dst`, whose old sentinel
      takes its value. Within one list this sends the value to the end. */
  method Move(dst: List, src: List, node: Node, ghost i: int) returns (val: int)
    requires dst.Valid() && src.Valid() && (dst == src || forall n :: n in dst.spine ==> n !in src.spine)
    requires 0 < i < |src.spine| && src.spine[i] == node
    modifies dst, src, dst.spine, src.spine
    ensures dst.Valid() && src.Valid() && (dst == src || forall n :: n in dst.spine ==> n !in src.spine)
    ensures i == |old(src.spine)| - 1 ==>
              && val == 0 && src.spine == old(src.spine) && dst.spine == old(dst.spine)
              && src.Contents() == old(src.Contents()) && dst.Contents() == old(dst.Contents())
    ensures i < |old(src.spine)| - 1 ==> val == old(src.Contents())[i - 1]
    ensures i < |old(src.spine)| - 1 && dst != src ==>
              && dst.Contents() == old(dst.Contents()) + [val]
              && src.Contents() == old(src.Contents())[..i - 1] + old(src.Contents())[i..]
              && src.spine == old(src.spine)[..i] + old(src.spine)[i + 1..] && dst.spine == old(dst.spine) + [node]
    ensures i < |old(src.spine)| - 1 && dst == src ==>
              && src.Contents() == old(src.Contents())[..i - 1] + old(src.Contents())[i..] + [val]
              && src.spine == old(src.spine)[..i] + old(src.spine)[i + 1..] + [node]
  {
    assert i < |src.spine| - 1 ==> src.spine[i].next == src.spine[i + 1];
    if node.next == null {
      return 0;
    }
    assert dst == src || forall k :: 0 <= k < |dst.spine| ==> dst.spine[k] !in src.spine;
    val := src.Remove(node, i);
    assert node !in src.spine && node !in dst.spine;
    dst.Adopt(node, val);
  }
}
