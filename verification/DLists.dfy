/** dlist.c: a doubly linked list. The reserved and the buried lists are such lists. */
module DLists {
  import opened Lists

  class Node<T> {
    var prev: Node?<T>
    var next: Node?<T>
    const value: T

    constructor (value: T)
      ensures this.value == value && prev == null && next == null
    {
      this.value := value;
      prev, next := null, null;
    }
  }

  function ValuesOf<T>(nodes: seq<Node<T>>): (r: seq<T>)
    ensures |r| == |nodes|
  {
    seq(|nodes|, i requires 0 <= i < |nodes| => nodes[i].value)
  }

  lemma ValuesInserted<T>(nodes: seq<Node<T>>, at: nat, node: Node<T>)
    requires at <= |nodes|
    ensures ValuesOf(nodes[..at] + [node] + nodes[at..]) == ValuesOf(nodes)[..at] + [node.value] + ValuesOf(nodes)[at..]
  {}

  lemma ValuesCut<T>(nodes: seq<Node<T>>, i: nat)
    requires i < |nodes|
    ensures ValuesOf(nodes[..i] + nodes[i + 1..]) == ValuesOf(nodes)[..i] + ValuesOf(nodes)[i + 1..]
  {}

  class DList<T(==)> {
    var head: Node?<T>
    var tail: Node?<T>
    var len: nat
    /** The nodes from head to tail. */
    ghost var nodes: seq<Node<T>>

    ghost predicate Linked(i: nat)
      requires i < |nodes|
      reads this, nodes
    {
      && nodes[i].prev == (if i == 0 then null else nodes[i - 1])
      && nodes[i].next == (if i == |nodes| - 1 then null else nodes[i + 1])
    }

    ghost predicate Valid()
      reads this, nodes
    {
      && len == |nodes|
      && head == (if nodes == [] then null else nodes[0])
      && tail == (if nodes == [] then null else nodes[|nodes| - 1])
      && (forall i, j :: 0 <= i < j < |nodes| ==> nodes[i] != nodes[j])
      && (forall i :: 0 <= i < |nodes| ==> Linked(i))
    }

    ghost function Values(): seq<T>
      reads this
    {
      ValuesOf(nodes)
    }

    constructor ()
      ensures Valid() && nodes == []
    {
      head, tail, len, nodes := null, null, 0, [];
    }

    /** dlist_add_node_head. */
    method AddHead(value: T)
      requires Valid()
      modifies this, nodes
      ensures Valid() && Values() == [value] + old(Values())
      ensures |nodes| == |old(nodes)| + 1 && fresh(nodes[0]) && nodes[1..] == old(nodes)
    {
      var node := new Node(value);
      if len == 0 {
        head, tail := node, node;
      } else {
        node.next := head;
        head.prev := node;
        head := node;
      }
      len := len + 1;
      nodes := [node] + nodes;
      forall i | 0 <= i < |nodes| ensures Linked(i) {
        if i > 0 { assert old(Linked(i - 1)); }
      }
    }

    /** dlist_add_node_tail. */
    method AddTail(value: T)
      requires Valid()
      modifies this, nodes
      ensures Valid() && Values() == old(Values()) + [value]
      ensures |nodes| == |old(nodes)| + 1 && fresh(nodes[|nodes| - 1]) && nodes[..|nodes| - 1] == old(nodes)
    {
      var node := new Node(value);
      if len == 0 {
        head, tail := node, node;
      } else {
        node.prev := tail;
        tail.next := node;
        tail := node;
      }
      len := len + 1;
      nodes := nodes + [node];
      forall i | 0 <= i < |nodes| ensures Linked(i) {
        if i < |nodes| - 1 { assert old(Linked(i)); }
      }
    }

    /** The second half of dlist_insert_node: the neighbours of a new node learn about it. */
    method Splice(node: Node<T>, ghost at: nat)
      requires len == |nodes| && at <= |nodes| && node !in nodes
      requires forall i, j :: 0 <= i < j < |nodes| ==> nodes[i] != nodes[j]
      requires forall i :: 0 <= i < |nodes| ==> Linked(i)
      requires node.prev == (if at == 0 then null else nodes[at - 1])
      requires node.next == (if at == |nodes| then null else nodes[at])
      requires head == (if at == 0 then node else nodes[0])
      requires tail == (if at == |nodes| then node else nodes[|nodes| - 1])
      modifies this`len, this`nodes, nodes
      ensures Valid() && nodes == old(nodes)[..at] + [node] + old(nodes)[at..]
    {
      ghost var was := nodes;
      if node.prev != null { node.prev.next := node; }
      if node.next != null { node.next.prev := node; }
      len := len + 1;
      nodes := was[..at] + [node] + was[at..];
      forall k | 0 <= k < |nodes| ensures Linked(k) {
        if k < at { assert old(Linked(k)); }
        if k > at { assert old(Linked(k - 1)); }
      }
    }

    /** dlist_insert_node: after or before a node of the list. */
    method InsertNode(where: Node<T>, value: T, after: bool, ghost i: nat)
      requires Valid() && i < |nodes| && nodes[i] == where
      modifies this, nodes
      ensures Valid()
      ensures var at := if after then i + 1 else i;
              Values() == old(Values())[..at] + [value] + old(Values())[at..]
    {
      hide ValuesOf;
      assert Linked(i);
      var node := new Node(value);
      ValuesInserted(nodes, if after then i + 1 else i, node);
      if after {
        node.prev := where;
        node.next := where.next;
        if tail == where { tail := node; }
      } else {
        node.next := where;
        node.prev := where.prev;
        if head == where { head := node; }
      }
      assert forall k :: 0 <= k < |nodes| ==> old(Linked(k)) ==> Linked(k);
      Splice(node, if after then i + 1 else i);
    }

    /** dlist_delete_node. */
    method DeleteNode(node: Node<T>, ghost i: nat)
      requires Valid() && i < |nodes| && nodes[i] == node
      modifies this, nodes
      ensures Valid() && nodes == old(nodes)[..i] + old(nodes)[i + 1..]
      ensures Values() == old(Values())[..i] + old(Values())[i + 1..]
    {
      hide ValuesOf;
      ghost var was := nodes;
      ValuesCut(nodes, i);
      assert Linked(i);
      if node.prev != null {
        node.prev.next := node.next;
      } else {
        head := node.next;
      }
      if node.next != null {
        node.next.prev := node.prev;
      } else {
        tail := node.prev;
      }
      len := len - 1;
      nodes := was[..i] + was[i + 1..];
      forall k | 0 <= k < |nodes| ensures Linked(k) {
        assert old(Linked(if k < i then k else k + 1));
      }
    }

    /** dlist_search_key: an iterator walks from the head and stops at the first match. */
    method SearchKey(key: T) returns (node: Node?<T>, ghost at: nat)
      requires Valid()
      ensures (node != null <==> key in Values()) && (node != null ==> node.value == key)
      ensures at == Find(Values(), key)
      ensures if key in Values() then at < |nodes| && node == nodes[at] else node == null
    {
      node, at := head, 0;
      while node != null
        invariant at <= |nodes| && key !in Values()[..at]
        invariant node == if at < |nodes| then nodes[at] else null
        decreases |nodes| - at
      {
        assert Linked(at) && Values()[at] == node.value;
        if key == node.value {
          FirstHit(Values(), key, at);
          return;
        }
        node := node.next;
        at := at + 1;
      }
      FirstHit(Values(), key, at);
    }

    /** Search and delete: what remove_reserved_job does with the reserved list. */
    method RemoveKey(key: T) returns (found: bool)
      requires Valid()
      modifies this, nodes
      ensures Valid() && found == (key in old(Values())) && Values() == Unlink(old(Values()), key)
    {
      var node, at := SearchKey(key);
      if node == null {
        return false;
      }
      DeleteNode(node, at);
      return true;
    }
  }
}
