/** The circular doubly linked list, relinked in place, against the sequence of its members. */
module FtList {

  const OK: int := 1
  const FAILURE: int := -1
  const INVALID_ARGS: int := -2

  class Item {
    var next: Item?
    var prev: Item?
  }

  function After(n: nat, i: nat): (k: nat)
    requires i < n
    ensures k < n
  {
    if i + 1 < n then i + 1 else 0
  }

  function Before(n: nat, i: nat): (k: nat)
    requires i < n
    ensures k < n
  {
    if i == 0 then n - 1 else i - 1
  }

  /** The members in order from the head, each linked to its neighbours, the last to the first. */
  ghost predicate Circle(head: Item?, items: seq<Item>)
    reads items
  {
    && head == (if items == [] then null else items[0])
    && (forall i, j | 0 <= i < j < |items| :: items[i] != items[j])
    && (forall i {:trigger items[i].next} | 0 <= i < |items| :: items[i].next == items[After(|items|, i)])
    && (forall i {:trigger items[i].prev} | 0 <= i < |items| :: items[i].prev == items[Before(|items|, i)])
  }

  /** Where a member stands, or the length. */
  function IndexOf<T(==)>(s: seq<T>, x: T): (i: nat)
    ensures i <= |s| && x !in s[..i] && (i < |s| ==> s[i] == x)
    ensures i == |s| <==> x !in s
  {
    if s == [] then 0 else if s[0] == x then 0 else 1 + IndexOf(s[1..], x)
  }

  /** What is left when one member is taken out. */
  lemma RestMembers(items: seq<Item>, i: nat)
    requires i < |items| && forall j, k | 0 <= j < k < |items| :: items[j] != items[k]
    ensures var rest := items[..i] + items[i + 1..];
      forall k | 0 <= k < |rest| :: rest[k] == items[if k < i then k else k + 1] && rest[k] != items[i]
  {
  }

  /** The links past one member close the circle of the others. */
  lemma CircleWithout(head: Item?, items: seq<Item>, i: nat)
    requires |items| > 1 && i < |items|
    requires forall j, k | 0 <= j < k < |items| :: items[j] != items[k]
    requires head == if i == 0 then items[1] else items[0]
    requires forall j {:trigger items[j].next} | 0 <= j < |items| && j != i ::
      items[j].next == items[if After(|items|, j) == i then After(|items|, i) else After(|items|, j)]
    requires forall j {:trigger items[j].prev} | 0 <= j < |items| && j != i ::
      items[j].prev == items[if Before(|items|, j) == i then Before(|items|, i) else Before(|items|, j)]
    ensures Circle(head, items[..i] + items[i + 1..])
  {
    var rest := items[..i] + items[i + 1..];
    RestMembers(items, i);
    forall k | 0 <= k < |rest|
      ensures rest[k].next == rest[After(|rest|, k)] && rest[k].prev == rest[Before(|rest|, k)]
    {
      var j := if k < i then k else k + 1;
      assert rest[k] == items[j];
    }
  }

  /** In a sequence without repetitions a member has one index. */
  lemma {:induction false} IndexIs<T>(s: seq<T>, i: nat)
    requires i < |s| && s[i] !in s[..i]
    ensures IndexOf(s, s[i]) == i
  {
    if i > 0 {
      assert s[0] in s[..i];
      assert s[1..][..i - 1] == s[..i][1..];
      IndexIs(s[1..], i - 1);
    }
  }

  class List {
    var head: Item?
    ghost var items: seq<Item>

    ghost predicate Valid()
      reads this, items
    {
      Circle(head, items)
    }

    constructor ()
      ensures Valid() && items == []
    {
      head, items := null, [];
    }

    /** ft_list_add_last */
    method AddLast(node: Item?) returns (ret: int)
      requires Valid() && node !in items
      modifies this, items, node
      ensures Valid()
      ensures ret == if node == null then INVALID_ARGS else OK
      ensures items == old(items) + if node == null then [] else [node]
    {
      if node == null {
        return INVALID_ARGS;
      }
      if head == null {
        head := node;
        node.next := node;
        node.prev := node;
        items := [node];
        return OK;
      }
      var last := head.prev;
      last.next := node;
      node.prev := last;
      node.next := head;
      head.prev := node;
      items := items + [node];
      ret := OK;
    }

    /** Relinks the neighbours of the i-th member past it. */
    method Bypass(ghost i: nat, node: Item)
      requires Valid() && |items| > 1 && i < |items| && items[i] == node
      modifies this`head, items
      ensures items == old(items)
      ensures head == if i == 0 then items[1] else items[0]
      ensures forall j {:trigger items[j].next} | 0 <= j < |items| && j != i ::
        items[j].next == items[if After(|items|, j) == i then After(|items|, i) else After(|items|, j)]
      ensures forall j {:trigger items[j].prev} | 0 <= j < |items| && j != i ::
        items[j].prev == items[if Before(|items|, j) == i then Before(|items|, i) else Before(|items|, j)]
    {
      var prev, next := node.prev, node.next;
      prev.next := next;
      next.prev := prev;
      if head == node {
        head := next;
      }
    }

    /** ft_list_pop */
    method Pop(node: Item?) returns (ret: int)
      requires Valid() && (node == null || items == [] || node in items)
      modifies this, items
      ensures Valid()
      ensures ret == if node == null || old(items) == [] then INVALID_ARGS else OK
      ensures ret == OK ==> var i := IndexOf(old(items), node);
        i < |old(items)| && items == old(items)[..i] + old(items)[i + 1..] && node.next == null && node.prev == null
      ensures ret != OK ==> items == old(items)
    {
      if node == null || head == null {
        return INVALID_ARGS;
      }
      ghost var i := IndexOf(items, node);
      ghost var all := items;
      assert items[i] == node;
      if node == node.next && node == node.prev {
        OnlyMember(i);
        head := null;
      } else {
        assert |items| > 1;
        Bypass(i, node);
        CircleWithout(head, all, i);
      }
      node.next, node.prev := null, null;
      items := all[..i] + all[i + 1..];
      RestMembers(all, i);
      ret := OK;
    }

    lemma OnlyMember(i: nat)
      requires Valid() && i < |items| && items[i].next == items[i]
      ensures |items| == 1
    {
      assert items[i].next == items[After(|items|, i)];
    }

    /** ft_list_get_next: the member after it, or NULL for the last. */
    method GetNext(node: Item?) returns (next: Item?)
      requires Valid() && (node == null || items == [] || node in items)
      ensures node == null || items == [] ==> next == null
      ensures node in items ==>
        next == if IndexOf(items, node) + 1 < |items| then items[IndexOf(items, node) + 1] else null
    {
      if node == null || head == null {
        return null;
      }
      ghost var i := IndexOf(items, node);
      assert items[i].next == items[After(|items|, i)];
      if node.next == head {
        return null;
      }
      next := node.next;
    }

    /** ft_list_get_last */
    method GetLast() returns (last: Item?)
      requires Valid()
      ensures last == if items == [] then null else items[|items| - 1]
    {
      if head == null {
        return null;
      }
      last := head;
      ghost var i := 0;
      while last.next != head
        invariant 0 <= i < |items| && last == items[i]
        decreases |items| - i
      {
        last := last.next;
        i := i + 1;
      }
    }

    /** ft_list_pop_last */
    method PopLast() returns (ret: int)
      requires Valid()
      modifies this, items
      ensures Valid()
      ensures if old(items) == [] then ret == INVALID_ARGS && items == []
              else ret == OK && items == old(items)[..|old(items)| - 1]
    {
      var last := GetLast();
      ret := Pop(last);
    }

    /** ft_list_get_size */
    method GetSize() returns (size: nat)
      requires Valid()
      ensures size == |items|
    {
      if head == null {
        return 0;
      }
      var current := head.next;
      size := 1;
      while current != head
        invariant 1 <= size <= |items| && current == items[if size < |items| then size else 0]
        decreases |items| - size
      {
        size := size + 1;
        current := current.next;
      }
    }

    /** ft_list_find_node: the index of a member, FAILURE for anything else. */
    method FindNode(node: Item?) returns (index: int)
      requires Valid()
      ensures index ==
        if node == null || items == [] then INVALID_ARGS
        else if node in items then IndexOf(items, node)
        else FAILURE
    {
      if node == null || head == null {
        return INVALID_ARGS;
      }
      if head == node {
        return 0;
      }
      index := 1;
      var current := head.next;
      while current != head
        invariant 1 <= index <= |items| && current == items[if index < |items| then index else 0]
        invariant node !in items[..index]
        decreases |items| - index
      {
        if current == node {
          IndexIs(items, index);
          return;
        }
        index := index + 1;
        current := current.next;
      }
      index := FAILURE;
    }
  }
}
