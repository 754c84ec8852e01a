/** The singly linked list that the macros of common.h work on, on the heap. */
module LinkedList {
  import opened Common

  class Node<T> {
    var item: T
    var next: Node?<T>

    constructor (item: T, next: Node?<T>)
      ensures this.item == item && this.next == next
    {
      this.item := item;
      this.next := next;
    }
  }

  /** `nodes` are the nodes met on the way from `head`, in order. */
  ghost predicate IsChain<T>(head: Node?<T>, nodes: seq<Node<T>>)
    reads nodes
  {
    && head == (if nodes == [] then null else nodes[0])
    && (forall i :: 0 <= i < |nodes| - 1 ==> nodes[i].next == nodes[i + 1])
    && (nodes != [] ==> nodes[|nodes| - 1].next == null)
    && (forall i, j :: 0 <= i < j < |nodes| ==> nodes[i] != nodes[j])
  }

  ghost function Items<T>(nodes: seq<Node<T>>): (r: seq<T>)
    reads nodes
    ensures |r| == |nodes| && forall i :: 0 <= i < |r| ==> r[i] == nodes[i].item
  {
    seq(|nodes|, i requires 0 <= i < |nodes| reads nodes => nodes[i].item)
  }

  class List<T(==)> {
    var head: Node?<T>
    ghost var nodes: seq<Node<T>>
    ghost var released: seq<Node<T>>   // the nodes given to ckfree(), in order

    /** No node is released twice, and none that is still linked. */
    ghost predicate Valid()
      reads this, nodes
    {
      IsChain(head, nodes) && NoDuplicates(released) && forall n :: n in nodes ==> n !in released
    }

    constructor ()
      ensures Valid() && nodes == [] && released == []
    {
      head := null;
      nodes, released := [], [];
    }

    /** treq_LinkedListInsertNewItem */
    method InsertNewItem(x: T)
      requires Valid()
      modifies this
      ensures Valid() && |nodes| > 0 && fresh(nodes[0]) && nodes[1..] == old(nodes)
      ensures Items(nodes) == [x] + old(Items(nodes)) && released == old(released)
    {
      var li := new Node(x, head);
      head := li;
      nodes := [li] + nodes;
      assert nodes[1..] == old(nodes);
    }

    lemma HeadIsFirst()
      requires Valid()
      ensures head == null <==> nodes == []
      ensures head != null ==> head == nodes[0]
    {}

    /** The relinking step of the removal: `cur` is the `k`-th node, `prev` the one before,
        and `cur` is released. */
    method Unlink(prev: Node?<T>, cur: Node<T>, ghost k: nat)
      requires Valid() && k < |nodes| && cur == nodes[k]
      requires prev == if k == 0 then null else nodes[k - 1]
      modifies this, prev
      ensures Valid() && nodes == old(nodes[..k] + nodes[k + 1..]) && released == old(released) + [cur]
      ensures forall n :: n in old(nodes) ==> n.item == old(n.item)
    {
      assert cur in nodes;
      NoDuplicatesAppend(released, cur);
      if prev == null { head := cur.next; } else { prev.next := cur.next; }
      nodes := nodes[..k] + nodes[k + 1..];
      released := released + [cur];
    }

    twostate lemma ItemsWithout(k: nat)
      requires k < |old(nodes)| && nodes == old(nodes)[..k] + old(nodes)[k + 1..]
      requires forall n :: n in old(nodes) ==> n.item == old(n.item)
      ensures Items(nodes) == old(Items(nodes))[..k] + old(Items(nodes))[k + 1..]
    {
      forall i | 0 <= i < |nodes|
        ensures Items(nodes)[i] == (old(Items(nodes))[..k] + old(Items(nodes))[k + 1..])[i]
      {
        assert nodes[i] == old(nodes)[if i < k then i else i + 1];
        assert nodes[i] in old(nodes);
      }
    }

    /** The node that was the first to hold `x` is the only one that is gone. */
    twostate predicate RemovedFirst(x: T, new freed: Node<T>)
      reads this
    {
      exists k ::
        && 0 <= k < |old(nodes)| && freed == old(nodes)[k] && nodes == old(nodes)[..k] + old(nodes)[k + 1..]
        && old(Items(nodes))[k] == x && forall i :: 0 <= i < k ==> old(Items(nodes))[i] != x
    }

    /** treq_LinkedListRemoveByItem: unlinks the first node that holds the item and
        gives it back; nothing else changes, and without such a node nothing does. */
    method RemoveByItem(x: T) returns (freed: Node?<T>)
      requires Valid()
      modifies this, nodes
      ensures Valid()
      ensures Items(nodes) == RemoveFirst(old(Items(nodes)), x)
      ensures freed == null <==> x !in old(Items(nodes))
      ensures freed == null ==> nodes == old(nodes) && released == old(released)
      ensures freed != null ==> released == old(released) + [freed] && RemovedFirst(x, freed)
      ensures forall n :: n in old(nodes) ==> n.item == old(n.item)
    {
      var prev: Node?<T> := null;
      var cur := head;
      ghost var k := 0;
      ghost var was := Items(nodes);
      while cur != null && cur.item != x
        invariant 0 <= k <= |nodes|
        invariant cur == if k < |nodes| then nodes[k] else null
        invariant prev == if k == 0 then null else nodes[k - 1]
        invariant forall i :: 0 <= i < k ==> was[i] != x
        decreases |nodes| - k
      {
        prev := cur;
        cur := cur.next;
        k := k + 1;
      }
      freed := cur;
      if cur == null {
        RemoveFirstAbsent(was, x);
      } else {
        RemoveFirstAt(was, x, k);
        Unlink(prev, cur, k);
        ItemsWithout(k);
      }
    }

    /** Removing the item at the head removes the head. */
    method RemoveHeadItem()
      requires Valid() && nodes != []
      modifies this, nodes
      ensures Valid() && nodes == old(nodes)[1..] && released == old(released) + [old(nodes)[0]]
      ensures Items(nodes) == old(Items(nodes))[1..]
      ensures forall n :: n in old(nodes) ==> n.item == old(n.item)
    {
      var freed := RemoveByItem(head.item);
      assert old(Items(nodes))[0] in old(Items(nodes));
    }

    /** The step of treq_LinkedListFree: unlinks the first node and releases it. */
    method FreeHead()
      requires Valid() && nodes != []
      modifies this
      ensures Valid() && nodes == old(nodes)[1..] && released == old(released) + [old(nodes)[0]]
      ensures Items(nodes) == old(Items(nodes))[1..]
    {
      ghost var cur := head;
      assert cur in nodes;
      NoDuplicatesAppend(released, cur);
      head := head.next;
      nodes := nodes[1..];
      released := released + [cur];
    }
  }

  lemma NoDuplicatesAppend<T>(q: seq<T>, x: T)
    requires NoDuplicates(q) && x !in q
    ensures NoDuplicates(q + [x])
  {}

  /** The items that the loop's body gets to see when it also removes the item itself. */
  function EverySecond<T>(q: seq<T>): seq<T> {
    if |q| <= 1 then q else [q[0]] + EverySecond(q[2..])
  }

  /** What the body sees: everything if it leaves the list to the loop's own step. */
  function Seen<T>(q: seq<T>, guarded: bool): seq<T> {
    if guarded then q else EverySecond(q)
  }

  lemma Shift<T>(front: seq<T>, rest: seq<T>)
    requires rest != []
    ensures front + rest == (front + [rest[0]]) + rest[1..]
  {}

  lemma {:induction false} RemoveFirstAt<T>(q: seq<T>, x: T, k: nat)
    requires k < |q| && q[k] == x && forall i :: 0 <= i < k ==> q[i] != x
    ensures RemoveFirst(q, x) == q[..k] + q[k + 1..]
  {
    if k == 0 {
    } else {
      RemoveFirstAt(q[1..], x, k - 1);
      assert q[..k] + q[k + 1..] == [q[0]] + (q[1..][..k - 1] + q[1..][k..]);
    }
  }

  lemma {:induction false} RemoveFirstAbsent<T>(q: seq<T>, x: T)
    requires forall i :: 0 <= i < |q| ==> q[i] != x
    ensures RemoveFirst(q, x) == q && x !in q
  {
    if q == [] {
    } else {
      RemoveFirstAbsent(q[1..], x);
      assert q == [q[0]] + q[1..];
    }
  }

  // ---------------------------------------------------- the loops with their bodies

  /** A pool as far as its list goes; treq_PoolFree() relies on `is_dead`. */
  class PoolNodes<T(==)> {
    const requests: List<T>
    var isDead: bool

    constructor (requests: List<T>)
      ensures this.requests == requests && !isDead
    {
      this.requests := requests;
      isDead := false;
    }

    /** The list's part of treq_PoolRemoveRequest(), for the request at the head. */
    method RemoveHeadRequest()
      requires requests.Valid() && requests.nodes != []
      modifies requests, requests.nodes
      ensures requests.Valid()
      ensures isDead ==> requests.nodes == old(requests.nodes) && requests.released == old(requests.released)
      ensures isDead ==> Items(requests.nodes) == old(Items(requests.nodes))
      ensures !isDead ==> requests.nodes == old(requests.nodes)[1..]
      ensures !isDead ==> requests.released == old(requests.released) + [old(requests.nodes)[0]]
      ensures !isDead ==> Items(requests.nodes) == old(Items(requests.nodes))[1..]
    {
      if !isDead {
        requests.RemoveHeadItem();
      }
    }

    /** One pass of the loop: the body, then the loop's step, which follows the list's
        head whether there is one left or not. */
    method Pass() returns (item: T, faulted: bool)
      requires requests.Valid() && requests.nodes != []
      modifies requests, requests.nodes
      ensures requests.Valid() && item == old(Items(requests.nodes))[0]
      ensures faulted <==> !isDead && |old(requests.nodes)| == 1
      ensures requests.nodes == AfterPass(old(requests.nodes), isDead)
      ensures Items(requests.nodes) == AfterPass(old(Items(requests.nodes)), isDead)
      ensures requests.released + requests.nodes == old(requests.released + requests.nodes)
    {
      hide NoDuplicates;
      item := requests.head.item;
      Shift(requests.released, requests.nodes);
      RemoveHeadRequest();
      faulted := requests.head == null;
      if !faulted {
        Shift(requests.released, requests.nodes);
        requests.FreeHead();
      }
    }

    /** The loop of treq_PoolFree(). The code marks the pool as dead before it (`marks`):
        then the body sees every request once and every node is released once, by the
        loop's step. Unmarked, the body would release the head and the step the node after
        it: every second request would be passed over, though no node would be released
        twice, and with an odd number of requests the last step would follow NULL. */
    method Free(marks: bool) returns (visited: seq<T>, faulted: bool)
      requires requests.Valid() && !isDead
      modifies this, requests, requests.nodes
      ensures requests.Valid() && requests.head == null
      ensures requests.released == old(requests.released + requests.nodes)
      ensures visited == Seen(old(Items(requests.nodes)), marks)
      ensures faulted <==> !marks && |old(requests.nodes)| % 2 == 1
    {
      hide List.Valid, Seen, AfterPass, Told;
      visited, faulted := [], false;
      isDead := marks;
      ghost var all, items := requests.released + requests.nodes, Items(requests.nodes);
      ToldAtFirst(items, marks);
      requests.HeadIsFirst();
      while requests.head != null && !faulted
        invariant requests.Valid() && isDead == marks && requests.released + requests.nodes == all
        invariant requests.head == null <==> requests.nodes == []
        invariant Told(items, visited, Items(requests.nodes), marks, faulted)
        invariant forall i :: 0 <= i < |requests.nodes| ==> requests.nodes[i] in old(requests.nodes)
        decreases |requests.nodes|
      {
        PassLeaves(requests.nodes, marks);
        ToldNext(items, visited, Items(requests.nodes), marks);
        var item;
        item, faulted := Pass();
        requests.HeadIsFirst();
        visited := visited + [item];
      }
      ToldFaulted(items, visited, Items(requests.nodes), marks, faulted);
      ToldAtLast(items, visited, marks, faulted);
    }
  }

  /** A request as far as its session goes. */
  class Member {
    var session: SessionNodes?

    constructor (session: SessionNodes?)
      ensures this.session == session
    {
      this.session := session;
    }
  }

  /** A session as far as its list goes; treq_SessionFree() relies on the requests' back
      pointers, which it clears before it frees them. */
  class SessionNodes {
    const requests: List<Member>

    constructor (requests: List<Member>)
      ensures this.requests == requests
    {
      this.requests := requests;
    }

    /** The requests of the list point back, and each is listed once. */
    ghost predicate Linked()
      reads this, requests, requests.nodes, Items(requests.nodes)
    {
      && requests.Valid() && NoDuplicates(Items(requests.nodes))
      && forall i :: 0 <= i < |Items(requests.nodes)| ==> Items(requests.nodes)[i].session == this
    }

    /** The list's part of treq_RequestFree(), for the request at the head: it leaves the
        session unless its back pointer has been cleared. */
    method FreeHeadRequest()
      requires requests.Valid() && requests.nodes != []
      modifies requests, requests.nodes, Items(requests.nodes)[0]
      ensures requests.Valid() && old(requests.nodes[0].item).session == null
      ensures var guarded := old(requests.nodes[0].item.session) == null;
        if guarded then
          && requests.nodes == old(requests.nodes) && requests.released == old(requests.released)
          && Items(requests.nodes) == old(Items(requests.nodes))
        else
          && requests.nodes == old(requests.nodes)[1..]
          && requests.released == old(requests.released) + [old(requests.nodes)[0]]
          && Items(requests.nodes) == old(Items(requests.nodes))[1..]
    {
      var req := requests.head.item;
      if req.session != null {
        req.session := null;
        requests.RemoveHeadItem();
      }
    }

    /** One pass of the loop. */
    method Pass(clears: bool) returns (item: Member, faulted: bool)
      requires requests.Valid() && requests.nodes != [] && requests.nodes[0].item.session == this
      modifies requests, requests.nodes, Items(requests.nodes)[0]
      ensures requests.Valid() && item == old(Items(requests.nodes))[0] && item.session == null
      ensures faulted <==> !clears && |old(requests.nodes)| == 1
      ensures requests.nodes == AfterPass(old(requests.nodes), clears)
      ensures Items(requests.nodes) == AfterPass(old(Items(requests.nodes)), clears)
      ensures requests.released + requests.nodes == old(requests.released + requests.nodes)
    {
      hide NoDuplicates;
      item := requests.head.item;
      if clears {
        item.session := null;
      }
      Shift(requests.released, requests.nodes);
      FreeHeadRequest();
      faulted := requests.head == null;
      if !faulted {
        Shift(requests.released, requests.nodes);
        requests.FreeHead();
      }
    }

    /** Some passes have been made: the requests seen do not point here any more, the
        others still do. */
    ghost predicate Midway(items: seq<Member>, visited: seq<Member>)
      reads this, requests, requests.nodes, items
    {
      && requests.Valid() && Apart<Member>(items, visited, Items(requests.nodes))
      && forall i :: 0 <= i < |items| ==> items[i].session == if items[i] in visited then null else this
    }

    lemma Start(items: seq<Member>)
      requires Linked() && items == Items(requests.nodes)
      ensures Midway(items, [])
    {}

    lemma HeadPointsHere(items: seq<Member>, visited: seq<Member>)
      requires Midway(items, visited) && requests.nodes != []
      ensures requests.nodes[0].item.session == this && requests.nodes[0].item in items
    {
      assert Items(requests.nodes)[0] in items;
    }

    /** The nodes and the requests are among `all`. */
    ghost predicate Within(all: set<object>, items: seq<Member>)
      reads requests
    {
      (forall n :: n in requests.nodes ==> n in all) && (forall m :: m in items ==> m in all) &&
      requests !in all && this !in all
    }

    /** A pass, seen from all the requests of the session. */
    method Turn(ghost all: set<object>, ghost items: seq<Member>, ghost visited: seq<Member>, clears: bool)
      returns (item: Member, faulted: bool)
      requires Midway(items, visited) && requests.nodes != [] && Within(all, items)
      modifies requests, all
      ensures Within(all, items)
      ensures Midway(items, visited + [item]) && item == old(Items(requests.nodes))[0]
      ensures faulted <==> !clears && |old(requests.nodes)| == 1
      ensures requests.nodes == AfterPass(old(requests.nodes), clears)
      ensures Items(requests.nodes) == AfterPass(old(Items(requests.nodes)), clears)
      ensures requests.released + requests.nodes == old(requests.released + requests.nodes)
    {
      HeadPointsHere(items, visited);
      ApartAfterPass<Member>(items, visited, Items(requests.nodes), clears);
      hide List.Valid, AfterPass, Apart;
      item, faulted := Pass(clears);
    }

    /** The loop of treq_SessionFree(), with or without the clearing of the pointers. */
    method FreeLoop(ghost all: set<object>, ghost items: seq<Member>, clears: bool)
      returns (visited: seq<Member>, faulted: bool)
      requires Midway(items, []) && items == Items(requests.nodes) && Within(all, items)
      modifies requests, all
      ensures Midway(items, visited) && requests.nodes == []
      ensures requests.released == old(requests.released + requests.nodes)
      ensures Told<Member>(items, visited, Items(requests.nodes), clears, faulted)
    {
      hide Within, List.Valid, Seen, AfterPass, Midway, Told;
      ghost var nodes := requests.released + requests.nodes;
      visited, faulted := [], false;
      ToldAtFirst<Member>(items, clears);
      StillValid(items, visited);
      while requests.head != null && !faulted
        invariant Midway(items, visited) && requests.released + requests.nodes == nodes && Within(all, items)
        invariant requests.head == null <==> requests.nodes == []
        invariant Told<Member>(items, visited, Items(requests.nodes), clears, faulted)
        decreases |requests.nodes|
      {
        PassLeaves<Node<Member>>(requests.nodes, clears);
        ToldNext<Member>(items, visited, Items(requests.nodes), clears);
        var item;
        item, faulted := Turn(all, items, visited, clears);
        visited := visited + [item];
        StillValid(items, visited);
      }
      ToldFaulted<Member>(items, visited, Items(requests.nodes), clears, faulted);
    }

    /** treq_SessionFree(). The code clears each back pointer first (`clears`): then the
        body sees every request once, every node is released once, and no request points
        at the session any more. Without that every second request would be passed over
        and keep its pointer to the session, and with an odd number of requests the last
        step would follow NULL. */
    method FreeRequests(clears: bool) returns (visited: seq<Member>, faulted: bool)
      requires Linked()
      modifies requests, requests.nodes, Items(requests.nodes)
      ensures requests.Valid() && requests.head == null
      ensures requests.released == old(requests.released + requests.nodes)
      ensures visited == Seen<Member>(old(Items(requests.nodes)), clears)
      ensures forall m :: m in old(Items(requests.nodes)) ==> m.session == if m in visited then null else this
      ensures faulted <==> !clears && |old(requests.nodes)| % 2 == 1
    {
      ghost var items: seq<Member> := Items(requests.nodes);
      ghost var all: set<object> := (set n | n in requests.nodes) + (set m | m in items);
      assert Within(all, items);
      hide Within, List.Valid, Seen, AfterPass, Linked, Midway, Told;
      Start(items);
      visited, faulted := FreeLoop(all, items, clears);
      ToldAtLast<Member>(items, visited, clears, faulted);
      StillValid(items, visited);
      Pointers(items, visited);
    }

    lemma StillValid(items: seq<Member>, visited: seq<Member>)
      requires Midway(items, visited)
      ensures requests.Valid() && (requests.head == null <==> requests.nodes == [])
    {
      hide Apart;
    }

    lemma Pointers(items: seq<Member>, visited: seq<Member>)
      requires Midway(items, visited)
      ensures forall m :: m in items ==> m.session == if m in visited then null else this
    {
      hide List.Valid, Apart;
    }
  }

  /** What is left of the items is distinct and has not been seen. */
  ghost predicate Apart<T>(items: seq<T>, visited: seq<T>, left: seq<T>) {
    && NoDuplicates(left)
    && (forall i :: 0 <= i < |left| ==> left[i] in items && left[i] !in visited)
    && (forall i :: 0 <= i < |visited| ==> visited[i] in items)
  }

  lemma ApartAfterPass<T>(items: seq<T>, visited: seq<T>, left: seq<T>, guarded: bool)
    requires Apart(items, visited, left) && left != []
    ensures Apart(items, visited + [left[0]], AfterPass(left, guarded)) && left[0] in items && left[0] !in visited
  {}

  /** What a pass leaves of the list. */
  function AfterPass<T>(q: seq<T>, guarded: bool): seq<T>
    requires q != []
  {
    if guarded || |q| == 1 then q[1..] else q[2..]
  }

  lemma PassLeaves<T>(q: seq<T>, guarded: bool)
    requires q != []
    ensures var r := AfterPass(q, guarded);
      |r| < |q| && forall i :: 0 <= i < |r| ==> r[i] in q
  {}

  /** The body has seen `seen` and has yet to see what there is to see of `left`; the last
      step has followed NULL (`faulted`) exactly when an odd list without guard is done. */
  ghost predicate Told<T>(items: seq<T>, seen: seq<T>, left: seq<T>, guarded: bool, faulted: bool) {
    && seen + Seen(left, guarded) == Seen(items, guarded)
    && if faulted then !guarded && |items| % 2 == 1 && left == [] else guarded || |left| % 2 == |items| % 2
  }

  lemma ToldAtFirst<T>(items: seq<T>, guarded: bool)
    ensures Told(items, [], items, guarded, false)
  {
    assert [] + Seen(items, guarded) == Seen(items, guarded);
  }

  lemma ToldNext<T>(items: seq<T>, seen: seq<T>, left: seq<T>, guarded: bool)
    requires Told(items, seen, left, guarded, false) && left != []
    ensures Told(items, seen + [left[0]], AfterPass(left, guarded), guarded, !guarded && |left| == 1)
  {
    SeenNext(left, guarded);
    assert seen + ([left[0]] + Seen(AfterPass(left, guarded), guarded)) ==
           (seen + [left[0]]) + Seen(AfterPass(left, guarded), guarded);
  }

  lemma ToldAtLast<T>(items: seq<T>, seen: seq<T>, guarded: bool, faulted: bool)
    requires Told(items, seen, [], guarded, faulted)
    ensures seen == Seen(items, guarded)
    ensures faulted <==> !guarded && |items| % 2 == 1
  {}

  lemma ToldFaulted<T>(items: seq<T>, seen: seq<T>, left: seq<T>, guarded: bool, faulted: bool)
    requires Told(items, seen, left, guarded, faulted)
    ensures faulted ==> left == []
  {}

  lemma SeenNext<T>(q: seq<T>, guarded: bool)
    requires q != []
    ensures Seen(q, guarded) == [q[0]] + Seen(AfterPass(q, guarded), guarded)
  {}
}
