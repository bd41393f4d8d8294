/**
 * The node objects a parse creates, held in an index-based store.
 *
 * Each node object `{id, data, parentId, children}` lives at a handle: its
 * position in allocation order.  A JavaScript reference to a node object is
 * its handle, so a `children` array, the optional dictionary and the chain's
 * anchor all hold handles, and an update through one of them is seen through
 * the others.  The root container the parser synthesises has id `null`
 * (`None`); every other node is a real node with an allocated id.
 */
module Store {
  import opened Wrappers
  import opened Identifiers

  /** An id as returned by the allocator. */
  type Id = int

  /** A node object; `children` holds handles of other node objects. */
  datatype NodeRec = NodeRec(
    id: Option<Id>,
    data: map<string, seq<string>>,
    parentId: Option<Id>,
    children: seq<nat>)

  /** One `onNodeCreated` call: the node reported and its state at that moment. */
  datatype Created = Created(handle: nat, snapshot: NodeRec)

  /** A node as plain data, holding its whole subtree. */
  datatype Node = Node(
    id: Option<Id>,
    data: map<string, seq<string>>,
    parentId: Option<Id>,
    children: seq<Node>)

  /** The handles of the real nodes (those with an id), in allocation order. */
  function RealHandles(heap: seq<NodeRec>): (r: seq<nat>)
    ensures forall k :: 0 <= k < |r| ==> r[k] < |heap| && heap[r[k]].id.Some?
    ensures |r| <= |heap|
    decreases |heap|
  {
    if heap == [] then []
    else
      var r0 := RealHandles(heap[..|heap| - 1]);
      if heap[|heap| - 1].id.Some? then r0 + [|heap| - 1] else r0
  }

  /** The real handles are listed in allocation order. */
  lemma {:induction false} RealHandlesOrdered(heap: seq<NodeRec>, i: nat, j: nat)
    requires i < j < |RealHandles(heap)|
    ensures RealHandles(heap)[i] < RealHandles(heap)[j]
    decreases |heap|
  {
    var r0 := RealHandles(heap[..|heap| - 1]);
    if j < |r0| {
      RealHandlesOrdered(heap[..|heap| - 1], i, j);
    }
  }

  /** Every node with an id is among the real handles. */
  lemma {:induction false} RealHandlesComplete(heap: seq<NodeRec>, h: nat)
    requires h < |heap| && heap[h].id.Some?
    ensures h in RealHandles(heap)
    decreases |heap|
  {
    if h < |heap| - 1 {
      RealHandlesComplete(heap[..|heap| - 1], h);
    }
  }

  /** When the newest node is real, it is the last real handle. */
  lemma RealHandlesLast(heap: seq<NodeRec>)
    requires heap != [] && heap[|heap| - 1].id.Some?
    ensures |RealHandles(heap)| > 0 && RealHandles(heap)[|RealHandles(heap)| - 1] == |heap| - 1
  {
  }

  /** Allocating a node adds its handle to the real handles exactly when it has an id. */
  lemma RealHandlesAppend(heap: seq<NodeRec>, n: NodeRec)
    ensures RealHandles(heap + [n]) == RealHandles(heap) + (if n.id.Some? then [|heap|] else [])
  {
    assert (heap + [n])[..|heap|] == heap;
  }

  /** The real handles depend only on the ids, so updating data or children leaves them alone. */
  lemma {:induction false} RealHandlesSameIds(a: seq<NodeRec>, b: seq<NodeRec>)
    requires |a| == |b|
    requires forall h :: 0 <= h < |a| ==> a[h].id == b[h].id
    ensures RealHandles(a) == RealHandles(b)
    decreases |a|
  {
    if a != [] {
      RealHandlesSameIds(a[..|a| - 1], b[..|b| - 1]);
    }
  }

  /** A strictly increasing list of handles. */
  ghost predicate Increasing(s: seq<nat>)
    decreases |s|
  {
    |s| < 2 || (s[0] < s[1] && Increasing(s[1..]))
  }

  /** Appending a handle above the last one keeps a list increasing. */
  lemma {:induction false} IncreasingAppend(s: seq<nat>, c: nat)
    requires Increasing(s)
    requires forall i :: 0 <= i < |s| ==> s[i] < c
    ensures Increasing(s + [c])
    decreases |s|
  {
    if |s| >= 2 {
      IncreasingAppend(s[1..], c);
      assert (s + [c])[1..] == s[1..] + [c];
    } else if |s| == 1 {
      assert (s + [c])[1..] == [c];
    }
  }

  /** Children have larger handles than their parent, and each children list is in allocation order. */
  ghost predicate ChildrenOrdered(heap: seq<NodeRec>) {
    && (forall h, i :: 0 <= h < |heap| && 0 <= i < |heap[h].children| ==>
          h < heap[h].children[i] < |heap|)
    && (forall h :: 0 <= h < |heap| ==> Increasing(heap[h].children))
  }

  /**
   * The `parentId` a child carries: the parent's id for a real node; `null`
   * for a container, which never records its parent.
   */
  predicate ParentLink(child: NodeRec, parent: NodeRec) {
    child.parentId == if child.id.None? then None else parent.id
  }

  /** Every child placed in a node's `children` carries that node as its parent. */
  ghost predicate ParentsConsistent(heap: seq<NodeRec>)
    requires ChildrenOrdered(heap)
  {
    forall h, i :: 0 <= h < |heap| && 0 <= i < |heap[h].children| ==>
      ParentLink(heap[heap[h].children[i]], heap[h])
  }

  /** A container has no parent and no data. */
  ghost predicate ContainersEmpty(heap: seq<NodeRec>) {
    forall h :: 0 <= h < |heap| && heap[h].id.None? ==> heap[h].parentId.None? && heap[h].data == map[]
  }

  /** The k-th real node carries the k-th id the allocator returned. */
  ghost predicate IdsAssigned(heap: seq<NodeRec>, getId: nat -> Id) {
    var r := RealHandles(heap);
    forall k :: 0 <= k < |r| ==> heap[r[k]].id == Some(getId(k))
  }

  /** Every `data` key is a non-empty normalised identifier. */
  ghost predicate KeysNormalised(heap: seq<NodeRec>) {
    forall h, key :: 0 <= h < |heap| && key in heap[h].data ==> IsShortCode(key)
  }

  /** The store invariant every parse keeps. */
  ghost predicate StoreOk(heap: seq<NodeRec>, getId: nat -> Id) {
    && ChildrenOrdered(heap)
    && ParentsConsistent(heap)
    && ContainersEmpty(heap)
    && IdsAssigned(heap, getId)
    && KeysNormalised(heap)
  }

  /** `after` holds every property of `before`, each value list extended at its end only. */
  ghost predicate DataExtends(before: map<string, seq<string>>, after: map<string, seq<string>>) {
    forall key :: key in before ==> key in after && before[key] <= after[key]
  }

  /**
   * `s` is what node `n` looked like when it was reported: same id and
   * parent, no children yet, and data that `n`'s data has since only extended.
   */
  ghost predicate SnapshotOf(s: NodeRec, n: NodeRec) {
    s.id == n.id && s.parentId == n.parentId && s.children == [] && DataExtends(s.data, n.data)
  }

  /** The `onNodeCreated` log reports real nodes one by one in allocation order. */
  ghost predicate ReportsInOrder(heap: seq<NodeRec>, created: seq<Created>) {
    var r := RealHandles(heap);
    && |created| <= |r|
    && forall k :: 0 <= k < |created| ==>
         created[k].handle == r[k] && SnapshotOf(created[k].snapshot, heap[r[k]])
  }

  /**
   * The dictionary maps each allocated id to a node with that id, the most
   * recently allocated one when the allocator repeats an id, and holds no other key.
   */
  ghost predicate DictionaryConsistent(heap: seq<NodeRec>, getId: nat -> Id, d: map<Id, nat>) {
    var r := RealHandles(heap);
    && (forall key :: key in d ==> d[key] < |heap| && heap[d[key]].id == Some(key))
    && (forall k :: 0 <= k < |r| ==> getId(k) in d && d[getId(k)] >= r[k])
  }

  /** Allocating a node object with no children keeps the store consistent. */
  lemma AddNodeOk(heap: seq<NodeRec>, getId: nat -> Id, n: NodeRec)
    requires StoreOk(heap, getId)
    requires n.children == []
    requires n.id.Some? ==> n.id == Some(getId(|RealHandles(heap)|))
    requires n.id.None? ==> n.parentId.None? && n.data == map[]
    requires forall key :: key in n.data ==> IsShortCode(key)
    ensures StoreOk(heap + [n], getId)
    ensures RealHandles(heap + [n]) == RealHandles(heap) + (if n.id.Some? then [|heap|] else [])
  {
    RealHandlesAppend(heap, n);
    AppendOrdered(heap, n);
    AppendParents(heap, n);
    AppendIds(heap, getId, n);
    AppendContents(heap, n);
  }

  lemma AppendContents(heap: seq<NodeRec>, n: NodeRec)
    requires ContainersEmpty(heap) && KeysNormalised(heap)
    requires n.id.None? ==> n.parentId.None? && n.data == map[]
    requires forall key :: key in n.data ==> IsShortCode(key)
    ensures ContainersEmpty(heap + [n]) && KeysNormalised(heap + [n])
  {
    var r := heap + [n];
    forall h | 0 <= h < |heap| ensures r[h] == heap[h] {
    }
  }

  lemma AppendOrdered(heap: seq<NodeRec>, n: NodeRec)
    requires ChildrenOrdered(heap) && n.children == []
    ensures ChildrenOrdered(heap + [n])
  {
    var r := heap + [n];
    forall h | 0 <= h < |r| ensures Increasing(r[h].children) {
      if h < |heap| {
        assert r[h] == heap[h];
      }
    }
  }

  lemma AppendParents(heap: seq<NodeRec>, n: NodeRec)
    requires ChildrenOrdered(heap) && ParentsConsistent(heap) && n.children == []
    ensures ChildrenOrdered(heap + [n]) && ParentsConsistent(heap + [n])
  {
    AppendOrdered(heap, n);
    var r := heap + [n];
    forall h, i | 0 <= h < |r| && 0 <= i < |r[h].children|
      ensures ParentLink(r[r[h].children[i]], r[h])
    {
      assert r[h] == heap[h];
      assert ParentLink(heap[heap[h].children[i]], heap[h]);
    }
  }

  lemma AppendIds(heap: seq<NodeRec>, getId: nat -> Id, n: NodeRec)
    requires IdsAssigned(heap, getId)
    requires n.id.Some? ==> n.id == Some(getId(|RealHandles(heap)|))
    ensures IdsAssigned(heap + [n], getId)
  {
    RealHandlesAppend(heap, n);
  }

  /**
   * A store that differs from a consistent one only in the data of real node
   * `h`, whose keys are still normalised, is consistent.
   */
  lemma DataUpdateOk(heap: seq<NodeRec>, getId: nat -> Id, h: nat, r: seq<NodeRec>)
    requires StoreOk(heap, getId)
    requires h < |heap| && heap[h].id.Some?
    requires |r| == |heap| && forall g :: 0 <= g < |heap| && g != h ==> r[g] == heap[g]
    requires r[h].id == heap[h].id && r[h].parentId == heap[h].parentId && r[h].children == heap[h].children
    requires forall key :: key in r[h].data ==> IsShortCode(key)
    ensures StoreOk(r, getId)
    ensures RealHandles(r) == RealHandles(heap)
  {
    RealHandlesSameIds(heap, r);
    assert forall g :: 0 <= g < |r| ==> r[g].children == heap[g].children;
    assert forall g :: 0 <= g < |r| ==> r[g].id == heap[g].id && r[g].parentId == heap[g].parentId;
    assert ChildrenOrdered(r);
    assert ParentsConsistent(r) by {
      forall g, i | 0 <= g < |r| && 0 <= i < |r[g].children|
        ensures ParentLink(r[r[g].children[i]], r[g])
      {
        assert ParentLink(heap[heap[g].children[i]], heap[g]);
      }
    }
  }

  /** `parent.children.push(child)` for the node object at handle `p`. */
  function PushChild(heap: seq<NodeRec>, p: nat, c: nat): seq<NodeRec>
    requires p < |heap|
  {
    heap[p := heap[p].(children := heap[p].children + [c])]
  }

  /**
   * Pushing a later node that carries `p` as its parent onto the children of
   * `p` keeps the store consistent.
   */
  lemma PushChildOk(heap: seq<NodeRec>, getId: nat -> Id, p: nat, c: nat)
    requires StoreOk(heap, getId)
    requires p < c < |heap|
    requires forall i :: 0 <= i < |heap[p].children| ==> heap[p].children[i] < c
    requires ParentLink(heap[c], heap[p])
    ensures StoreOk(PushChild(heap, p, c), getId)
  {
    var r := PushChild(heap, p, c);
    RealHandlesSameIds(heap, r);
    PushOrdered(heap, p, c);
    PushParents(heap, p, c);
  }

  lemma PushOrdered(heap: seq<NodeRec>, p: nat, c: nat)
    requires ChildrenOrdered(heap)
    requires p < c < |heap|
    requires forall i :: 0 <= i < |heap[p].children| ==> heap[p].children[i] < c
    ensures ChildrenOrdered(heap[p := heap[p].(children := heap[p].children + [c])])
  {
    var r := heap[p := heap[p].(children := heap[p].children + [c])];
    IncreasingAppend(heap[p].children, c);
    forall h | 0 <= h < |r| ensures Increasing(r[h].children) {
      if h != p {
        assert r[h] == heap[h];
      }
    }
  }

  lemma PushParents(heap: seq<NodeRec>, p: nat, c: nat)
    requires ChildrenOrdered(heap) && ParentsConsistent(heap)
    requires p < c < |heap|
    requires forall i :: 0 <= i < |heap[p].children| ==> heap[p].children[i] < c
    requires ParentLink(heap[c], heap[p])
    ensures ChildrenOrdered(heap[p := heap[p].(children := heap[p].children + [c])])
    ensures ParentsConsistent(heap[p := heap[p].(children := heap[p].children + [c])])
  {
    var r := heap[p := heap[p].(children := heap[p].children + [c])];
    PushOrdered(heap, p, c);
    forall g, i | 0 <= g < |r| && 0 <= i < |r[g].children|
      ensures ParentLink(r[r[g].children[i]], r[g])
    {
      var x := r[g].children[i];
      assert r[x].id == heap[x].id && r[x].parentId == heap[x].parentId;
      if g == p && i == |heap[p].children| {
        assert x == c;
      } else {
        assert x == heap[g].children[i];
        assert ParentLink(heap[x], heap[g]);
      }
    }
  }

  /** `if (!(key in node.data)) node.data[key] = []` for the node object at handle `h`. */
  function AddKey(heap: seq<NodeRec>, h: nat, key: string): seq<NodeRec>
    requires h < |heap|
  {
    if key in heap[h].data then heap
    else heap[h := heap[h].(data := heap[h].data[key := []])]
  }

  /** Adding a normalised identifier to a real node keeps the store consistent. */
  lemma AddKeyOk(heap: seq<NodeRec>, getId: nat -> Id, h: nat, key: string)
    requires StoreOk(heap, getId)
    requires h < |heap| && heap[h].id.Some?
    requires IsShortCode(key)
    ensures StoreOk(AddKey(heap, h, key), getId)
  {
    if key !in heap[h].data {
      DataUpdateOk(heap, getId, h, AddKey(heap, h, key));
    }
  }

  /** `property.push(v)` for the list of `key` in the node object at handle `h`. */
  function AddValue(heap: seq<NodeRec>, h: nat, key: string, v: string): seq<NodeRec>
    requires h < |heap| && key in heap[h].data
  {
    heap[h := heap[h].(data := heap[h].data[key := heap[h].data[key] + [v]])]
  }

  /** Appending a value to an existing property keeps the store consistent. */
  lemma AddValueOk(heap: seq<NodeRec>, getId: nat -> Id, h: nat, key: string, v: string)
    requires StoreOk(heap, getId)
    requires h < |heap| && heap[h].id.Some? && key in heap[h].data
    ensures StoreOk(AddValue(heap, h, key, v), getId)
  {
    DataUpdateOk(heap, getId, h, AddValue(heap, h, key, v));
  }

  /** With an allocator that never repeats an id, the dictionary maps the k-th id to the k-th real node. */
  lemma DictionaryFindsNode(heap: seq<NodeRec>, getId: nat -> Id, d: map<Id, nat>, k: nat)
    requires IdsAssigned(heap, getId) && DictionaryConsistent(heap, getId, d)
    requires forall i, j :: 0 <= i < j < |RealHandles(heap)| ==> getId(i) != getId(j)
    requires k < |RealHandles(heap)|
    ensures getId(k) in d && d[getId(k)] == RealHandles(heap)[k]
  {
    var r := RealHandles(heap);
    var h := d[getId(k)];
    RealHandlesComplete(heap, h);
    var j :| 0 <= j < |r| && r[j] == h;
    assert getId(j) == getId(k);
  }

  /** The subtree rooted at handle `h`, as plain data. */
  function TreeAt(heap: seq<NodeRec>, h: nat): Node
    requires ChildrenOrdered(heap) && h < |heap|
    decreases |heap| - h
  {
    var n := heap[h];
    Node(n.id, n.data, n.parentId,
      seq(|n.children|, i requires 0 <= i < |n.children| => TreeAt(heap, n.children[i])))
  }

  /** The trees rooted at the given handles. */
  function Forest(heap: seq<NodeRec>, roots: seq<nat>): seq<Node>
    requires ChildrenOrdered(heap)
    requires forall i :: 0 <= i < |roots| ==> roots[i] < |heap|
  {
    seq(|roots|, i requires 0 <= i < |roots| => TreeAt(heap, roots[i]))
  }

  /** In a plain-data tree, every child carries its parent's id (a container child carries `null`). */
  ghost predicate WellParented(t: Node) {
    forall i :: 0 <= i < |t.children| ==>
      t.children[i].parentId == (if t.children[i].id.None? then None else t.id) &&
      WellParented(t.children[i])
  }

  /** Every tree read out of a consistent store is well parented. */
  lemma {:induction false} TreeAtWellParented(heap: seq<NodeRec>, h: nat)
    requires ChildrenOrdered(heap) && ParentsConsistent(heap) && h < |heap|
    ensures WellParented(TreeAt(heap, h))
    decreases |heap| - h
  {
    var t := TreeAt(heap, h);
    forall i | 0 <= i < |t.children|
      ensures t.children[i].parentId == (if t.children[i].id.None? then None else t.id)
      ensures WellParented(t.children[i])
    {
      var c := heap[h].children[i];
      assert ParentLink(heap[c], heap[h]);
      TreeAtWellParented(heap, c);
    }
  }

  /** When the oldest node is real, it is the first real handle. */
  lemma {:induction false} FirstRealHandle(heap: seq<NodeRec>)
    requires heap != [] && heap[0].id.Some?
    ensures |RealHandles(heap)| > 0 && RealHandles(heap)[0] == 0
    decreases |heap|
  {
    if |heap| > 1 {
      FirstRealHandle(heap[..|heap| - 1]);
    }
  }

  /** The dictionary holds exactly the ids the allocator returned. */
  lemma DictionaryKeys(heap: seq<NodeRec>, getId: nat -> Id, d: map<Id, nat>)
    requires IdsAssigned(heap, getId) && DictionaryConsistent(heap, getId, d)
    ensures d.Keys == set k | 0 <= k < |RealHandles(heap)| :: getId(k)
  {
    var r := RealHandles(heap);
    forall key | key in d ensures exists k :: 0 <= k < |r| && getId(k) == key {
      RealHandlesComplete(heap, d[key]);
      var j :| 0 <= j < |r| && r[j] == d[key];
      assert getId(j) == key;
    }
  }

  /** The trees below a node of a consistent store are well parented and carry that node as their parent. */
  lemma ForestBelow(heap: seq<NodeRec>, p: nat)
    requires ChildrenOrdered(heap) && ParentsConsistent(heap) && p < |heap|
    ensures forall i :: 0 <= i < |heap[p].children| ==>
      var t := Forest(heap, heap[p].children)[i];
      WellParented(t) && t.parentId == (if t.id.None? then None else heap[p].id)
  {
    forall i | 0 <= i < |heap[p].children|
      ensures WellParented(TreeAt(heap, heap[p].children[i]))
    {
      TreeAtWellParented(heap, heap[p].children[i]);
      assert ParentLink(heap[heap[p].children[i]], heap[p]);
    }
  }
}
