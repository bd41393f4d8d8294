/**
 * The steps of `_parseTokens` as functions on the parse state, and the
 * lemmas that show each step keeps the parse consistent.
 *
 * The state of a parse is what the recursive calls of `_parseTokens` share:
 * the token cursor, the node store, the id allocator's call count, the
 * optional dictionary and the logs of the two callbacks.
 */
module Steps {
  import opened Wrappers
  import opened Tokens
  import opened Identifiers
  import opened Store

  /** The default `getId`: a counter starting at 0, so its k-th call returns k. */
  function CountingId(k: nat): Id {
    k
  }

  /** The allocator a parse uses: the caller's, or the counter. */
  function Allocator(getId: Option<nat -> Id>): nat -> Id {
    if getId.Some? then getId.value else CountingId
  }

  /**
   * A sibling chain that is empty: its first token that is not an identifier
   * or a value is a `)`.
   */
  predicate ChainIsEmpty(tokens: seq<Token>, from: nat)
    requires from <= |tokens|
  {
    var q := FirstStructural(tokens, from);
    q < |tokens| && IsClose(tokens[q])
  }

  /** The first token of the chain starting at `from` that is not an identifier or a value is a `;`. */
  predicate StartsWithSemicolon(tokens: seq<Token>, from: nat)
    requires from <= |tokens|
  {
    var q := FirstStructural(tokens, from);
    q < |tokens| && tokens[q].kind == Semicolon
  }

  /** The `progress` values carried by the `)` tokens. */
  function CloseProgress(tokens: seq<Token>): set<nat> {
    set i | 0 <= i < |tokens| && IsClose(tokens[i]) :: tokens[i].progress
  }

  /** `dictionary[id] = node` when a dictionary was given. */
  function Register(dictionary: Option<map<Id, nat>>, id: Id, h: nat): Option<map<Id, nat>> {
    if dictionary.Some? then Some(dictionary.value[id := h]) else None
  }

  /**
   * The nodes `a` through `last` form one sibling chain: each node before
   * `last` has exactly the next one as its only child.  A real chain is all
   * real and hangs below `parentId`; a root container is a chain of one.
   */
  ghost predicate ChainAt(heap: seq<NodeRec>, a: nat, last: nat, parentId: Option<Id>) {
    && a <= last < |heap|
    && (forall k :: a <= k < last ==> heap[k].children == [k + 1])
    && (heap[a].id.Some? ==> heap[a].parentId == parentId && forall k :: a <= k <= last ==> heap[k].id.Some?)
    && (heap[a].id.None? ==> last == a)
  }

  /** What one parse shares across its recursive calls, as a value. */
  datatype State = State(
    pos: nat,
    calls: nat,
    heap: seq<NodeRec>,
    dictionary: Option<map<Id, nat>>,
    created: seq<Created>,
    progress: seq<nat>)

  /**
   * What every step of a parse keeps: a consistent store, one allocator call
   * per real node, the reports so far in allocation order, and a dictionary
   * that agrees with the store.
   */
  ghost predicate Inv(getId: nat -> Id, s: State) {
    && StoreOk(s.heap, getId)
    && s.calls == |RealHandles(s.heap)|
    && ReportsInOrder(s.heap, s.created)
    && (s.dictionary.Some? ==> DictionaryConsistent(s.heap, getId, s.dictionary.value))
  }

  /** `s` comes later in the same parse than `s0`: the cursor has not moved back, the dictionary is still there or still absent, and no older node object changed. */
  ghost predicate Grows(s0: State, s: State) {
    && s0.pos <= s.pos
    && (s0.dictionary.Some? <==> s.dictionary.Some?)
    && |s0.heap| <= |s.heap|
    && forall k :: 0 <= k < |s0.heap| ==> s.heap[k] == s0.heap[k]
  }

  /**
   * The store after a `;`: a new real node with the next id and no data
   * hangs below `parentId`, or below the previous node `node`, whose only
   * child it becomes.
   */
  function AfterSemicolon(heap: seq<NodeRec>, id: Id, parentId: Option<Id>, node: Option<nat>): seq<NodeRec>
    requires node.Some? ==> node.value < |heap|
  {
    var n := NodeRec(Some(id), map[], if node.None? then parentId else heap[node.value].id, []);
    if node.None? then heap + [n]
    else PushChild(heap + [n], node.value, |heap|)
  }

  /**
   * A `semicolon` token: one `getId` call, the new node registered in the
   * dictionary, and the previous node of the chain, if any, reported before
   * it gets the new node as its child.
   */
  function OnSemicolon(s: State, getId: nat -> Id, parentId: Option<Id>, node: Option<nat>): State
    requires node.Some? ==> node.value < |s.heap|
  {
    s.(calls := s.calls + 1,
       heap := AfterSemicolon(s.heap, getId(s.calls), parentId, node),
       dictionary := Register(s.dictionary, getId(s.calls), |s.heap|),
       created := if node.None? then s.created else s.created + [Created(node.value, s.heap[node.value])])
  }

  /**
   * The active property after a `prop_ident` token with text `value`:
   * unchanged while there is no node, cleared when the identifier
   * normalises to nothing, otherwise that identifier of the current node.
   */
  function PropertyAfterIdent(value: string, node: Option<nat>, property: Option<(nat, string)>): Option<(nat, string)> {
    if node.None? then property
    else if ShortCode(value) == "" then None
    else Some((node.value, ShortCode(value)))
  }

  /** The store after a `prop_ident` token: the normalised identifier becomes a key of the current node. */
  function HeapAfterIdent(heap: seq<NodeRec>, value: string, node: Option<nat>): seq<NodeRec>
    requires node.Some? ==> node.value < |heap|
  {
    if node.None? || ShortCode(value) == "" then heap else AddKey(heap, node.value, ShortCode(value))
  }

  /** The store after a `c_value_type` token: its text goes to the end of the active property's list. */
  function HeapAfterValue(heap: seq<NodeRec>, property: Option<(nat, string)>, v: string): seq<NodeRec>
    requires property.Some? ==> property.value.0 < |heap| && property.value.1 in heap[property.value.0].data
  {
    if property.None? then heap else AddValue(heap, property.value.0, property.value.1, v)
  }

  /** Extending a data map at the end of its lists is a preorder. */
  lemma DataExtendsTrans(a: map<string, seq<string>>, b: map<string, seq<string>>, c: map<string, seq<string>>)
    requires DataExtends(a, b) && DataExtends(b, c)
    ensures DataExtends(a, c)
  {
    forall key | key in a ensures key in c && a[key] <= c[key] {
      assert a[key] <= b[key] && b[key] <= c[key];
    }
  }

  /**
   * An update that keeps every node's id and parent and only extends data,
   * such as pushing a child, adding a key or appending a value, keeps the
   * reports and the dictionary consistent.
   */
  lemma InvAfterGrowth(getId: nat -> Id, s: State, heap': seq<NodeRec>)
    requires Inv(getId, s)
    requires StoreOk(heap', getId) && |heap'| == |s.heap|
    requires forall g :: 0 <= g < |s.heap| ==>
      heap'[g].id == s.heap[g].id && heap'[g].parentId == s.heap[g].parentId && DataExtends(s.heap[g].data, heap'[g].data)
    ensures Inv(getId, s.(heap := heap'))
  {
    RealHandlesSameIds(s.heap, heap');
    var r := RealHandles(s.heap);
    forall k | 0 <= k < |s.created| ensures SnapshotOf(s.created[k].snapshot, heap'[r[k]]) {
      DataExtendsTrans(s.created[k].snapshot.data, s.heap[r[k]].data, heap'[r[k]].data);
    }
  }

  /** An update that only extends the data of node `h` extends the data of every node. */
  lemma SingleGrowth(heap: seq<NodeRec>, r: seq<NodeRec>, h: nat)
    requires h < |heap| && |r| == |heap| && forall g :: 0 <= g < |heap| && g != h ==> r[g] == heap[g]
    requires r[h].id == heap[h].id && r[h].parentId == heap[h].parentId
    requires DataExtends(heap[h].data, r[h].data)
    ensures forall g :: 0 <= g < |heap| ==>
      r[g].id == heap[g].id && r[g].parentId == heap[g].parentId && DataExtends(heap[g].data, r[g].data)
  {
    forall g | 0 <= g < |heap| ensures DataExtends(heap[g].data, r[g].data) {
      if g != h {
        assert r[g] == heap[g];
      }
    }
  }

  /** Allocating a node keeps the report log consistent. */
  lemma ReportsAfterAppend(heap: seq<NodeRec>, created: seq<Created>, n: NodeRec)
    requires ReportsInOrder(heap, created)
    ensures ReportsInOrder(heap + [n], created)
  {
    RealHandlesAppend(heap, n);
    var r := RealHandles(heap);
    forall k | 0 <= k < |created| ensures (heap + [n])[r[k]] == heap[r[k]] {
    }
  }

  /** Registering the new real node under the next id keeps the dictionary consistent. */
  lemma DictionaryAfterNewNode(heap: seq<NodeRec>, getId: nat -> Id, d: map<Id, nat>, n: NodeRec)
    requires DictionaryConsistent(heap, getId, d)
    requires n.id == Some(getId(|RealHandles(heap)|))
    ensures DictionaryConsistent(heap + [n], getId, d[getId(|RealHandles(heap)|) := |heap|])
  {
    RealHandlesAppend(heap, n);
    var oldR := RealHandles(heap);
    DictionaryKeysAfterNewNode(heap, d, n, getId(|oldR|));
    DictionaryIdsAfterNewNode(|heap|, oldR, getId, d);
  }

  lemma DictionaryKeysAfterNewNode(heap: seq<NodeRec>, d: map<Id, nat>, n: NodeRec, nextId: Id)
    requires forall key :: key in d ==> d[key] < |heap| && heap[d[key]].id == Some(key)
    requires n.id == Some(nextId)
    ensures forall key :: key in d[nextId := |heap|] ==>
      d[nextId := |heap|][key] < |heap + [n]| && (heap + [n])[d[nextId := |heap|][key]].id == Some(key)
  {
    var r := heap + [n];
    var d' := d[nextId := |heap|];
    forall key | key in d' ensures d'[key] < |r| && r[d'[key]].id == Some(key) {
      if key != nextId {
        assert r[d[key]] == heap[d[key]];
      }
    }
  }

  lemma DictionaryIdsAfterNewNode(h: nat, oldR: seq<nat>, getId: nat -> Id, d: map<Id, nat>)
    requires forall k :: 0 <= k < |oldR| ==> getId(k) in d && d[getId(k)] >= oldR[k]
    requires forall k :: 0 <= k < |oldR| ==> oldR[k] < h
    ensures forall k :: 0 <= k < |oldR + [h]| ==>
      getId(k) in d[getId(|oldR|) := h] && d[getId(|oldR|) := h][getId(k)] >= (oldR + [h])[k]
  {
    var nr := oldR + [h];
    var d' := d[getId(|oldR|) := h];
    forall k | 0 <= k < |nr| ensures getId(k) in d' && d'[getId(k)] >= nr[k] {
      if k < |oldR| {
        assert nr[k] == oldR[k];
      }
    }
  }

  /** Allocating a real node for a `;` keeps the parse consistent and makes it the newest real node. */
  lemma InvAfterNewNode(getId: nat -> Id, s: State, parentId: Option<Id>)
    requires Inv(getId, s)
    ensures var n := NodeRec(Some(getId(s.calls)), map[], parentId, []);
      && RealHandles(s.heap + [n]) == RealHandles(s.heap) + [|s.heap|]
      && Inv(getId, s.(calls := s.calls + 1, heap := s.heap + [n],
                       dictionary := Register(s.dictionary, getId(s.calls), |s.heap|)))
  {
    var n := NodeRec(Some(getId(s.calls)), map[], parentId, []);
    ReportsAfterAppend(s.heap, s.created, n);
    if s.dictionary.Some? {
      DictionaryAfterNewNode(s.heap, getId, s.dictionary.value, n);
    }
    AddNodeOk(s.heap, getId, n);
  }

  /** Allocating a root container keeps the parse consistent and allocates no id. */
  lemma InvAfterContainer(getId: nat -> Id, s: State)
    requires Inv(getId, s)
    ensures RealHandles(s.heap + [NodeRec(None, map[], None, [])]) == RealHandles(s.heap)
    ensures Inv(getId, s.(heap := s.heap + [NodeRec(None, map[], None, [])]))
  {
    var n := NodeRec(None, map[], None, []);
    ReportsAfterAppend(s.heap, s.created, n);
    if s.dictionary.Some? {
      forall key | key in s.dictionary.value
        ensures (s.heap + [n])[s.dictionary.value[key]] == s.heap[s.dictionary.value[key]]
      {
      }
    }
    AddNodeOk(s.heap, getId, n);
  }

  /** Pushing child `c` onto the children of `p` keeps the parse consistent. */
  lemma InvAfterAttach(getId: nat -> Id, s: State, p: nat, c: nat)
    requires Inv(getId, s)
    requires p < c < |s.heap|
    requires forall i :: 0 <= i < |s.heap[p].children| ==> s.heap[p].children[i] < c
    requires ParentLink(s.heap[c], s.heap[p])
    ensures Inv(getId, s.(heap := PushChild(s.heap, p, c)))
  {
    var r := PushChild(s.heap, p, c);
    PushChildOk(s.heap, getId, p, c);
    forall g | 0 <= g < |s.heap| ensures DataExtends(s.heap[g].data, r[g].data) {
      assert r[g].data == s.heap[g].data;
    }
    InvAfterGrowth(getId, s, r);
  }

  /** Reporting the oldest unreported real node, while its children are still empty, keeps the reports in order. */
  lemma InvAfterReport(getId: nat -> Id, s: State, h: nat)
    requires Inv(getId, s)
    requires |s.created| < |RealHandles(s.heap)| && RealHandles(s.heap)[|s.created|] == h
    requires s.heap[h].children == []
    ensures Inv(getId, s.(created := s.created + [Created(h, s.heap[h])]))
  {
  }

  /** The newest node, when it is real and all older ones are reported, is the next to report. */
  lemma LastUnreported(getId: nat -> Id, s: State, n: nat)
    requires Inv(getId, s)
    requires n + 1 == |s.heap| && s.heap[n].id.Some? && |s.created| + 1 == s.calls
    ensures |s.created| < |RealHandles(s.heap)| && RealHandles(s.heap)[|s.created|] == n
  {
    RealHandlesLast(s.heap);
  }

  /** A `;` keeps the parse consistent: the previous node is reported before it gets its child. */
  lemma InvAfterSemicolon(getId: nat -> Id, s: State, parentId: Option<Id>, node: Option<nat>)
    requires Inv(getId, s)
    requires node.None? ==> |s.created| == s.calls
    requires node.Some? ==> node.value + 1 == |s.heap| && s.heap[node.value].id.Some? &&
                            s.heap[node.value].children == [] && |s.created| + 1 == s.calls
    ensures Inv(getId, OnSemicolon(s, getId, parentId, node))
  {
    var pid := if node.None? then parentId else s.heap[node.value].id;
    var n := NodeRec(Some(getId(s.calls)), map[], pid, []);
    InvAfterNewNode(getId, s, pid);
    var s1 := s.(calls := s.calls + 1, heap := s.heap + [n], dictionary := Register(s.dictionary, getId(s.calls), |s.heap|));
    if node.Some? {
      var p := node.value;
      LastUnreported(getId, s, p);
      assert RealHandles(s1.heap)[|s.created|] == p;
      InvAfterReport(getId, s1, p);
      var s2 := s1.(created := s.created + [Created(p, s1.heap[p])]);
      InvAfterAttach(getId, s2, p, |s.heap|);
      assert OnSemicolon(s, getId, parentId, node) == s2.(heap := PushChild(s2.heap, p, |s.heap|));
    }
  }

  /** A `prop_ident` keeps the parse consistent. */
  lemma InvAfterIdent(getId: nat -> Id, s: State, value: string, node: Option<nat>)
    requires Inv(getId, s)
    requires node.Some? ==> node.value < |s.heap| && s.heap[node.value].id.Some?
    ensures Inv(getId, s.(heap := HeapAfterIdent(s.heap, value, node)))
  {
    if node.Some? && ShortCode(value) != "" {
      var h, key := node.value, ShortCode(value);
      ShortCodeIdempotent(value);
      AddKeyOk(s.heap, getId, h, key);
      var r := AddKey(s.heap, h, key);
      SingleGrowth(s.heap, r, h);
      InvAfterGrowth(getId, s, r);
    }
  }

  /** A `c_value_type` keeps the parse consistent. */
  lemma InvAfterValue(getId: nat -> Id, s: State, property: Option<(nat, string)>, v: string)
    requires Inv(getId, s)
    requires property.Some? ==> property.value.0 < |s.heap| && s.heap[property.value.0].id.Some? &&
                                property.value.1 in s.heap[property.value.0].data
    ensures Inv(getId, s.(heap := HeapAfterValue(s.heap, property, v)))
  {
    if property.Some? {
      var h, key := property.value.0, property.value.1;
      AddValueOk(s.heap, getId, h, key, v);
      var r := AddValue(s.heap, h, key, v);
      assert DataExtends(s.heap[h].data, r[h].data);
      SingleGrowth(s.heap, r, h);
      InvAfterGrowth(getId, s, r);
    }
  }

  /**
   * The state of the first loop of `_parseTokens` started in state `start`:
   * before the first `;` nothing but the cursor has moved, over identifiers
   * and values only; after it the nodes allocated since form one chain whose
   * last node is `node`, still unreported, and any active property belongs
   * to that chain.  Every `;` passed allocated exactly one id.
   */
  ghost predicate ChainState(tokens: seq<Token>, parentId: Option<Id>, start: State, s: State,
                             anchor: Option<nat>, node: Option<nat>, property: Option<(nat, string)>) {
    && start.pos <= s.pos <= |tokens|
    && |start.created| == start.calls
    && s.calls == start.calls + SemicolonCount(tokens, start.pos, s.pos)
    && s.progress == start.progress
    && Grows(start, s)
    && (node.None? ==>
          && anchor.None? && property.None? && s.heap == start.heap && s.calls == start.calls
          && s.created == start.created && s.dictionary == start.dictionary
          && FirstStructural(tokens, start.pos) == FirstStructural(tokens, s.pos))
    && (node.Some? ==>
          && anchor == Some(|start.heap|) && node.value + 1 == |s.heap|
          && ChainAt(s.heap, |start.heap|, node.value, parentId) && s.heap[|start.heap|].id.Some?
          && s.heap[node.value].children == [] && |s.created| + 1 == s.calls
          && StartsWithSemicolon(tokens, start.pos))
    && (property.Some? ==>
          && |start.heap| <= property.value.0 < |s.heap| && s.heap[property.value.0].id.Some?
          && property.value.1 in s.heap[property.value.0].data)
  }

  /** A `;` followed by `next()` extends the chain by one node. */
  lemma ChainAfterSemicolon(tokens: seq<Token>, getId: nat -> Id, parentId: Option<Id>, start: State, s: State,
                            anchor: Option<nat>, node: Option<nat>, property: Option<(nat, string)>)
    requires ChainState(tokens, parentId, start, s, anchor, node, property)
    requires s.pos < |tokens| && tokens[s.pos].kind == Semicolon
    ensures node.Some? ==> node.value < |s.heap|
    ensures ChainState(tokens, parentId, start, OnSemicolon(s, getId, parentId, node).(pos := s.pos + 1),
                       if node.None? then Some(|s.heap|) else anchor, Some(|s.heap|), property)
  {
    if node.None? {
      FirstSemicolon(tokens, getId, parentId, start, s);
    } else {
      NextSemicolon(tokens, getId, parentId, start, s, anchor, node.value, property);
    }
  }

  /** The first `;` of a chain allocates its anchor. */
  lemma FirstSemicolon(tokens: seq<Token>, getId: nat -> Id, parentId: Option<Id>, start: State, s: State)
    requires ChainState(tokens, parentId, start, s, None, None, None)
    requires s.pos < |tokens| && tokens[s.pos].kind == Semicolon
    ensures ChainState(tokens, parentId, start, OnSemicolon(s, getId, parentId, None).(pos := s.pos + 1),
                       Some(|s.heap|), Some(|s.heap|), None)
  {
    assert FirstStructural(tokens, s.pos) == s.pos;
    var r := OnSemicolon(s, getId, parentId, None).heap;
    assert ChainAt(r, |start.heap|, |s.heap|, parentId);
  }

  /** A later `;` of a chain hangs its node below the previous one. */
  lemma NextSemicolon(tokens: seq<Token>, getId: nat -> Id, parentId: Option<Id>, start: State, s: State,
                      anchor: Option<nat>, p: nat, property: Option<(nat, string)>)
    requires ChainState(tokens, parentId, start, s, anchor, Some(p), property)
    requires s.pos < |tokens| && tokens[s.pos].kind == Semicolon
    ensures ChainState(tokens, parentId, start, OnSemicolon(s, getId, parentId, Some(p)).(pos := s.pos + 1),
                       anchor, Some(|s.heap|), property)
  {
    var a := |start.heap|;
    var r := OnSemicolon(s, getId, parentId, Some(p)).heap;
    assert |r| == |s.heap| + 1;
    assert forall k :: 0 <= k < |s.heap| && k != p ==> r[k] == s.heap[k];
    assert r[p].children == [p + 1] && r[p].id == s.heap[p].id && r[p].parentId == s.heap[p].parentId;
    assert ChainAt(r, a, |s.heap|, parentId);
  }

  /**
   * An update that keeps every node's id, parent and children, and only adds
   * keys, keeps a chain and the keys a property names.
   */
  lemma SameShape(heap: seq<NodeRec>, r: seq<NodeRec>, a: nat, last: nat, parentId: Option<Id>)
    requires |r| == |heap|
    requires forall g :: 0 <= g < |heap| ==>
      r[g].id == heap[g].id && r[g].parentId == heap[g].parentId && r[g].children == heap[g].children
    requires ChainAt(heap, a, last, parentId)
    ensures ChainAt(r, a, last, parentId)
  {
  }

  /** A `prop_ident` followed by `next()` keeps the chain. */
  lemma ChainAfterIdent(tokens: seq<Token>, parentId: Option<Id>, start: State, s: State,
                        anchor: Option<nat>, node: Option<nat>, property: Option<(nat, string)>)
    requires ChainState(tokens, parentId, start, s, anchor, node, property)
    requires s.pos < |tokens| && tokens[s.pos].kind == PropIdent
    ensures node.Some? ==> node.value < |s.heap| && s.heap[node.value].id.Some?
    ensures ChainState(tokens, parentId, start,
                       s.(pos := s.pos + 1, heap := HeapAfterIdent(s.heap, tokens[s.pos].value, node)),
                       anchor, node, PropertyAfterIdent(tokens[s.pos].value, node, property))
  {
    if node.Some? && ShortCode(tokens[s.pos].value) != "" {
      var h, key := node.value, ShortCode(tokens[s.pos].value);
      var r := AddKey(s.heap, h, key);
      assert forall g :: 0 <= g < |s.heap| && g != h ==> r[g] == s.heap[g];
      assert key in r[h].data;
      SameShape(s.heap, r, |start.heap|, h, parentId);
    }
  }

  /** A `c_value_type` followed by `next()` keeps the chain. */
  lemma ChainAfterValue(tokens: seq<Token>, parentId: Option<Id>, start: State, s: State, v: string,
                        anchor: Option<nat>, node: Option<nat>, property: Option<(nat, string)>)
    requires ChainState(tokens, parentId, start, s, anchor, node, property)
    requires s.pos < |tokens| && tokens[s.pos].kind == CValueType
    ensures property.Some? ==> property.value.0 < |s.heap| && s.heap[property.value.0].id.Some? &&
                               property.value.1 in s.heap[property.value.0].data
    ensures ChainState(tokens, parentId, start, s.(pos := s.pos + 1, heap := HeapAfterValue(s.heap, property, v)),
                       anchor, node, property)
  {
  }

  /**
   * `s` comes later than `s0` in the variation loop of node `n`: the cursor
   * has not moved back, no older node object changed, and `n` itself only got
   * more children.
   */
  ghost predicate GrowsAt(s0: State, s: State, n: nat) {
    && s0.pos <= s.pos
    && (s0.dictionary.Some? <==> s.dictionary.Some?)
    && n < |s0.heap| <= |s.heap|
    && (forall k :: 0 <= k < |s0.heap| && k != n ==> s.heap[k] == s0.heap[k])
    && s.heap[n] == s0.heap[n].(children := s.heap[n].children)
    && s0.heap[n].children <= s.heap[n].children
  }

  /** The variation loop of `n` starts where it is. */
  lemma GrowsAtStart(s: State, n: nat)
    requires n < |s.heap|
    ensures GrowsAt(s, s, n)
  {
    assert s.heap[n] == s.heap[n].(children := s.heap[n].children);
  }

  /** Two stretches of the same variation loop make one. */
  lemma GrowsAtThenGrowsAt(s0: State, s1: State, s2: State, n: nat)
    requires GrowsAt(s0, s1, n) && GrowsAt(s1, s2, n)
    ensures GrowsAt(s0, s2, n)
  {
  }

  /**
   * The anchor `c` a nested parse returned, started right below node `n`,
   * may be pushed onto the children of `n`: it is newer than every child
   * `n` has, and it carries `n` as its parent.
   */
  lemma AttachReady(getId: nat -> Id, s0: State, s: State, n: nat, c: nat, last: nat)
    requires Inv(getId, s0) && Inv(getId, s)
    requires n < |s0.heap| && c == |s0.heap| && Grows(s0, s)
    requires ChainAt(s.heap, c, last, s0.heap[n].id)
    ensures n < c < |s.heap|
    ensures forall i :: 0 <= i < |s.heap[n].children| ==> s.heap[n].children[i] < c
    ensures ParentLink(s.heap[c], s.heap[n])
  {
    assert s.heap[n] == s0.heap[n];
    forall i | 0 <= i < |s.heap[n].children| ensures s.heap[n].children[i] < c {
      assert s0.heap[n].children[i] < |s0.heap|;
    }
  }

  /** Pushing a child onto `n` keeps the variation loop's frame. */
  lemma GrowsAtPush(s0: State, s: State, n: nat, c: nat)
    requires GrowsAt(s0, s, n)
    ensures GrowsAt(s0, s.(heap := PushChild(s.heap, n, c)), n)
  {
    var r := PushChild(s.heap, n, c);
    assert s0.heap[n].children <= s.heap[n].children <= r[n].children;
  }

  /**
   * After the variation loop of the chain's last node `n`, the nodes older
   * than the chain are untouched and the chain is unchanged.
   */
  lemma GrowsAfterVariations(start: State, s0: State, s: State, a: nat, n: nat, parentId: Option<Id>)
    requires Grows(start, s0) && GrowsAt(s0, s, n) && |start.heap| <= a
    requires ChainAt(s0.heap, a, n, parentId)
    ensures Grows(start, s)
    ensures ChainAt(s.heap, a, n, parentId) && s.heap[a].id == s0.heap[a].id
  {
    forall k | a <= k < n ensures s.heap[k].children == [k + 1] {
      assert s.heap[k] == s0.heap[k];
    }
    assert s.heap[a].id == s0.heap[a].id && s.heap[a].parentId == s0.heap[a].parentId;
  }

  /**
   * What one call of `_parseTokens`, started in state `s0` below `parentId`,
   * leaves behind in state `s`: it either threw at an unrecognised token of
   * a chain that was not empty, or stopped at the end of the input or at a
   * `)` with every real node reported.  It returned nothing exactly when its
   * chain was empty, and then changed nothing but the cursor; otherwise it
   * returned the chain's first node, the first node it allocated, which is
   * real exactly when the chain starts with a `;`.
   */
  ghost predicate Parsed(tokens: seq<Token>, parentId: Option<Id>, s0: State, s: State,
                         anchor: Option<nat>, err: Option<ParseError>, last: nat) {
    && Grows(s0, s) && s.pos <= |tokens|
    && (err.Some? ==>
          && anchor.None? && s.pos < |tokens| && !Recognised(tokens[s.pos])
          && err.value == UnexpectedAt(tokens[s.pos]) && !ChainIsEmpty(tokens, s0.pos))
    && (err.None? ==>
          && |s.created| == s.calls && (s.pos == |tokens| || IsClose(tokens[s.pos]))
          && (anchor.None? <==> ChainIsEmpty(tokens, s0.pos)))
    && (err.None? && anchor.None? ==> s == s0.(pos := s.pos))
    && (anchor.Some? ==>
          && anchor.value == |s0.heap| && ChainAt(s.heap, anchor.value, last, parentId)
          && (s.heap[anchor.value].id.Some? <==> StartsWithSemicolon(tokens, s0.pos)))
  }

  /**
   * A chain that a `(` or the end of the input ended in state `s` is not
   * empty; once its last node is reported, or the container is allocated
   * when it has none (state `mid`), it is complete, with node `n` last.
   */
  lemma ChainEndsOpen(tokens: seq<Token>, parentId: Option<Id>, start: State, s: State, mid: State,
                      anchor: Option<nat>, node: Option<nat>, property: Option<(nat, string)>, n: nat)
    requires ChainState(tokens, parentId, start, s, anchor, node, property)
    requires s.pos == |tokens| || IsOpen(tokens[s.pos])
    requires mid.pos == s.pos && (mid.dictionary.Some? <==> s.dictionary.Some?)
    requires node.None? ==> n == |s.heap| && mid.heap == s.heap + [NodeRec(None, map[], None, [])]
    requires node.Some? ==> n == node.value && mid.heap == s.heap
    ensures Grows(start, mid) && start.pos <= |tokens|
    ensures ChainAt(mid.heap, |start.heap|, n, parentId)
    ensures mid.heap[|start.heap|].id.Some? <==> StartsWithSemicolon(tokens, start.pos)
    ensures !ChainIsEmpty(tokens, start.pos)
  {
    assert FirstStructural(tokens, s.pos) == s.pos;
    if node.None? {
      assert forall k :: 0 <= k < |start.heap| ==> mid.heap[k] == start.heap[k];
    }
  }

  /**
   * The chain whose anchor is `a` and whose last node is `n` was complete in
   * state `mid`; its variation loop then ran from `mid` to `s`.
   */
  lemma ParsedAfterVariations(tokens: seq<Token>, parentId: Option<Id>, start: State, mid: State, s: State,
                              n: nat, err: Option<ParseError>)
    requires Grows(start, mid) && start.pos <= |tokens| && s.pos <= |tokens|
    requires ChainAt(mid.heap, |start.heap|, n, parentId)
    requires mid.heap[|start.heap|].id.Some? <==> StartsWithSemicolon(tokens, start.pos)
    requires !ChainIsEmpty(tokens, start.pos)
    requires GrowsAt(mid, s, n)
    requires err.Some? ==> s.pos < |tokens| && !Recognised(tokens[s.pos]) && err.value == UnexpectedAt(tokens[s.pos])
    requires err.None? ==> |s.created| == s.calls && (s.pos == |tokens| || IsClose(tokens[s.pos]))
    ensures Parsed(tokens, parentId, start, s, if err.Some? then None else Some(|start.heap|), err, n)
  {
    GrowsAfterVariations(start, mid, s, |start.heap|, n, parentId);
  }
}
