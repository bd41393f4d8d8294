/**
 * The tree builder: `_parseTokens` and its entry point `parseTokens`.
 *
 * A `TreeBuilder` holds what one parse shares across its recursive calls;
 * each of its methods performs one step of `_parseTokens` and states the new
 * state by the step function of the `Steps` module that describes it.
 */
module Parser {
  import opened Wrappers
  import opened Tokens
  import opened Identifiers
  import opened Store
  import opened Steps
  import opened Reference

  class TreeBuilder {
    const tokens: seq<Token>
    const getId: nat -> Id
    const unescape: string -> string

    /** The lookahead cursor: the index of the token `peek()` returns. */
    var pos: nat
    /** How many times `getId` has been called. */
    var calls: nat
    /** The node objects allocated so far, by handle. */
    var heap: seq<NodeRec>
    /** The caller's dictionary, when one was given. */
    var dictionary: Option<map<Id, nat>>
    /** The `onNodeCreated` calls so far. */
    var created: seq<Created>
    /** The `onProgress` calls so far. */
    var progress: seq<nat>

    /** The builder's fields as one value. */
    ghost function View(): State
      reads this
    {
      State(pos, calls, heap, dictionary, created, progress)
    }

    /** The parse is consistent: see `Consistent`. */
    ghost predicate Valid()
      reads this
    {
      Consistent(tokens, getId, View())
    }

    /** A builder at the first token, with nothing allocated yet. */
    constructor (tokens: seq<Token>, getId: nat -> Id, withDictionary: bool, unescape: string -> string)
      ensures Valid()
      ensures this.tokens == tokens && this.getId == getId && this.unescape == unescape
      ensures View() == Start(withDictionary)
    {
      this.tokens := tokens;
      this.getId := getId;
      this.unescape := unescape;
      pos := 0;
      calls := 0;
      heap := [];
      dictionary := if withDictionary then Some(map[]) else None;
      created := [];
      progress := [];
    }

    /** `peekableTokens.next()`: consume the current token (a no-op at the end). */
    method Next()
      modifies this`pos
      ensures View() == Advance(tokens, old(View()))
    {
      if pos < |tokens| {
        pos := pos + 1;
      }
    }

    /** `onNodeCreated({node})` for the node object at handle `h`, as it is now. */
    method Report(h: nat)
      requires h < |heap|
      modifies this`created
      ensures View() == NodeCreated(old(View()), h)
    {
      created := created + [Created(h, heap[h])];
    }

    /** The root container of a chain that created no node: id and parent `null`, nothing else. */
    method NewContainer() returns (h: nat)
      modifies this`heap
      ensures h == |old(heap)| && View() == old(View()).(heap := old(heap) + [NodeRec(None, map[], None, [])])
    {
      h := |heap|;
      heap := heap + [NodeRec(None, map[], None, [])];
    }

    /** `node.children.push(child)`. */
    method AttachChild(p: nat, c: nat)
      requires p < |heap|
      modifies this`heap
      ensures View() == old(View()).(heap := PushChild(old(heap), p, c))
    {
      heap := PushChild(heap, p, c);
    }

    /** `onProgress({progress})` for the `)` at the cursor. */
    method ReportProgress()
      requires pos < |tokens|
      modifies this`progress
      ensures View() == old(View()).(progress := old(progress) + [tokens[pos].progress])
    {
      progress := progress + [tokens[pos].progress];
    }

    /**
     * The first loop of `_parseTokens`: the sibling chain up to the first
     * `(`, `)` or the end.  `closed` says a `)` ended it, left unconsumed;
     * the last node of the chain is not yet reported.  The loop computes
     * `Scan`; `ScanKeepsChain` says what that leaves behind.
     */
    method ParseSequence(parentId: Option<Id>)
      returns (anchor: Option<nat>, node: Option<nat>, property: Option<(nat, string)>, err: Option<ParseError>, closed: bool)
      requires pos <= |tokens|
      modifies this`pos, this`heap, this`calls, this`dictionary, this`created
      ensures Scanned(View(), anchor, node, property, err, closed) ==
              Scan(tokens, getId, unescape, parentId, old(View()), None, None, None)
    {
      anchor, node, property, err, closed := None, None, None, None, false;
      ghost var r := Scan(tokens, getId, unescape, parentId, View(), None, None, None);
      while pos < |tokens|
        invariant pos <= |tokens| && InStore(heap, node, property)
        invariant Scan(tokens, getId, unescape, parentId, View(), anchor, node, property) == r
        decreases |tokens| - pos
      {
        var t := tokens[pos];
        if IsOpen(t) {
          break;
        }
        if IsClose(t) {
          closed := true;
          break;
        }
        if !Recognised(t) {
          err := Some(UnexpectedAt(t));
          break;
        }
        if t.kind == Semicolon {
          anchor, node := ChainSemicolon(parentId, anchor, node, property);
        } else if t.kind == PropIdent {
          property := ChainIdent(parentId, anchor, node, property);
        } else {
          ChainValue(parentId, anchor, node, property);
        }
      }
      assert View() == r.s && anchor == r.anchor && node == r.node && property == r.property;
    }

    /** A `;` of the first loop, followed by `next()`: see `OnSemicolon`. */
    method ChainSemicolon(parentId: Option<Id>, anchor: Option<nat>, node: Option<nat>, ghost property: Option<(nat, string)>)
      returns (anchor': Option<nat>, node': Option<nat>)
      requires pos < |tokens| && tokens[pos].kind == Semicolon && InStore(heap, node, property)
      modifies this`pos, this`heap, this`calls, this`dictionary, this`created
      ensures node' == Some(|old(heap)|) && anchor' == (if node.None? then node' else anchor)
      ensures View() == OnSemicolon(old(View()), getId, parentId, node).(pos := old(pos) + 1)
      ensures Scanned(View(), anchor', node', property, None, false) ==
              Step(tokens, getId, unescape, parentId, old(View()), anchor, node, property)
    {
      var s := OnSemicolon(State(pos, calls, heap, dictionary, created, progress), getId, parentId, node);
      anchor' := if node.None? then Some(|heap|) else anchor;
      node' := Some(|heap|);
      pos, calls, heap, dictionary, created := pos + 1, s.calls, s.heap, s.dictionary, s.created;
    }

    /** An identifier of the first loop, followed by `next()`: see `HeapAfterIdent` and `PropertyAfterIdent`. */
    method ChainIdent(ghost parentId: Option<Id>, ghost anchor: Option<nat>, node: Option<nat>, property: Option<(nat, string)>)
      returns (property': Option<(nat, string)>)
      requires pos < |tokens| && tokens[pos].kind == PropIdent && InStore(heap, node, property)
      modifies this`pos, this`heap
      ensures View() == old(View()).(pos := old(pos) + 1, heap := HeapAfterIdent(old(heap), tokens[old(pos)].value, node))
      ensures property' == PropertyAfterIdent(tokens[old(pos)].value, node, property)
      ensures Scanned(View(), anchor, node, property', None, false) ==
              Step(tokens, getId, unescape, parentId, old(View()), anchor, node, property)
    {
      var value := tokens[pos].value;
      property' := PropertyAfterIdent(value, node, property);
      heap := HeapAfterIdent(heap, value, node);
      pos := pos + 1;
    }

    /**
     * A value of the first loop, followed by `next()`: its text without the
     * brackets, unescaped, goes to the end of the active property's list.
     */
    method ChainValue(ghost parentId: Option<Id>, ghost anchor: Option<nat>, ghost node: Option<nat>, property: Option<(nat, string)>)
      requires pos < |tokens| && tokens[pos].kind == CValueType && InStore(heap, node, property)
      modifies this`pos, this`heap
      ensures View() == old(View()).(pos := old(pos) + 1,
                                     heap := HeapAfterValue(old(heap), property, unescape(ValueText(tokens[old(pos)].value))))
      ensures Scanned(View(), anchor, node, property, None, false) ==
              Step(tokens, getId, unescape, parentId, old(View()), anchor, node, property)
    {
      var v := unescape(ValueText(tokens[pos].value));
      heap := HeapAfterValue(heap, property, v);
      pos := pos + 1;
    }

    /**
     * `_parseTokens(peekableTokens, parentId, options)`: the sibling chain at
     * the cursor, then its variations, each parsed by a nested call and
     * pushed onto the chain's last node.  It computes `ParseFrom`; what that
     * returns and leaves behind is stated by `ParseFromOk`.
     */
    method Parse(parentId: Option<Id>) returns (anchor: Option<nat>, err: Option<ParseError>)
      requires pos <= |tokens|
      modifies this
      decreases |tokens| - pos, 3
      ensures Call(View(), anchor, err) == ParseFrom(tokens, getId, unescape, parentId, old(View()))
    {
      var node: Option<nat>, property: Option<(nat, string)>, closed: bool;
      anchor, node, property, err, closed := ParseSequence(parentId);
      if err.Some? {
        anchor := None;
      } else if closed {
        EndAtClose(node);
      } else {
        anchor, err := EndWithVariations(anchor, node);
      }
    }

    /** A `)` ended the chain: report its last node, if any; the `)` stays unconsumed. */
    method EndAtClose(node: Option<nat>)
      requires node.Some? ==> node.value < |heap|
      modifies this`created
      ensures View() == if node.Some? then NodeCreated(old(View()), node.value) else old(View())
    {
      if node.Some? {
        Report(node.value);
      }
    }

    /**
     * A `(` or the end of the input ended the chain: report its last node,
     * or synthesise the container when the chain has none, then parse the
     * variations below it.
     */
    method EndWithVariations(anchor: Option<nat>, node: Option<nat>) returns (anchor': Option<nat>, err: Option<ParseError>)
      requires pos <= |tokens| && (node.Some? ==> node.value < |heap|)
      modifies this
      decreases |tokens| - pos, 2
      ensures Call(View(), anchor', err) == ChainThenVariations(tokens, getId, unescape, old(View()), anchor, node)
    {
      var n: nat;
      if node.None? {
        n := NewContainer();
      } else {
        n := node.value;
        Report(n);
      }
      err := ParseVariations(n);
      anchor' := if err.Some? then None else if node.None? then Some(n) else anchor;
    }

    /**
     * The second loop of `_parseTokens`, for the chain's last node `n`: each
     * `(` starts a nested parse whose result, if any, becomes the next child
     * of `n`; a `)` is reported through `onProgress` and ends the loop
     * unconsumed; every other token is skipped.
     */
    method ParseVariations(n: nat) returns (err: Option<ParseError>)
      requires pos <= |tokens| && n < |heap|
      modifies this
      decreases |tokens| - pos, 1
      ensures (View(), err) == Variations(tokens, getId, unescape, n, old(View()))
    {
      err := None;
      while pos < |tokens|
        invariant pos <= |tokens| && n < |heap| && err.None?
        invariant Variations(tokens, getId, unescape, n, View()) == Variations(tokens, getId, unescape, n, old(View()))
        decreases |tokens| - pos
      {
        var t := tokens[pos];
        ghost var before := View();
        if IsOpen(t) {
          err := Variation(n);
          if err.Some? {
            assert (View(), err) == Variations(tokens, getId, unescape, n, before);
            return;
          }
          assert Variations(tokens, getId, unescape, n, before) == Variations(tokens, getId, unescape, n, Advance(tokens, View()));
        } else if IsClose(t) {
          ReportProgress();
          assert (View(), err) == Variations(tokens, getId, unescape, n, before);
          return;
        } else {
          assert Variations(tokens, getId, unescape, n, before) == Variations(tokens, getId, unescape, n, Advance(tokens, View()));
        }
        Next();
      }
      assert (View(), err) == Variations(tokens, getId, unescape, n, View());
    }

    /**
     * A `(` in the variation loop of node `n`: consume it, parse the nested
     * chain below `n` and push its anchor, if any, onto the children of `n`.
     * The token that ended the nested chain is still at the cursor.
     */
    method Variation(n: nat) returns (err: Option<ParseError>)
      requires pos < |tokens| && IsOpen(tokens[pos]) && n < |heap|
      modifies this
      decreases |tokens| - pos, 0
      ensures (View(), err) == VariationAt(tokens, getId, unescape, n, old(View()))
    {
      Next();
      var child;
      child, err := Parse(heap[n].id);
      if child.Some? {
        AttachChild(n, child.value);
      }
    }
  }

  /** What `parseTokens` leaves with its caller besides its result. */
  datatype Effects = Effects(
    /** The caller's dictionary after the parse, each entry as the tree below its node. */
    dictionary: Option<map<Id, Node>>,
    /** The nodes `onNodeCreated` received, each as it was at that moment. */
    created: seq<Node>,
    /** The values `onProgress` received. */
    progress: seq<nat>)

  /** A state whose node objects, dictionary entries and reports can be read out as plain trees. */
  ghost predicate Readable(s: State) {
    && ChildrenOrdered(s.heap)
    && (s.dictionary.Some? ==> forall id :: id in s.dictionary.value ==> s.dictionary.value[id] < |s.heap|)
    && (forall k, i :: 0 <= k < |s.created| && 0 <= i < |s.created[k].snapshot.children| ==>
          s.created[k].snapshot.children[i] < |s.heap|)
  }

  /** The node an `onNodeCreated` call received, as it was at that moment. */
  function Reported(heap: seq<NodeRec>, c: Created): Node
    requires ChildrenOrdered(heap)
    requires forall i :: 0 <= i < |c.snapshot.children| ==> c.snapshot.children[i] < |heap|
  {
    Node(c.snapshot.id, c.snapshot.data, c.snapshot.parentId, Forest(heap, c.snapshot.children))
  }

  /** The entries this parse wrote to the dictionary, each as the tree below its node. */
  function Entries(s: State): map<Id, Node>
    requires Readable(s)
  {
    if s.dictionary.Some? then map id | id in s.dictionary.value :: TreeAt(s.heap, s.dictionary.value[id]) else map[]
  }

  /**
   * What the caller holds once a parse ended in state `s`, whether it
   * returned or threw: the dictionary `init` it passed, with this parse's
   * entries written over it, and the two callback logs.
   */
  function EffectsOf(s: State, init: Option<map<Id, Node>>): Effects
    requires Readable(s)
  {
    Effects(
      if init.Some? then Some(init.value + Entries(s)) else None,
      seq(|s.created|, k requires 0 <= k < |s.created| => Reported(s.heap, s.created[k])),
      s.progress)
  }

  /**
   * What `parseTokens` returns after the top-level call `c`: its error, a
   * failure to read `children` of the `null` it returned, or the children
   * of the node it returned, as trees.
   */
  function Returned(c: Call): Result<seq<Node>, ParseError>
    requires Readable(c.s) && (c.anchor.Some? ==> c.anchor.value < |c.s.heap|)
  {
    if c.err.Some? then Err(c.err.value)
    else if c.anchor.None? then Err(NullRoot)
    else Ok(Forest(c.s.heap, c.s.heap[c.anchor.value].children))
  }

  /** A consistent state can be read out, and every report was made before the node had children. */
  lemma ConsistentReadable(tokens: seq<Token>, getId: nat -> Id, s: State)
    requires Consistent(tokens, getId, s)
    ensures Readable(s)
    ensures forall k :: 0 <= k < |s.created| ==> s.created[k].snapshot.children == []
  {
    forall k | 0 <= k < |s.created| ensures s.created[k].snapshot.children == [] {
      assert SnapshotOf(s.created[k].snapshot, s.heap[RealHandles(s.heap)[k]]);
    }
  }

  /** The ids of the first `n` allocator calls. */
  function Allocated(gid: nat -> Id, n: nat): set<Id> {
    set k | 0 <= k < n :: gid(k)
  }

  /**
   * Every node of the tree `t` that has an id was reported: some report
   * carries the same id and parent, and data that the tree's data has only
   * extended since.
   */
  ghost predicate Announced(t: Node, created: seq<Node>) {
    && (t.id.Some? ==>
          exists k :: 0 <= k < |created| && created[k].id == t.id && created[k].parentId == t.parentId &&
                      DataExtends(created[k].data, t.data))
    && forall i :: 0 <= i < |t.children| ==> Announced(t.children[i], created)
  }

  /** `onNodeCreated` received every node once, in allocation order, with the allocator's ids and no children yet. */
  ghost predicate ReportsNumbered(gid: nat -> Id, e: Effects) {
    forall k :: 0 <= k < |e.created| ==> e.created[k].id == Some(gid(k)) && e.created[k].children == []
  }

  /**
   * Every returned tree is well parented.  Its root carries `null` as its
   * parent, unless the input starts with a `;`: then the first node is the
   * anchor, its children are returned, and they carry the first id.
   */
  ghost predicate RootsParented(tokens: seq<Token>, gid: nat -> Id, forest: seq<Node>, e: Effects) {
    && (forall i :: 0 <= i < |forest| ==> WellParented(forest[i]))
    && (!StartsWithSemicolon(tokens, 0) ==> forall i :: 0 <= i < |forest| ==> forest[i].parentId.None?)
    && (StartsWithSemicolon(tokens, 0) ==>
          && |e.created| > 0
          && forall i :: 0 <= i < |forest| ==>
               forest[i].parentId == if forest[i].id.None? then None else Some(gid(0)))
  }

  /**
   * The dictionary is there exactly when the caller gave one.  It then holds
   * the caller's keys and every allocated id; each allocated id maps to a
   * reported node with that id, and every other key keeps the caller's entry.
   */
  ghost predicate DictionaryMatches(gid: nat -> Id, init: Option<map<Id, Node>>, e: Effects) {
    && (e.dictionary.Some? <==> init.Some?)
    && (e.dictionary.Some? ==>
          && e.dictionary.value.Keys == init.value.Keys + Allocated(gid, |e.created|)
          && (forall id :: id in Allocated(gid, |e.created|) ==>
                e.dictionary.value[id].id == Some(id) && Announced(e.dictionary.value[id], e.created))
          && (forall id :: id in init.value && id !in Allocated(gid, |e.created|) ==>
                e.dictionary.value[id] == init.value[id]))
  }

  /** What a successful `parseTokens` promises about its result and what it leaves with the caller. */
  ghost predicate OutcomeOk(tokens: seq<Token>, gid: nat -> Id, init: Option<map<Id, Node>>, forest: seq<Node>, e: Effects) {
    && ReportsNumbered(gid, e)
    && RootsParented(tokens, gid, forest, e)
    && (forall i :: 0 <= i < |forest| ==> Announced(forest[i], e.created))
    && DictionaryMatches(gid, init, e)
    && forall j :: 0 <= j < |e.progress| ==> e.progress[j] in CloseProgress(tokens)
  }

  /** Every node of the tree read out at handle `h` was reported, once every real node is. */
  lemma {:induction false} TreeAtAnnounced(s: State, h: nat)
    requires Readable(s) && ReportsInOrder(s.heap, s.created) && |s.created| == |RealHandles(s.heap)| && h < |s.heap|
    ensures Announced(TreeAt(s.heap, h), EffectsOf(s, None).created)
    decreases |s.heap| - h
  {
    var t := TreeAt(s.heap, h);
    var reports := EffectsOf(s, None).created;
    if t.id.Some? {
      var r := RealHandles(s.heap);
      RealHandlesComplete(s.heap, h);
      var k :| 0 <= k < |r| && r[k] == h;
      assert SnapshotOf(s.created[k].snapshot, s.heap[h]);
      assert reports[k].id == t.id && reports[k].parentId == t.parentId && DataExtends(reports[k].data, t.data);
    }
    forall i | 0 <= i < |t.children| ensures Announced(t.children[i], reports) {
      TreeAtAnnounced(s, s.heap[h].children[i]);
    }
  }

  /** A finished top-level parse whose first node is `last`'s chain yields an outcome that keeps those promises. */
  lemma OutputOk(tokens: seq<Token>, gid: nat -> Id, init: Option<map<Id, Node>>, s: State, last: nat)
    requires Consistent(tokens, gid, s) && |s.created| == s.calls
    requires ChainAt(s.heap, 0, last, None)
    requires s.heap[0].id.Some? <==> StartsWithSemicolon(tokens, 0)
    requires s.dictionary.Some? <==> init.Some?
    ensures Readable(s)
    ensures OutcomeOk(tokens, gid, init, Forest(s.heap, s.heap[0].children), EffectsOf(s, init))
  {
    ConsistentReadable(tokens, gid, s);
    var e := EffectsOf(s, init);
    var forest := Forest(s.heap, s.heap[0].children);
    var r := RealHandles(s.heap);
    assert ReportsNumbered(gid, e) by {
      forall k | 0 <= k < |e.created| ensures e.created[k].id == Some(gid(k)) {
        assert SnapshotOf(s.created[k].snapshot, s.heap[r[k]]);
      }
    }
    ForestBelow(s.heap, 0);
    if s.heap[0].id.Some? {
      FirstRealHandle(s.heap);
    }
    forall i | 0 <= i < |forest| ensures Announced(forest[i], e.created) {
      TreeAtAnnounced(s, s.heap[0].children[i]);
    }
    DictionaryOk(tokens, gid, init, s);
  }

  /** The dictionary after a finished parse matches the allocations, over the caller's entries. */
  lemma DictionaryOk(tokens: seq<Token>, gid: nat -> Id, init: Option<map<Id, Node>>, s: State)
    requires Consistent(tokens, gid, s) && |s.created| == s.calls
    requires s.dictionary.Some? <==> init.Some?
    requires Readable(s)
    ensures DictionaryMatches(gid, init, EffectsOf(s, init))
  {
    var e := EffectsOf(s, init);
    if s.dictionary.Some? {
      var d := s.dictionary.value;
      DictionaryKeys(s.heap, gid, d);
      assert Entries(s).Keys == d.Keys;
      forall id | id in Allocated(gid, |e.created|)
        ensures e.dictionary.value[id].id == Some(id) && Announced(e.dictionary.value[id], e.created)
      {
        TreeAtAnnounced(s, d[id]);
      }
    }
  }

  /**
   * `parseTokens(tokens, {getId, dictionary, onProgress, onNodeCreated})`:
   * the default allocator counts from 0.  It computes `ParseFrom` from the
   * start; a top-level chain that is empty leaves `_parseTokens` with
   * nothing to return, and reading its `children` fails.  What the parse
   * wrote and logged before it returned or threw stays with the caller.
   */
  method ParseTokens(tokens: seq<Token>, getId: Option<nat -> Id>, dictionary: Option<map<Id, Node>>,
                     unescape: string -> string)
    returns (result: Result<seq<Node>, ParseError>, effects: Effects)
    ensures var c := ParseFrom(tokens, Allocator(getId), unescape, None, Start(dictionary.Some?));
      && Readable(c.s) && (c.anchor.Some? ==> c.anchor.value < |c.s.heap|)
      && result == Returned(c) && effects == EffectsOf(c.s, dictionary)
    ensures result == Err(NullRoot) <==> ChainIsEmpty(tokens, 0)
    ensures result.Err? && result.error.UnexpectedToken? ==>
      exists i :: 0 <= i < |tokens| && !Recognised(tokens[i]) && result.error == UnexpectedAt(tokens[i])
    ensures result.Ok? ==> OutcomeOk(tokens, Allocator(getId), dictionary, result.value, effects)
    ensures result.Ok? && getId.None? ==> forall k :: 0 <= k < |effects.created| ==> effects.created[k].id == Some(k)
  {
    var gid := Allocator(getId);
    var b := new TreeBuilder(tokens, gid, dictionary.Some?, unescape);
    var anchor, err := b.Parse(None);
    ghost var last := ParseFromOk(tokens, gid, unescape, None, Start(dictionary.Some?));
    var s := State(b.pos, b.calls, b.heap, b.dictionary, b.created, b.progress);
    ConsistentReadable(tokens, gid, s);
    effects := EffectsOf(s, dictionary);
    if err.Some? {
      return Err(err.value), effects;
    }
    if anchor.None? {
      return Err(NullRoot), effects;
    }
    OutputOk(tokens, gid, dictionary, s, last);
    result := Ok(Forest(s.heap, s.heap[anchor.value].children));
  }
}
