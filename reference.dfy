/**
 * `_parseTokens` as a recursive function on the parse state: the reference
 * the imperative `TreeBuilder` is proved equal to.
 *
 * Each function follows one part of `_parseTokens` token by token: `Scan`
 * is the first loop, `ParseFrom` one whole call, `ChainThenVariations` what
 * follows the first loop when a `(` or the end of the input ended it,
 * `Variations` the second loop and `VariationAt` one `(` of it.
 */
module Reference {
  import opened Wrappers
  import opened Tokens
  import opened Store
  import opened Steps

  /** The first loop's current node and active property refer to node objects of the store. */
  predicate InStore(heap: seq<NodeRec>, node: Option<nat>, property: Option<(nat, string)>) {
    && (node.Some? ==> node.value < |heap|)
    && (property.Some? ==> property.value.0 < |heap| && property.value.1 in heap[property.value.0].data)
  }

  /**
   * Where the first loop ended: the state, the chain's first node, its last
   * node, the active property, the error it threw, if any, and whether a
   * `)` ended it.
   */
  datatype Scanned = Scanned(
    s: State,
    anchor: Option<nat>,
    node: Option<nat>,
    property: Option<(nat, string)>,
    err: Option<ParseError>,
    closed: bool)

  /** The state a parse starts in: the first token, nothing allocated, empty logs, and an empty dictionary of its own entries when the caller gave one. */
  function Start(withDictionary: bool): State {
    State(0, 0, [], if withDictionary then Some(map[]) else None, [], [])
  }

  /** The state after `onNodeCreated({node})` for the node object at handle `h`. */
  function NodeCreated(s: State, h: nat): (r: State)
    requires h < |s.heap|
    ensures r.created == s.created + [Created(h, s.heap[h])] && r.(created := s.created) == s
  {
    s.(created := s.created + [Created(h, s.heap[h])])
  }

  /** `peekableTokens.next()`: the cursor moves past the current token, and stays at the end. */
  function Advance(tokens: seq<Token>, s: State): (r: State)
    ensures r.pos == (if s.pos < |tokens| then s.pos + 1 else s.pos) && r.(pos := s.pos) == s
  {
    s.(pos := if s.pos < |tokens| then s.pos + 1 else s.pos)
  }

  /**
   * One pass of the first loop over a `;`, an identifier or a value at the
   * cursor, followed by `next()`.
   */
  function Step(tokens: seq<Token>, getId: nat -> Id, unescape: string -> string, parentId: Option<Id>,
                s: State, anchor: Option<nat>, node: Option<nat>, property: Option<(nat, string)>): (r: Scanned)
    requires s.pos < |tokens| && IsChainToken(tokens[s.pos]) && InStore(s.heap, node, property)
    ensures r.s.pos == s.pos + 1 && |s.heap| <= |r.s.heap| && InStore(r.s.heap, r.node, r.property)
    ensures r.err.None? && !r.closed
  {
    var t := tokens[s.pos];
    if t.kind == Semicolon then
      SemicolonInStore(s.heap, getId(s.calls), parentId, node, property);
      Scanned(OnSemicolon(s, getId, parentId, node).(pos := s.pos + 1),
              if node.None? then Some(|s.heap|) else anchor, Some(|s.heap|), property, None, false)
    else if t.kind == PropIdent then
      IdentInStore(s.heap, t.value, node, property);
      Scanned(s.(pos := s.pos + 1, heap := HeapAfterIdent(s.heap, t.value, node)),
              anchor, node, PropertyAfterIdent(t.value, node, property), None, false)
    else
      ValueInStore(s.heap, property, unescape(ValueText(t.value)), node);
      Scanned(s.(pos := s.pos + 1, heap := HeapAfterValue(s.heap, property, unescape(ValueText(t.value)))),
              anchor, node, property, None, false)
  }

  /**
   * The first loop of `_parseTokens`, from state `s` with the chain so far:
   * `;`, identifiers and values are applied one by one, and the loop ends at
   * a `(`, at a `)`, at the end of the input, or at a token of any other type
   * with its error.  Every token it passed is a `;`, an identifier or a value.
   */
  function Scan(tokens: seq<Token>, getId: nat -> Id, unescape: string -> string, parentId: Option<Id>,
                s: State, anchor: Option<nat>, node: Option<nat>, property: Option<(nat, string)>): (r: Scanned)
    requires s.pos <= |tokens| && InStore(s.heap, node, property)
    ensures s.pos <= r.s.pos <= |tokens| && |s.heap| <= |r.s.heap| && InStore(r.s.heap, r.node, r.property)
    ensures forall i :: s.pos <= i < r.s.pos ==> IsChainToken(tokens[i])
    ensures r.err.Some? ==>
      !r.closed && r.s.pos < |tokens| && !Recognised(tokens[r.s.pos]) && r.err.value == UnexpectedAt(tokens[r.s.pos])
    ensures r.err.None? && r.closed ==> r.s.pos < |tokens| && IsClose(tokens[r.s.pos])
    ensures r.err.None? && !r.closed ==> r.s.pos == |tokens| || IsOpen(tokens[r.s.pos])
    decreases |tokens| - s.pos
  {
    if s.pos == |tokens| then Scanned(s, anchor, node, property, None, false)
    else
      var t := tokens[s.pos];
      if IsOpen(t) then Scanned(s, anchor, node, property, None, false)
      else if IsClose(t) then Scanned(s, anchor, node, property, None, true)
      else if IsChainToken(t) then
        var n := Step(tokens, getId, unescape, parentId, s, anchor, node, property);
        Scan(tokens, getId, unescape, parentId, n.s, n.anchor, n.node, n.property)
      else Scanned(s, anchor, node, property, Some(UnexpectedAt(t)), false)
  }

  /**
   * The first loop stops at `ChainEnd`, the first token that is not a `;`,
   * an identifier or a value: it throws exactly when that token is not
   * recognised, and reports a closed chain exactly when it is a `)`.
   */
  lemma ScanStops(tokens: seq<Token>, getId: nat -> Id, unescape: string -> string, parentId: Option<Id>,
                  s: State, anchor: Option<nat>, node: Option<nat>, property: Option<(nat, string)>)
    requires s.pos <= |tokens| && InStore(s.heap, node, property)
    ensures var r := Scan(tokens, getId, unescape, parentId, s, anchor, node, property);
      var q := ChainEnd(tokens, s.pos);
      && r.s.pos == q
      && (r.err.Some? <==> q < |tokens| && !Recognised(tokens[q]))
      && (r.closed <==> q < |tokens| && IsClose(tokens[q]))
  {
    var r := Scan(tokens, getId, unescape, parentId, s, anchor, node, property);
    ChainEndIff(tokens, s.pos, r.s.pos);
  }

  /** A `;` leaves the active property in the store and makes the new node the current one. */
  lemma SemicolonInStore(heap: seq<NodeRec>, id: Id, parentId: Option<Id>, node: Option<nat>, property: Option<(nat, string)>)
    requires InStore(heap, node, property)
    ensures InStore(AfterSemicolon(heap, id, parentId, node), Some(|heap|), property)
  {
    var r := AfterSemicolon(heap, id, parentId, node);
    if property.Some? {
      assert r[property.value.0].data == heap[property.value.0].data;
    }
  }

  /** An identifier leaves the current node in the store and makes its key the active property. */
  lemma IdentInStore(heap: seq<NodeRec>, value: string, node: Option<nat>, property: Option<(nat, string)>)
    requires InStore(heap, node, property)
    ensures InStore(HeapAfterIdent(heap, value, node), node, PropertyAfterIdent(value, node, property))
  {
  }

  /** A value only extends a list, so every key stays in the store. */
  lemma ValueInStore(heap: seq<NodeRec>, property: Option<(nat, string)>, v: string, node: Option<nat>)
    requires InStore(heap, node, property)
    ensures InStore(HeapAfterValue(heap, property, v), node, property)
  {
  }

  /** Where one call of `_parseTokens` ended: the state, the node it returned, and the error it threw. */
  datatype Call = Call(s: State, anchor: Option<nat>, err: Option<ParseError>)

  /**
   * `_parseTokens(peekableTokens, parentId, options)` from state `s`: the
   * first loop, then, when a `)` ended it, the report of the chain's last
   * node, or otherwise the variations.  An error returns nothing.
   */
  function ParseFrom(tokens: seq<Token>, getId: nat -> Id, unescape: string -> string, parentId: Option<Id>,
                     s: State): (r: Call)
    requires s.pos <= |tokens|
    ensures s.pos <= r.s.pos <= |tokens| && |s.heap| <= |r.s.heap|
    ensures r.err.Some? ==>
      r.anchor.None? && r.s.pos < |tokens| && !Recognised(tokens[r.s.pos]) && r.err.value == UnexpectedAt(tokens[r.s.pos])
    ensures r.err.None? ==> r.s.pos == |tokens| || IsClose(tokens[r.s.pos])
    decreases |tokens| - s.pos, 3
  {
    var c := Scan(tokens, getId, unescape, parentId, s, None, None, None);
    if c.err.Some? then Call(c.s, None, c.err)
    else if c.closed then Call(if c.node.Some? then NodeCreated(c.s, c.node.value) else c.s, c.anchor, None)
    else ChainThenVariations(tokens, getId, unescape, c.s, c.anchor, c.node)
  }

  /**
   * After a first loop that a `(` or the end of the input ended: the chain's
   * last node is reported, or a container is allocated when there is none,
   * and the variations follow below it.
   */
  function ChainThenVariations(tokens: seq<Token>, getId: nat -> Id, unescape: string -> string,
                               s: State, anchor: Option<nat>, node: Option<nat>): (r: Call)
    requires s.pos <= |tokens| && (node.Some? ==> node.value < |s.heap|)
    ensures s.pos <= r.s.pos <= |tokens| && |s.heap| <= |r.s.heap|
    ensures r.err.Some? ==>
      r.anchor.None? && r.s.pos < |tokens| && !Recognised(tokens[r.s.pos]) && r.err.value == UnexpectedAt(tokens[r.s.pos])
    ensures r.err.None? ==> r.s.pos == |tokens| || IsClose(tokens[r.s.pos])
    decreases |tokens| - s.pos, 2
  {
    var n := if node.Some? then node.value else |s.heap|;
    var s1 := if node.Some? then NodeCreated(s, n) else s.(heap := s.heap + [NodeRec(None, map[], None, [])]);
    var v := Variations(tokens, getId, unescape, n, s1);
    Call(v.0, if v.1.Some? then None else if node.None? then Some(n) else anchor, v.1)
  }

  /**
   * The second loop of `_parseTokens` for node `n`, from state `s`: each
   * `(` is a variation below `n`; a `)` ends the loop, unconsumed, after
   * `onProgress`; every other token is skipped.  When a `)` ended it, the
   * last progress value logged is that `)`'s.
   */
  function Variations(tokens: seq<Token>, getId: nat -> Id, unescape: string -> string, n: nat, s: State)
    : (r: (State, Option<ParseError>))
    requires s.pos <= |tokens| && n < |s.heap|
    ensures s.pos <= r.0.pos <= |tokens| && |s.heap| <= |r.0.heap|
    ensures r.1.Some? ==> r.0.pos < |tokens| && !Recognised(tokens[r.0.pos]) && r.1.value == UnexpectedAt(tokens[r.0.pos])
    ensures r.1.None? ==> r.0.pos == |tokens| || IsClose(tokens[r.0.pos])
    ensures r.1.None? && r.0.pos < |tokens| ==>
      |r.0.progress| > 0 && r.0.progress[|r.0.progress| - 1] == tokens[r.0.pos].progress
    decreases |tokens| - s.pos, 1
  {
    if s.pos == |tokens| then (s, None)
    else if IsOpen(tokens[s.pos]) then
      var v := VariationAt(tokens, getId, unescape, n, s);
      if v.1.Some? then v else Variations(tokens, getId, unescape, n, Advance(tokens, v.0))
    else if IsClose(tokens[s.pos]) then (s.(progress := s.progress + [tokens[s.pos].progress]), None)
    else Variations(tokens, getId, unescape, n, s.(pos := s.pos + 1))
  }

  /**
   * A `(` in the second loop for node `n`: consumed, then a nested call
   * below `n`'s id, whose returned node, if any, is pushed onto the children
   * of `n`.
   */
  function VariationAt(tokens: seq<Token>, getId: nat -> Id, unescape: string -> string, n: nat, s: State)
    : (r: (State, Option<ParseError>))
    requires s.pos < |tokens| && n < |s.heap|
    ensures s.pos < r.0.pos <= |tokens| && |s.heap| <= |r.0.heap|
    ensures r.1.Some? ==> r.0.pos < |tokens| && !Recognised(tokens[r.0.pos]) && r.1.value == UnexpectedAt(tokens[r.0.pos])
    ensures r.1.None? ==> r.0.pos == |tokens| || IsClose(tokens[r.0.pos])
    decreases |tokens| - s.pos, 0
  {
    var c := ParseFrom(tokens, getId, unescape, s.heap[n].id, s.(pos := s.pos + 1));
    (if c.anchor.Some? then c.s.(heap := PushChild(c.s.heap, n, c.anchor.value)) else c.s, c.err)
  }

  /** The invariant does not depend on the cursor. */
  lemma InvIgnoresPos(getId: nat -> Id, s: State, pos: nat)
    requires Inv(getId, s)
    ensures Inv(getId, s.(pos := pos))
  {
  }

  /** Where the first loop ended, the parse is consistent and the chain meets `ChainState`. */
  ghost predicate ScanOk(tokens: seq<Token>, getId: nat -> Id, parentId: Option<Id>, start: State, r: Scanned) {
    Inv(getId, r.s) && ChainState(tokens, parentId, start, r.s, r.anchor, r.node, r.property)
  }

  /** One pass of the first loop keeps the parse consistent and the chain. */
  lemma StepKeepsChain(tokens: seq<Token>, getId: nat -> Id, unescape: string -> string,
                       parentId: Option<Id>, start: State, s: State,
                       anchor: Option<nat>, node: Option<nat>, property: Option<(nat, string)>)
    requires Inv(getId, s) && ChainState(tokens, parentId, start, s, anchor, node, property)
    requires InStore(s.heap, node, property) && s.pos < |tokens| && IsChainToken(tokens[s.pos])
    ensures var n := Step(tokens, getId, unescape, parentId, s, anchor, node, property);
      Inv(getId, n.s) && ChainState(tokens, parentId, start, n.s, n.anchor, n.node, n.property)
  {
    var t := tokens[s.pos];
    if t.kind == Semicolon {
      SemicolonKeepsChain(tokens, getId, unescape, parentId, start, s, anchor, node, property);
    } else if t.kind == PropIdent {
      IdentKeepsChain(tokens, getId, unescape, parentId, start, s, anchor, node, property);
    } else {
      ValueKeepsChain(tokens, getId, unescape, parentId, start, s, anchor, node, property);
    }
  }

  lemma SemicolonKeepsChain(tokens: seq<Token>, getId: nat -> Id, unescape: string -> string,
                            parentId: Option<Id>, start: State, s: State,
                       anchor: Option<nat>, node: Option<nat>, property: Option<(nat, string)>)
    requires Inv(getId, s) && ChainState(tokens, parentId, start, s, anchor, node, property)
    requires InStore(s.heap, node, property) && s.pos < |tokens| && tokens[s.pos].kind == Semicolon
    ensures var n := Step(tokens, getId, unescape, parentId, s, anchor, node, property);
      Inv(getId, n.s) && ChainState(tokens, parentId, start, n.s, n.anchor, n.node, n.property)
  {
    assert Step(tokens, getId, unescape, parentId, s, anchor, node, property) ==
           Scanned(OnSemicolon(s, getId, parentId, node).(pos := s.pos + 1),
                   if node.None? then Some(|s.heap|) else anchor, Some(|s.heap|), property, None, false);
    ChainAfterSemicolon(tokens, getId, parentId, start, s, anchor, node, property);
    InvAfterSemicolon(getId, s, parentId, node);
    InvIgnoresPos(getId, OnSemicolon(s, getId, parentId, node), s.pos + 1);
  }

  lemma IdentKeepsChain(tokens: seq<Token>, getId: nat -> Id, unescape: string -> string,
                       parentId: Option<Id>, start: State, s: State,
                       anchor: Option<nat>, node: Option<nat>, property: Option<(nat, string)>)
    requires Inv(getId, s) && ChainState(tokens, parentId, start, s, anchor, node, property)
    requires InStore(s.heap, node, property) && s.pos < |tokens| && tokens[s.pos].kind == PropIdent
    ensures var n := Step(tokens, getId, unescape, parentId, s, anchor, node, property);
      Inv(getId, n.s) && ChainState(tokens, parentId, start, n.s, n.anchor, n.node, n.property)
  {
    var value := tokens[s.pos].value;
    assert Step(tokens, getId, unescape, parentId, s, anchor, node, property) ==
           Scanned(s.(pos := s.pos + 1, heap := HeapAfterIdent(s.heap, value, node)),
                   anchor, node, PropertyAfterIdent(value, node, property), None, false);
    ChainAfterIdent(tokens, parentId, start, s, anchor, node, property);
    InvAfterIdent(getId, s, value, node);
    InvIgnoresPos(getId, s.(heap := HeapAfterIdent(s.heap, value, node)), s.pos + 1);
  }

  lemma ValueKeepsChain(tokens: seq<Token>, getId: nat -> Id, unescape: string -> string,
                       parentId: Option<Id>, start: State, s: State,
                       anchor: Option<nat>, node: Option<nat>, property: Option<(nat, string)>)
    requires Inv(getId, s) && ChainState(tokens, parentId, start, s, anchor, node, property)
    requires InStore(s.heap, node, property) && s.pos < |tokens| && tokens[s.pos].kind == CValueType
    ensures var n := Step(tokens, getId, unescape, parentId, s, anchor, node, property);
      Inv(getId, n.s) && ChainState(tokens, parentId, start, n.s, n.anchor, n.node, n.property)
  {
    var v := unescape(ValueText(tokens[s.pos].value));
    assert Step(tokens, getId, unescape, parentId, s, anchor, node, property) ==
           Scanned(s.(pos := s.pos + 1, heap := HeapAfterValue(s.heap, property, v)), anchor, node, property, None, false);
    ChainAfterValue(tokens, parentId, start, s, v, anchor, node, property);
    InvAfterValue(getId, s, property, v);
    InvIgnoresPos(getId, s.(heap := HeapAfterValue(s.heap, property, v)), s.pos + 1);
  }

  /**
   * The first loop keeps the parse consistent and the chain it builds: from
   * any state of the loop that meets `ChainState`, the state where `Scan`
   * ends meets it too.
   */
  lemma {:induction false} ScanKeepsChain(tokens: seq<Token>, getId: nat -> Id, unescape: string -> string,
                                          parentId: Option<Id>, start: State, s: State,
                                          anchor: Option<nat>, node: Option<nat>, property: Option<(nat, string)>)
    requires Inv(getId, s) && ChainState(tokens, parentId, start, s, anchor, node, property)
    requires InStore(s.heap, node, property)
    ensures ScanOk(tokens, getId, parentId, start, Scan(tokens, getId, unescape, parentId, s, anchor, node, property))
    decreases |tokens| - s.pos
  {
    if s.pos < |tokens| && !IsOpen(tokens[s.pos]) && !IsClose(tokens[s.pos]) && IsChainToken(tokens[s.pos]) {
      var n := Step(tokens, getId, unescape, parentId, s, anchor, node, property);
      StepKeepsChain(tokens, getId, unescape, parentId, start, s, anchor, node, property);
      ScanKeepsChain(tokens, getId, unescape, parentId, start, n.s, n.anchor, n.node, n.property);
    }
  }

  /** A consistent parse state: the cursor is in range, `Inv` holds, and every `onProgress` value came from a `)`. */
  ghost predicate Consistent(tokens: seq<Token>, getId: nat -> Id, s: State) {
    && s.pos <= |tokens|
    && Inv(getId, s)
    && forall j :: 0 <= j < |s.progress| ==> s.progress[j] in CloseProgress(tokens)
  }

  /**
   * One call of `_parseTokens` from a consistent state in which every real
   * node is reported keeps the state consistent and meets `Parsed`; `last`
   * is the last node of the chain it returned.
   */
  lemma {:induction false} ParseFromOk(tokens: seq<Token>, getId: nat -> Id, unescape: string -> string,
                                       parentId: Option<Id>, s: State) returns (last: nat)
    requires Consistent(tokens, getId, s) && |s.created| == s.calls
    ensures var r := ParseFrom(tokens, getId, unescape, parentId, s);
      Consistent(tokens, getId, r.s) && Parsed(tokens, parentId, s, r.s, r.anchor, r.err, last)
    decreases |tokens| - s.pos, 3
  {
    var c := Scan(tokens, getId, unescape, parentId, s, None, None, None);
    ScanFromStart(tokens, getId, unescape, parentId, s);
    last := 0;
    if c.err.Some? {
    } else if c.closed {
      last := ClosedOk(tokens, getId, parentId, s, c);
    } else {
      last := ChainThenVariationsOk(tokens, getId, unescape, parentId, s, c.s, c.anchor, c.node, c.property);
    }
  }

  /** A first loop started at the beginning of a call meets `ScanOk` where it ends. */
  lemma ScanFromStart(tokens: seq<Token>, getId: nat -> Id, unescape: string -> string, parentId: Option<Id>, s: State)
    requires Consistent(tokens, getId, s) && |s.created| == s.calls
    ensures ScanOk(tokens, getId, parentId, s, Scan(tokens, getId, unescape, parentId, s, None, None, None))
  {
    assert ChainState(tokens, parentId, s, s, None, None, None);
    ScanKeepsChain(tokens, getId, unescape, parentId, s, s, None, None, None);
  }

  /** A first loop that a `)` ended: once its last node is reported, the call meets `Parsed`. */
  lemma ClosedOk(tokens: seq<Token>, getId: nat -> Id, parentId: Option<Id>, s: State, c: Scanned) returns (last: nat)
    requires ScanOk(tokens, getId, parentId, s, c) && c.err.None? && c.closed
    requires c.s.pos < |tokens| && IsClose(tokens[c.s.pos])
    requires forall j :: 0 <= j < |s.progress| ==> s.progress[j] in CloseProgress(tokens)
    ensures c.node.Some? ==> c.node.value < |c.s.heap|
    ensures var e := if c.node.Some? then NodeCreated(c.s, c.node.value) else c.s;
      Consistent(tokens, getId, e) && Parsed(tokens, parentId, s, e, c.anchor, None, last)
  {
    last := 0;
    if c.node.Some? {
      LastUnreported(getId, c.s, c.node.value);
      InvAfterReport(getId, c.s, c.node.value);
      last := c.node.value;
    } else {
      assert FirstStructural(tokens, c.s.pos) == c.s.pos;
    }
  }

  /**
   * After a first loop that a `(` or the end of the input ended, with the
   * chain meeting `ChainState`, the rest of the call keeps the state
   * consistent and meets `Parsed` with `last` the chain's last node.
   */
  lemma {:induction false} ChainThenVariationsOk(tokens: seq<Token>, getId: nat -> Id, unescape: string -> string,
                                                 parentId: Option<Id>, start: State, s: State,
                                                 anchor: Option<nat>, node: Option<nat>, property: Option<(nat, string)>)
    returns (last: nat)
    requires Consistent(tokens, getId, s) && ChainState(tokens, parentId, start, s, anchor, node, property)
    requires s.pos == |tokens| || IsOpen(tokens[s.pos])
    ensures var r := ChainThenVariations(tokens, getId, unescape, s, anchor, node);
      Consistent(tokens, getId, r.s) && Parsed(tokens, parentId, start, r.s, r.anchor, r.err, last)
    decreases |tokens| - s.pos, 2
  {
    var n := if node.Some? then node.value else |s.heap|;
    var mid := if node.Some? then NodeCreated(s, n) else s.(heap := s.heap + [NodeRec(None, map[], None, [])]);
    if node.None? {
      InvAfterContainer(getId, s);
    } else {
      LastUnreported(getId, s, n);
      InvAfterReport(getId, s, n);
    }
    last := n;
    ChainEndsOpen(tokens, parentId, start, s, mid, anchor, node, property, n);
    VariationsOk(tokens, getId, unescape, n, mid);
    var v := Variations(tokens, getId, unescape, n, mid);
    ParsedAfterVariations(tokens, parentId, start, mid, v.0, n, v.1);
  }

  /**
   * The second loop keeps the state consistent, changes nothing older than
   * node `n` but the children it pushes onto `n` (`GrowsAt`), and, when it
   * throws no error, leaves every real node reported.
   */
  lemma {:induction false} VariationsOk(tokens: seq<Token>, getId: nat -> Id, unescape: string -> string, n: nat, s: State)
    requires Consistent(tokens, getId, s) && |s.created| == s.calls && n < |s.heap|
    ensures var r := Variations(tokens, getId, unescape, n, s);
      Consistent(tokens, getId, r.0) && GrowsAt(s, r.0, n) && (r.1.None? ==> |r.0.created| == r.0.calls)
    decreases |tokens| - s.pos, 1
  {
    GrowsAtStart(s, n);
    if s.pos == |tokens| {
    } else if IsOpen(tokens[s.pos]) {
      VariationAtOk(tokens, getId, unescape, n, s);
      var v := VariationAt(tokens, getId, unescape, n, s);
      if v.1.None? {
        var a := Advance(tokens, v.0);
        InvIgnoresPos(getId, v.0, a.pos);
        VariationsOk(tokens, getId, unescape, n, a);
        GrowsAtThenGrowsAt(s, v.0, a, n);
        GrowsAtThenGrowsAt(s, a, Variations(tokens, getId, unescape, n, a).0, n);
      }
    } else if IsClose(tokens[s.pos]) {
    } else {
      var a := s.(pos := s.pos + 1);
      InvIgnoresPos(getId, s, a.pos);
      VariationsOk(tokens, getId, unescape, n, a);
      GrowsAtThenGrowsAt(s, a, Variations(tokens, getId, unescape, n, a).0, n);
    }
  }

  /**
   * One `(` of the second loop keeps the state consistent and changes
   * nothing but the children of `n`: the nested chain's first node is
   * pushed onto them exactly when that chain is not empty and no error was
   * thrown.
   */
  lemma {:induction false} VariationAtOk(tokens: seq<Token>, getId: nat -> Id, unescape: string -> string, n: nat, s: State)
    requires Consistent(tokens, getId, s) && |s.created| == s.calls && n < |s.heap|
    requires s.pos < |tokens| && IsOpen(tokens[s.pos])
    ensures var r := VariationAt(tokens, getId, unescape, n, s);
      && Consistent(tokens, getId, r.0) && GrowsAt(s, r.0, n) && (r.1.None? ==> |r.0.created| == r.0.calls)
      && (r.1.None? && ChainIsEmpty(tokens, s.pos + 1) ==> r.0.heap[n].children == s.heap[n].children)
      && (r.1.None? && !ChainIsEmpty(tokens, s.pos + 1) ==> r.0.heap[n].children == s.heap[n].children + [|s.heap|])
    decreases |tokens| - s.pos, 0
  {
    var s1 := s.(pos := s.pos + 1);
    InvIgnoresPos(getId, s, s1.pos);
    var last := ParseFromOk(tokens, getId, unescape, s.heap[n].id, s1);
    var c := ParseFrom(tokens, getId, unescape, s.heap[n].id, s1);
    if c.anchor.Some? {
      AttachReady(getId, s1, c.s, n, c.anchor.value, last);
      InvAfterAttach(getId, c.s, n, c.anchor.value);
      assert GrowsAt(s, c.s, n);
      GrowsAtPush(s, c.s, n, c.anchor.value);
    } else {
      assert GrowsAt(s, c.s, n);
    }
  }

  /**
   * Identifiers and values before a chain's first `;` change nothing but the
   * cursor: there is no node to add a key to and no property to extend.
   */
  lemma {:induction false} ScanSkipsOrphans(tokens: seq<Token>, getId: nat -> Id, unescape: string -> string,
                                            parentId: Option<Id>, s: State)
    requires s.pos <= |tokens|
    ensures Scan(tokens, getId, unescape, parentId, s, None, None, None) ==
            Scan(tokens, getId, unescape, parentId, s.(pos := FirstStructural(tokens, s.pos)), None, None, None)
    decreases |tokens| - s.pos
  {
    if s.pos < |tokens| && IsPropertyToken(tokens[s.pos]) {
      var a := s.(pos := s.pos + 1);
      assert Step(tokens, getId, unescape, parentId, s, None, None, None) == Scanned(a, None, None, None, None, false);
      assert FirstStructural(tokens, s.pos) == FirstStructural(tokens, a.pos);
      ScanSkipsOrphans(tokens, getId, unescape, parentId, a);
    }
  }

  /**
   * A call whose chain is empty returns nothing and changes nothing but the
   * cursor, which it leaves on the `)`.
   */
  lemma EmptyChain(tokens: seq<Token>, getId: nat -> Id, unescape: string -> string, parentId: Option<Id>, s: State)
    requires s.pos <= |tokens| && ChainIsEmpty(tokens, s.pos)
    ensures ParseFrom(tokens, getId, unescape, parentId, s) == Call(s.(pos := FirstStructural(tokens, s.pos)), None, None)
  {
    var q := FirstStructural(tokens, s.pos);
    ScanSkipsOrphans(tokens, getId, unescape, parentId, s);
    assert Scan(tokens, getId, unescape, parentId, s.(pos := q), None, None, None) ==
           Scanned(s.(pos := q), None, None, None, None, true);
  }

  /**
   * An empty variation, a `(` whose chain is empty because a `)` follows it
   * after identifiers and values only, adds no child and changes nothing but
   * the cursor: the second loop goes on after that `)`, and logs no progress
   * for it.
   */
  lemma EmptyVariation(tokens: seq<Token>, getId: nat -> Id, unescape: string -> string, n: nat, s: State)
    requires s.pos < |tokens| && IsOpen(tokens[s.pos]) && n < |s.heap| && ChainIsEmpty(tokens, s.pos + 1)
    ensures Variations(tokens, getId, unescape, n, s) ==
            Variations(tokens, getId, unescape, n, s.(pos := FirstStructural(tokens, s.pos + 1) + 1))
  {
    var q := FirstStructural(tokens, s.pos + 1);
    EmptyChain(tokens, getId, unescape, s.heap[n].id, s.(pos := s.pos + 1));
    var v := VariationAt(tokens, getId, unescape, n, s);
    assert v == (s.(pos := q), None);
    assert Variations(tokens, getId, unescape, n, s) == Variations(tokens, getId, unescape, n, Advance(tokens, v.0));
    assert Advance(tokens, v.0) == s.(pos := q + 1);
  }
}
