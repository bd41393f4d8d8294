/**
 * Token streams from the repository's tests, and what the reference parse
 * makes of them.  Token positions and progress values that the parse does
 * not look at are zero.
 */
module Scenarios {
  import opened Wrappers
  import opened Tokens
  import opened Identifiers
  import opened Store
  import opened Steps
  import opened Reference
  import Parser

  function Open(): Token { Token(Parenthesis, "(", 0, 0, 0) }
  function Close(progress: nat): Token { Token(Parenthesis, ")", 0, 0, progress) }
  function Semi(): Token { Token(Semicolon, ";", 0, 0, 0) }
  function Ident(text: string): Token { Token(PropIdent, text, 0, 0, 0) }
  function Value(text: string): Token { Token(CValueType, text, 0, 0, 0) }

  /** Upper-case identifiers of one or two letters are their own short codes. */
  lemma CapitalsAreShortCodes()
    ensures ShortCode("B") == "B" && ShortCode("W") == "W" && ShortCode("C") == "C"
    ensures ShortCode("AB") == "AB" && ShortCode("SZ") == "SZ"
  {
    ShortCodeFixedPoint("B");
    ShortCodeFixedPoint("W");
    ShortCodeFixedPoint("C");
    ShortCodeFixedPoint("AB");
    assert CaseInvariant("AB"[0]) && CaseInvariant("AB"[1]);
    ShortCodeFixedPoint("SZ");
    assert CaseInvariant("SZ"[0]) && CaseInvariant("SZ"[1]);
  }

  /** Where the first loop moves past a chain token, it goes on from the state after that one step. */
  lemma ScanThroughStep(tokens: seq<Token>, getId: nat -> Id, unescape: string -> string, parentId: Option<Id>,
                        s: State, anchor: Option<nat>, node: Option<nat>, property: Option<(nat, string)>, n: Scanned)
    requires s.pos < |tokens| && IsChainToken(tokens[s.pos]) && InStore(s.heap, node, property)
    requires n == Step(tokens, getId, unescape, parentId, s, anchor, node, property)
    ensures Scan(tokens, getId, unescape, parentId, s, anchor, node, property) ==
            Scan(tokens, getId, unescape, parentId, n.s, n.anchor, n.node, n.property)
  {
  }

  /** A value step appends the unescaped text to the list of the active property. */
  lemma ValueStep(tokens: seq<Token>, getId: nat -> Id, unescape: string -> string, parentId: Option<Id>,
                  s: State, anchor: Option<nat>, node: Option<nat>, h: nat, key: string)
    requires s.pos < |tokens| && tokens[s.pos].kind == CValueType
    requires InStore(s.heap, node, Some((h, key)))
    ensures Step(tokens, getId, unescape, parentId, s, anchor, node, Some((h, key))) ==
            Scanned(s.(pos := s.pos + 1, heap := AddValue(s.heap, h, key, unescape(ValueText(tokens[s.pos].value)))),
                    anchor, node, Some((h, key)), None, false)
  {
  }

  /** `;AB[cc][dd:ee])`, the chain of the repository's test with several values for one identifier. */
  function RepeatedValues(): seq<Token> {
    [Semi(), Ident("AB"), Value("[cc]"), Value("[dd:ee]"), Close(0)]
  }

  /** A top-level state with one real node, id 0, holding `data`, and the cursor at `pos`. */
  function OneNode(pos: nat, data: map<string, seq<string>>): State {
    State(pos, 1, [NodeRec(Some(0), data, None, [])], None, [], [])
  }

  lemma RepeatedValuesSemicolon(u: string -> string)
    ensures Step(RepeatedValues(), CountingId, u, None, Start(false), None, None, None) ==
            Scanned(OneNode(1, map[]), Some(0), Some(0), None, None, false)
  {
  }

  lemma RepeatedValuesIdent(u: string -> string)
    ensures Step(RepeatedValues(), CountingId, u, None, OneNode(1, map[]), Some(0), Some(0), None) ==
            Scanned(OneNode(2, map["AB" := []]), Some(0), Some(0), Some((0, "AB")), None, false)
  {
    CapitalsAreShortCodes();
  }

  lemma RepeatedValuesFirst(u: string -> string)
    ensures Step(RepeatedValues(), CountingId, u, None, OneNode(2, map["AB" := []]), Some(0), Some(0), Some((0, "AB"))) ==
            Scanned(OneNode(3, map["AB" := [u("cc")]]), Some(0), Some(0), Some((0, "AB")), None, false)
  {
    var s := OneNode(2, map["AB" := []]);
    ValueStep(RepeatedValues(), CountingId, u, None, s, Some(0), Some(0), 0, "AB");
    assert ValueText("[cc]") == "cc";
    assert [] + [u("cc")] == [u("cc")];
    assert map["AB" := []]["AB" := [] + [u("cc")]] == map["AB" := [u("cc")]];
  }

  lemma RepeatedValuesSecond(u: string -> string)
    ensures Step(RepeatedValues(), CountingId, u, None, OneNode(3, map["AB" := [u("cc")]]), Some(0), Some(0), Some((0, "AB"))) ==
            Scanned(OneNode(4, map["AB" := [u("cc"), u("dd:ee")]]), Some(0), Some(0), Some((0, "AB")), None, false)
  {
    var s := OneNode(3, map["AB" := [u("cc")]]);
    ValueStep(RepeatedValues(), CountingId, u, None, s, Some(0), Some(0), 0, "AB");
    assert ValueText("[dd:ee]") == "dd:ee";
    assert [u("cc")] + [u("dd:ee")] == [u("cc"), u("dd:ee")];
    assert map["AB" := [u("cc")]]["AB" := [u("cc")] + [u("dd:ee")]] == map["AB" := [u("cc"), u("dd:ee")]];
  }

  /**
   * `;AB[cc][dd:ee])`: the values that follow one identifier all go to its
   * list, in order, and the `)` closes the chain of one node.
   */
  lemma ScanOfRepeatedValues(u: string -> string)
    ensures Scan(RepeatedValues(), CountingId, u, None, Start(false), None, None, None) ==
            Scanned(OneNode(4, map["AB" := [u("cc"), u("dd:ee")]]), Some(0), Some(0), Some((0, "AB")), None, true)
  {
    var t := RepeatedValues();
    var p := Some((0, "AB"));
    RepeatedValuesSemicolon(u);
    ScanThroughStep(t, CountingId, u, None, Start(false), None, None, None, Scanned(OneNode(1, map[]), Some(0), Some(0), None, None, false));
    RepeatedValuesIdent(u);
    ScanThroughStep(t, CountingId, u, None, OneNode(1, map[]), Some(0), Some(0), None,
                    Scanned(OneNode(2, map["AB" := []]), Some(0), Some(0), p, None, false));
    RepeatedValuesFirst(u);
    ScanThroughStep(t, CountingId, u, None, OneNode(2, map["AB" := []]), Some(0), Some(0), p,
                    Scanned(OneNode(3, map["AB" := [u("cc")]]), Some(0), Some(0), p, None, false));
    RepeatedValuesSecond(u);
    ScanThroughStep(t, CountingId, u, None, OneNode(3, map["AB" := [u("cc")]]), Some(0), Some(0), p,
                    Scanned(OneNode(4, map["AB" := [u("cc"), u("dd:ee")]]), Some(0), Some(0), p, None, false));
    var s4 := OneNode(4, map["AB" := [u("cc"), u("dd:ee")]]);
    assert IsClose(t[s4.pos]);
    assert Scan(t, CountingId, u, None, s4, Some(0), Some(0), p) == Scanned(s4, Some(0), Some(0), p, None, true);
  }

  /** `;B[aa];[bb]`: a value after a `;` but before any identifier of the new node. */
  function CarriedProperty(): seq<Token> {
    [Semi(), Ident("B"), Value("[aa]"), Semi(), Value("[bb]")]
  }

  /** A top-level state with the chain of nodes 0 and 1, node 0 holding `data`, and the cursor at `pos`; node 0 was reported holding `reported`. */
  function TwoNodes(pos: nat, data: map<string, seq<string>>, reported: map<string, seq<string>>): State {
    State(pos, 2, [NodeRec(Some(0), data, None, [1]), NodeRec(Some(1), map[], Some(0), [])], None,
          [Created(0, NodeRec(Some(0), reported, None, []))], [])
  }

  lemma CarriedPropertyOpening(u: string -> string)
    ensures Step(CarriedProperty(), CountingId, u, None, Start(false), None, None, None) ==
            Scanned(OneNode(1, map[]), Some(0), Some(0), None, None, false)
  {
  }

  lemma CarriedPropertyIdent(u: string -> string)
    ensures Step(CarriedProperty(), CountingId, u, None, OneNode(1, map[]), Some(0), Some(0), None) ==
            Scanned(OneNode(2, map["B" := []]), Some(0), Some(0), Some((0, "B")), None, false)
  {
    CapitalsAreShortCodes();
  }

  lemma CarriedPropertyFirst(u: string -> string)
    ensures Step(CarriedProperty(), CountingId, u, None, OneNode(2, map["B" := []]), Some(0), Some(0), Some((0, "B"))) ==
            Scanned(OneNode(3, map["B" := [u("aa")]]), Some(0), Some(0), Some((0, "B")), None, false)
  {
    ValueStep(CarriedProperty(), CountingId, u, None, OneNode(2, map["B" := []]), Some(0), Some(0), 0, "B");
    assert ValueText("[aa]") == "aa";
    assert [] + [u("aa")] == [u("aa")];
    assert map["B" := []]["B" := [] + [u("aa")]] == map["B" := [u("aa")]];
  }

  lemma CarriedPropertySemicolon(u: string -> string)
    ensures Step(CarriedProperty(), CountingId, u, None, OneNode(3, map["B" := [u("aa")]]), Some(0), Some(0), Some((0, "B"))) ==
            Scanned(TwoNodes(4, map["B" := [u("aa")]], map["B" := [u("aa")]]), Some(0), Some(1), Some((0, "B")), None, false)
  {
    var s := OneNode(3, map["B" := [u("aa")]]);
    var after := TwoNodes(4, map["B" := [u("aa")]], map["B" := [u("aa")]]);
    var grown := s.heap + [NodeRec(Some(1), map[], Some(0), [])];
    assert grown[0].children + [1] == [1];
    assert PushChild(grown, 0, 1) == after.heap;
    assert AfterSemicolon(s.heap, 1, None, Some(0)) == after.heap;
    assert OnSemicolon(s, CountingId, None, Some(0)).(pos := 4) == after;
  }

  lemma CarriedPropertySecond(u: string -> string)
    ensures Step(CarriedProperty(), CountingId, u, None, TwoNodes(4, map["B" := [u("aa")]], map["B" := [u("aa")]]),
                 Some(0), Some(1), Some((0, "B"))) ==
            Scanned(TwoNodes(5, map["B" := [u("aa"), u("bb")]], map["B" := [u("aa")]]), Some(0), Some(1), Some((0, "B")), None, false)
  {
    var s := TwoNodes(4, map["B" := [u("aa")]], map["B" := [u("aa")]]);
    ValueStep(CarriedProperty(), CountingId, u, None, s, Some(0), Some(1), 0, "B");
    assert ValueText("[bb]") == "bb";
    assert [u("aa")] + [u("bb")] == [u("aa"), u("bb")];
    assert map["B" := [u("aa")]]["B" := [u("aa")] + [u("bb")]] == map["B" := [u("aa"), u("bb")]];
  }

  /**
   * `;B[aa];[bb]`: the active property outlives the `;`, so a value that
   * follows the second `;` before any identifier goes to the first node's
   * `B`, after that node was reported holding `aa` only; the second node
   * stays empty.
   */
  lemma ScanCarriesProperty(u: string -> string)
    ensures Scan(CarriedProperty(), CountingId, u, None, Start(false), None, None, None) ==
            Scanned(TwoNodes(5, map["B" := [u("aa"), u("bb")]], map["B" := [u("aa")]]), Some(0), Some(1), Some((0, "B")), None, false)
  {
    var t := CarriedProperty();
    var p := Some((0, "B"));
    assert |t| == 5;
    CarriedPropertyOpening(u);
    ScanThroughStep(t, CountingId, u, None, Start(false), None, None, None, Scanned(OneNode(1, map[]), Some(0), Some(0), None, None, false));
    CarriedPropertyIdent(u);
    ScanThroughStep(t, CountingId, u, None, OneNode(1, map[]), Some(0), Some(0), None,
                    Scanned(OneNode(2, map["B" := []]), Some(0), Some(0), p, None, false));
    CarriedPropertyFirst(u);
    ScanThroughStep(t, CountingId, u, None, OneNode(2, map["B" := []]), Some(0), Some(0), p,
                    Scanned(OneNode(3, map["B" := [u("aa")]]), Some(0), Some(0), p, None, false));
    CarriedPropertySemicolon(u);
    ScanThroughStep(t, CountingId, u, None, OneNode(3, map["B" := [u("aa")]]), Some(0), Some(0), p,
                    Scanned(TwoNodes(4, map["B" := [u("aa")]], map["B" := [u("aa")]]), Some(0), Some(1), p, None, false));
    CarriedPropertySecond(u);
    ScanThroughStep(t, CountingId, u, None, TwoNodes(4, map["B" := [u("aa")]], map["B" := [u("aa")]]), Some(0), Some(1), p,
                    Scanned(TwoNodes(5, map["B" := [u("aa"), u("bb")]], map["B" := [u("aa")]]), Some(0), Some(1), p, None, false));
    var s5 := TwoNodes(5, map["B" := [u("aa"), u("bb")]], map["B" := [u("aa")]]);
    assert s5.pos == |t|;
    assert Scan(t, CountingId, u, None, s5, Some(0), Some(1), p) == Scanned(s5, Some(0), Some(1), p, None, false);
  }

  lemma FirstSemicolonStep(tokens: seq<Token>, getId: nat -> Id, u: string -> string, parentId: Option<Id>, s: State)
    requires s.pos < |tokens| && tokens[s.pos].kind == Semicolon
    ensures Step(tokens, getId, u, parentId, s, None, None, None) ==
            Scanned(s.(pos := s.pos + 1, calls := s.calls + 1,
                       heap := s.heap + [NodeRec(Some(getId(s.calls)), map[], parentId, [])],
                       dictionary := Register(s.dictionary, getId(s.calls), |s.heap|)),
                    Some(|s.heap|), Some(|s.heap|), None, None, false)
  {
  }

  lemma NewKeyStep(tokens: seq<Token>, getId: nat -> Id, u: string -> string, parentId: Option<Id>,
                   s: State, anchor: Option<nat>, h: nat, property: Option<(nat, string)>, key: string)
    requires s.pos < |tokens| && tokens[s.pos] == Ident(key) && InStore(s.heap, Some(h), property)
    requires key != "" && ShortCode(key) == key && key !in s.heap[h].data
    ensures Step(tokens, getId, u, parentId, s, anchor, Some(h), property) ==
            Scanned(s.(pos := s.pos + 1, heap := s.heap[h := s.heap[h].(data := s.heap[h].data[key := []])]),
                    anchor, Some(h), Some((h, key)), None, false)
  {
  }

  /** The first `;` of a chain allocates a node below `parentId` and makes it the chain's first and current node. */
  lemma ScanFirstSemicolon(tokens: seq<Token>, getId: nat -> Id, u: string -> string, parentId: Option<Id>, s: State)
    requires s.pos < |tokens| && tokens[s.pos].kind == Semicolon
    ensures Scan(tokens, getId, u, parentId, s, None, None, None) ==
            Scan(tokens, getId, u, parentId,
                 s.(pos := s.pos + 1, calls := s.calls + 1,
                    heap := s.heap + [NodeRec(Some(getId(s.calls)), map[], parentId, [])],
                    dictionary := Register(s.dictionary, getId(s.calls), |s.heap|)),
                 Some(|s.heap|), Some(|s.heap|), None)
  {
    FirstSemicolonStep(tokens, getId, u, parentId, s);
    ScanThroughStep(tokens, getId, u, parentId, s, None, None, None, Step(tokens, getId, u, parentId, s, None, None, None));
  }

  /** An identifier that is its own short code and new to the current node `h` adds it with an empty list and makes it active. */
  lemma ScanNewKey(tokens: seq<Token>, getId: nat -> Id, u: string -> string, parentId: Option<Id>,
                   s: State, anchor: Option<nat>, h: nat, property: Option<(nat, string)>, key: string)
    requires s.pos < |tokens| && tokens[s.pos] == Ident(key) && InStore(s.heap, Some(h), property)
    requires key != "" && ShortCode(key) == key && key !in s.heap[h].data
    ensures Scan(tokens, getId, u, parentId, s, anchor, Some(h), property) ==
            Scan(tokens, getId, u, parentId, s.(pos := s.pos + 1, heap := s.heap[h := s.heap[h].(data := s.heap[h].data[key := []])]),
                 anchor, Some(h), Some((h, key)))
  {
    NewKeyStep(tokens, getId, u, parentId, s, anchor, h, property, key);
    ScanThroughStep(tokens, getId, u, parentId, s, anchor, Some(h), property, Step(tokens, getId, u, parentId, s, anchor, Some(h), property));
  }

  /** A value appends its unescaped text to the list of the active property. */
  lemma ScanValue(tokens: seq<Token>, getId: nat -> Id, u: string -> string, parentId: Option<Id>,
                  s: State, anchor: Option<nat>, node: Option<nat>, h: nat, key: string)
    requires s.pos < |tokens| && tokens[s.pos].kind == CValueType
    requires InStore(s.heap, node, Some((h, key)))
    ensures Scan(tokens, getId, u, parentId, s, anchor, node, Some((h, key))) ==
            Scan(tokens, getId, u, parentId,
                 s.(pos := s.pos + 1, heap := AddValue(s.heap, h, key, u(ValueText(tokens[s.pos].value)))),
                 anchor, node, Some((h, key)))
  {
    ValueStep(tokens, getId, u, parentId, s, anchor, node, h, key);
    ScanThroughStep(tokens, getId, u, parentId, s, anchor, node, Some((h, key)), Step(tokens, getId, u, parentId, s, anchor, node, Some((h, key))));
  }

  /**
   * A later `;` of a chain whose current node is `h`: `OnSemicolon` reports
   * `h` and hangs the new node below it, which becomes the current node; the
   * active property stays.
   */
  lemma ScanNextSemicolon(tokens: seq<Token>, getId: nat -> Id, u: string -> string, parentId: Option<Id>,
                          s: State, anchor: Option<nat>, h: nat, property: Option<(nat, string)>)
    requires s.pos < |tokens| && tokens[s.pos].kind == Semicolon && InStore(s.heap, Some(h), property)
    ensures Scan(tokens, getId, u, parentId, s, anchor, Some(h), property) ==
            Scan(tokens, getId, u, parentId, OnSemicolon(s, getId, parentId, Some(h)).(pos := s.pos + 1),
                 anchor, Some(|s.heap|), property)
  {
    assert Step(tokens, getId, u, parentId, s, anchor, Some(h), property) ==
           Scanned(OnSemicolon(s, getId, parentId, Some(h)).(pos := s.pos + 1), anchor, Some(|s.heap|), property, None, false);
    ScanThroughStep(tokens, getId, u, parentId, s, anchor, Some(h), property, Step(tokens, getId, u, parentId, s, anchor, Some(h), property));
  }

  /** Replacing the last node of a store. */
  lemma SetLast(pre: seq<NodeRec>, x: NodeRec, y: NodeRec)
    ensures (pre + [x])[|pre| := y] == pre + [y]
  {
  }

  /**
   * `;`, an identifier that is its own short code, and a value, at the
   * cursor of a first loop that has no node yet: one new node below
   * `parentId`, holding that identifier with that one value.
   */
  lemma ScanNewNode(tokens: seq<Token>, getId: nat -> Id, u: string -> string, parentId: Option<Id>,
                    s: State, key: string, text: string)
    requires s.pos + 3 <= |tokens|
    requires tokens[s.pos] == Semi() && tokens[s.pos + 1] == Ident(key) && tokens[s.pos + 2] == Value(text)
    requires key != "" && ShortCode(key) == key
    ensures Scan(tokens, getId, u, parentId, s, None, None, None) ==
            Scan(tokens, getId, u, parentId,
                 s.(pos := s.pos + 3, calls := s.calls + 1,
                    heap := s.heap + [NodeRec(Some(getId(s.calls)), map[key := [u(ValueText(text))]], parentId, [])],
                    dictionary := Register(s.dictionary, getId(s.calls), |s.heap|)),
                 Some(|s.heap|), Some(|s.heap|), Some((|s.heap|, key)))
  {
    var h := |s.heap|;
    var id := getId(s.calls);
    var v := u(ValueText(text));
    var x0, x1, x2 := NodeRec(Some(id), map[], parentId, []), NodeRec(Some(id), map[key := []], parentId, []),
                      NodeRec(Some(id), map[key := [v]], parentId, []);
    var a1 := s.(pos := s.pos + 1, calls := s.calls + 1, heap := s.heap + [x0], dictionary := Register(s.dictionary, id, h));
    var a2 := a1.(pos := s.pos + 2, heap := s.heap + [x1]);
    var a3 := a1.(pos := s.pos + 3, heap := s.heap + [x2]);
    ScanFirstSemicolon(tokens, getId, u, parentId, s);
    assert a1.heap[h] == x0;
    SetLast(s.heap, x0, x1);
    ScanNewKey(tokens, getId, u, parentId, a1, Some(h), h, None, key);
    assert x0.data[key := []] == x1.data;
    assert a1.heap[h := a1.heap[h].(data := a1.heap[h].data[key := []])] == a2.heap;
    assert a1.(pos := a1.pos + 1, heap := a2.heap) == a2;
    assert Scan(tokens, getId, u, parentId, a1, Some(h), Some(h), None) ==
           Scan(tokens, getId, u, parentId, a2, Some(h), Some(h), Some((h, key)));
    assert a2.heap[h] == x1;
    assert [] + [v] == [v];
    assert map[key := []][key := [] + [v]] == map[key := [v]];
    SetLast(s.heap, x1, x2);
    assert AddValue(a2.heap, h, key, v) == a3.heap;
    ScanValue(tokens, getId, u, parentId, a2, Some(h), Some(h), h, key);
    assert a2.(pos := a2.pos + 1, heap := AddValue(a2.heap, h, key, v)) == a3;
    assert Scan(tokens, getId, u, parentId, a2, Some(h), Some(h), Some((h, key))) ==
           Scan(tokens, getId, u, parentId, a3, Some(h), Some(h), Some((h, key)));
  }

  /**
   * `(;B[hh](;W[ii])(;W[hi]C[h]))`, the token stream of the repository's
   * test of variations; each `)` carries its index as its progress.
   */
  function Variations17(): seq<Token> {
    seq(17, (i: nat) => VariationsToken(i))
  }

  /** The token at index `i` of `Variations17`. */
  function VariationsToken(i: nat): Token {
    if i == 0 || i == 4 || i == 9 then Open()
    else if i == 1 || i == 5 || i == 10 then Semi()
    else if i == 2 then Ident("B")
    else if i == 3 then Value("[hh]")
    else if i == 6 || i == 11 then Ident("W")
    else if i == 7 then Value("[ii]")
    else if i == 12 then Value("[hi]")
    else if i == 13 then Ident("C")
    else if i == 14 then Value("[h]")
    else Close(i)
  }

  /** The top-level container, with `children`. */
  function Root(children: seq<nat>): NodeRec { NodeRec(None, map[], None, children) }

  /** `;B[hh]`, id 0, at top level, with `children`. */
  function NodeB(u: string -> string, children: seq<nat>): NodeRec {
    NodeRec(Some(0), map["B" := [u("hh")]], None, children)
  }

  /** `;W[ii]`, id 1, below node 0. */
  function NodeWii(u: string -> string): NodeRec { NodeRec(Some(1), map["W" := [u("ii")]], Some(0), []) }

  /** `;W[hi]C[h]`, id 2, below node 0, holding `data`. */
  function NodeWhi(data: map<string, seq<string>>): NodeRec { NodeRec(Some(2), data, Some(0), []) }

  /** The data of `;W[hi]C[h]`. */
  function DataWhi(u: string -> string): map<string, seq<string>> { map["W" := [u("hi")], "C" := [u("h")]] }

  /** Node 0 as `onNodeCreated` received it: no children yet. */
  function ReportB(u: string -> string): Created { Created(1, NodeB(u, [])) }

  /** The tokens of `Variations17`, one by one. */
  lemma VariationsTokens()
    ensures var t := Variations17();
      && |t| == 17 && t[0] == Open() && t[1] == Semi() && t[2] == Ident("B") && t[3] == Value("[hh]")
      && t[4] == Open() && t[5] == Semi() && t[6] == Ident("W") && t[7] == Value("[ii]") && t[8] == Close(8)
      && t[9] == Open() && t[10] == Semi() && t[11] == Ident("W") && t[12] == Value("[hi]")
      && t[13] == Ident("C") && t[14] == Value("[h]") && t[15] == Close(15) && t[16] == Close(16)
  {
  }

  /** `t` starts like the test of variations, `(;B[hh](;W[ii])(`. */
  predicate OpensWithFirstVariation(t: seq<Token>) {
    && |t| >= 10 && t[0] == Open() && t[1] == Semi() && t[2] == Ident("B") && t[3] == Value("[hh]")
    && t[4] == Open() && t[5] == Semi() && t[6] == Ident("W") && t[7] == Value("[ii]") && t[8] == Close(8) && t[9] == Open()
  }

  /** The first loop stops at a `(` with what it has. */
  lemma ScanAtOpen(tokens: seq<Token>, getId: nat -> Id, u: string -> string, parentId: Option<Id>,
                   s: State, anchor: Option<nat>, node: Option<nat>, property: Option<(nat, string)>)
    requires s.pos < |tokens| && tokens[s.pos] == Open() && InStore(s.heap, node, property)
    ensures Scan(tokens, getId, u, parentId, s, anchor, node, property) == Scanned(s, anchor, node, property, None, false)
  {
  }

  /** The first loop stops at the end of the input with what it has. */
  lemma ScanAtEnd(tokens: seq<Token>, getId: nat -> Id, u: string -> string, parentId: Option<Id>,
                  s: State, anchor: Option<nat>, node: Option<nat>, property: Option<(nat, string)>)
    requires s.pos == |tokens| && InStore(s.heap, node, property)
    ensures Scan(tokens, getId, u, parentId, s, anchor, node, property) == Scanned(s, anchor, node, property, None, false)
  {
  }

  /** The first loop stops at a `)` with what it has, and says so. */
  lemma ScanAtClose(tokens: seq<Token>, getId: nat -> Id, u: string -> string, parentId: Option<Id>,
                    s: State, anchor: Option<nat>, node: Option<nat>, property: Option<(nat, string)>)
    requires s.pos < |tokens| && IsClose(tokens[s.pos]) && InStore(s.heap, node, property)
    ensures Scan(tokens, getId, u, parentId, s, anchor, node, property) == Scanned(s, anchor, node, property, None, true)
  {
  }

  /** A call whose first loop a `)` ended returns the chain's first node after reporting its last. */
  lemma ParseFromClosed(tokens: seq<Token>, getId: nat -> Id, u: string -> string, parentId: Option<Id>, s: State, c: Scanned)
    requires s.pos <= |tokens| && c == Scan(tokens, getId, u, parentId, s, None, None, None)
    requires c.err.None? && c.closed && c.node.Some? && c.node.value < |c.s.heap|
    ensures ParseFrom(tokens, getId, u, parentId, s) == Call(NodeCreated(c.s, c.node.value), c.anchor, None)
  {
  }

  /** A call whose first loop a `(` or the end of the input ended goes on with the variations. */
  lemma ParseFromOpen(tokens: seq<Token>, getId: nat -> Id, u: string -> string, parentId: Option<Id>, s: State, c: Scanned)
    requires s.pos <= |tokens| && c == Scan(tokens, getId, u, parentId, s, None, None, None)
    requires c.err.None? && !c.closed
    ensures ParseFrom(tokens, getId, u, parentId, s) == ChainThenVariations(tokens, getId, u, c.s, c.anchor, c.node)
  {
  }

  /** Without a chain, the variations go below a new container, which the call returns. */
  lemma ContainerThenVariations(tokens: seq<Token>, getId: nat -> Id, u: string -> string, s: State,
                                v: (State, Option<ParseError>))
    requires s.pos <= |tokens|
    requires v == Variations(tokens, getId, u, |s.heap|, s.(heap := s.heap + [NodeRec(None, map[], None, [])])) && v.1.None?
    ensures ChainThenVariations(tokens, getId, u, s, None, None) == Call(v.0, Some(|s.heap|), None)
  {
  }

  /** After a chain, its last node `h` is reported and the variations go below it. */
  lemma NodeThenVariations(tokens: seq<Token>, getId: nat -> Id, u: string -> string, s: State, anchor: Option<nat>, h: nat,
                           v: (State, Option<ParseError>))
    requires s.pos <= |tokens| && h < |s.heap|
    requires v == Variations(tokens, getId, u, h, NodeCreated(s, h)) && v.1.None?
    ensures ChainThenVariations(tokens, getId, u, s, anchor, Some(h)) == Call(v.0, anchor, None)
  {
  }

  /** A `(` in the second loop: one variation, then the loop goes on after it. */
  lemma VariationsOpen(tokens: seq<Token>, getId: nat -> Id, u: string -> string, n: nat, s: State, v: (State, Option<ParseError>))
    requires s.pos < |tokens| && tokens[s.pos] == Open() && n < |s.heap|
    requires v == VariationAt(tokens, getId, u, n, s) && v.1.None?
    ensures Variations(tokens, getId, u, n, s) == Variations(tokens, getId, u, n, Advance(tokens, v.0))
  {
  }

  /** A `)` ends the second loop, logging its progress. */
  lemma VariationsClose(tokens: seq<Token>, getId: nat -> Id, u: string -> string, n: nat, s: State)
    requires s.pos < |tokens| && IsClose(tokens[s.pos]) && n < |s.heap|
    ensures Variations(tokens, getId, u, n, s) == (s.(progress := s.progress + [tokens[s.pos].progress]), None)
  {
  }

  /** The end of the input ends the second loop. */
  lemma VariationsEnd(tokens: seq<Token>, getId: nat -> Id, u: string -> string, n: nat, s: State)
    requires s.pos == |tokens| && n < |s.heap|
    ensures Variations(tokens, getId, u, n, s) == (s, None)
  {
  }

  /** A variation whose nested call returns a node pushes it onto the children of `n`. */
  lemma VariationChild(tokens: seq<Token>, getId: nat -> Id, u: string -> string, n: nat, s: State, c: Call, a: nat)
    requires s.pos < |tokens| && n < |s.heap| && n < |c.s.heap|
    requires ParseFrom(tokens, getId, u, s.heap[n].id, s.(pos := s.pos + 1)) == c && c.anchor == Some(a)
    ensures VariationAt(tokens, getId, u, n, s) == (c.s.(heap := PushChild(c.s.heap, n, a)), c.err)
  {
    assert VariationAt(tokens, getId, u, n, s) ==
           (if c.anchor.Some? then c.s.(heap := PushChild(c.s.heap, n, c.anchor.value)) else c.s, c.err);
  }

  /** The state in which the nested call for `;W[ii])` starts, after `(` at index 4. */
  function FirstInnerStart(u: string -> string): State {
    State(5, 1, [Root([]), NodeB(u, [])], None, [ReportB(u)], [])
  }

  /** The state in which it ends, at the `)` at index 8. */
  function FirstInnerEnd(u: string -> string): State {
    State(8, 2, [Root([]), NodeB(u, []), NodeWii(u)], None, [ReportB(u), Created(2, NodeWii(u))], [])
  }

  /** The states the nested call for `;W[ii])` goes through. */
  lemma FirstInnerStates(u: string -> string)
    ensures var s := FirstInnerStart(u);
      s.(pos := s.pos + 3, calls := s.calls + 1,
         heap := s.heap + [NodeRec(Some(CountingId(s.calls)), map["W" := [u(ValueText("[ii]"))]], Some(0), [])],
         dictionary := Register(s.dictionary, CountingId(s.calls), |s.heap|)) ==
      FirstInnerEnd(u).(created := [ReportB(u)])
    ensures NodeCreated(FirstInnerEnd(u).(created := [ReportB(u)]), 2) == FirstInnerEnd(u)
  {
    assert ValueText("[ii]") == "ii";
  }

  /** `;W[ii])`: one node below node 0, reported when the `)` closes the chain. */
  lemma FirstInnerCall(t: seq<Token>, u: string -> string)
    requires OpensWithFirstVariation(t)
    ensures ParseFrom(t, CountingId, u, Some(0), FirstInnerStart(u)) == Call(FirstInnerEnd(u), Some(2), None)
  {
    var e := FirstInnerEnd(u).(created := [ReportB(u)]);
    CapitalsAreShortCodes();
    FirstInnerStates(u);
    ScanNewNode(t, CountingId, u, Some(0), FirstInnerStart(u), "W", "[ii]");
    ScanAtClose(t, CountingId, u, Some(0), e, Some(2), Some(2), Some((2, "W")));
    ParseFromClosed(t, CountingId, u, Some(0), FirstInnerStart(u), Scanned(e, Some(2), Some(2), Some((2, "W")), None, true));
  }

  /** Both nodes below node 0 as `onNodeCreated` received them, in order, after node 0. */
  function ReportsAfterFirst(u: string -> string): seq<Created> { [ReportB(u), Created(2, NodeWii(u))] }

  /** Every node as `onNodeCreated` received it, in order. */
  function AllReports(u: string -> string): seq<Created> {
    ReportsAfterFirst(u) + [Created(3, NodeWhi(DataWhi(u)))]
  }

  /** The state in which the nested call for `;W[hi]C[h])` starts, after `(` at index 9. */
  function SecondInnerStart(u: string -> string): State {
    State(10, 2, [Root([]), NodeB(u, [2]), NodeWii(u)], None, ReportsAfterFirst(u), [])
  }

  /** A state of that call at `pos`, with node 3 holding `data` and not yet reported. */
  function SecondInnerAt(u: string -> string, pos: nat, data: map<string, seq<string>>): State {
    State(pos, 3, [Root([]), NodeB(u, [2]), NodeWii(u), NodeWhi(data)], None, ReportsAfterFirst(u), [])
  }

  /** The states the nested call for `;W[hi]C[h])` goes through. */
  lemma SecondInnerStates(u: string -> string)
    ensures var s := SecondInnerStart(u);
      s.(pos := s.pos + 3, calls := s.calls + 1,
         heap := s.heap + [NodeRec(Some(CountingId(s.calls)), map["W" := [u(ValueText("[hi]"))]], Some(0), [])],
         dictionary := Register(s.dictionary, CountingId(s.calls), |s.heap|)) ==
      SecondInnerAt(u, 13, map["W" := [u("hi")]])
    ensures var a := SecondInnerAt(u, 13, map["W" := [u("hi")]]);
      a.(pos := a.pos + 1, heap := a.heap[3 := a.heap[3].(data := a.heap[3].data["C" := []])]) ==
      SecondInnerAt(u, 14, map["W" := [u("hi")], "C" := []])
    ensures NodeCreated(SecondInnerAt(u, 15, DataWhi(u)), 3) == SecondInnerAt(u, 15, DataWhi(u)).(created := AllReports(u))
  {
    assert ValueText("[hi]") == "hi";
  }

  /** Appending `h` to the empty `C` of node 3 gives the node's final data. */
  lemma SecondInnerValueState(u: string -> string)
    ensures var b := SecondInnerAt(u, 14, map["W" := [u("hi")], "C" := []]);
      b.(pos := b.pos + 1, heap := AddValue(b.heap, 3, "C", u(ValueText("[h]")))) == SecondInnerAt(u, 15, DataWhi(u))
  {
    var d := map["W" := [u("hi")], "C" := []];
    assert ValueText("[h]") == "h";
    assert d["C"] + [u("h")] == [u("h")];
    assert d["C" := d["C"] + [u("h")]] == DataWhi(u);
  }

  /** `;W[hi]C[h])`: the first loop adds `W` and `C` to one new node and stops at the `)`. */
  lemma SecondInnerScan(u: string -> string)
    ensures Scan(Variations17(), CountingId, u, Some(0), SecondInnerStart(u), None, None, None) ==
            Scanned(SecondInnerAt(u, 15, DataWhi(u)), Some(3), Some(3), Some((3, "C")), None, true)
  {
    var t := Variations17();
    VariationsTokens();
    CapitalsAreShortCodes();
    SecondInnerStates(u);
    SecondInnerValueState(u);
    ScanNewNode(t, CountingId, u, Some(0), SecondInnerStart(u), "W", "[hi]");
    ScanNewKey(t, CountingId, u, Some(0), SecondInnerAt(u, 13, map["W" := [u("hi")]]), Some(3), 3, Some((3, "W")), "C");
    ScanValue(t, CountingId, u, Some(0), SecondInnerAt(u, 14, map["W" := [u("hi")], "C" := []]), Some(3), Some(3), 3, "C");
    ScanAtClose(t, CountingId, u, Some(0), SecondInnerAt(u, 15, DataWhi(u)), Some(3), Some(3), Some((3, "C")));
  }

  /** `;W[hi]C[h])`: one node below node 0 holding `W` and `C`, reported when the `)` closes the chain. */
  lemma SecondInnerCall(u: string -> string)
    ensures ParseFrom(Variations17(), CountingId, u, Some(0), SecondInnerStart(u)) ==
            Call(SecondInnerAt(u, 15, DataWhi(u)).(created := AllReports(u)), Some(3), None)
  {
    SecondInnerScan(u);
    SecondInnerStates(u);
    ParseFromClosed(Variations17(), CountingId, u, Some(0), SecondInnerStart(u),
                    Scanned(SecondInnerAt(u, 15, DataWhi(u)), Some(3), Some(3), Some((3, "C")), None, true));
  }

  /** Node 0 reported, with the cursor on the `(` at index 4. */
  function AfterB(u: string -> string): State {
    State(4, 1, [Root([]), NodeB(u, [])], None, [ReportB(u)], [])
  }

  /** After the first variation: node 2 is the first child of node 0, and the cursor is on its `)`. */
  function AfterFirstVariation(u: string -> string): State {
    State(8, 2, [Root([]), NodeB(u, [2]), NodeWii(u)], None, ReportsAfterFirst(u), [])
  }

  /** Every node of the test, the container with `rootChildren`, at `pos`, with `progress` logged. */
  function Branches(u: string -> string, rootChildren: seq<nat>, pos: nat, progress: seq<nat>): State {
    State(pos, 3, [Root(rootChildren), NodeB(u, [2, 3]), NodeWii(u), NodeWhi(DataWhi(u))], None, AllReports(u), progress)
  }

  /** The states the second loop for node 0 goes through. */
  lemma VariationsOfBStates(u: string -> string)
    ensures AfterB(u).heap[1].id == Some(0) && AfterB(u).(pos := AfterB(u).pos + 1) == FirstInnerStart(u)
    ensures FirstInnerEnd(u).(heap := PushChild(FirstInnerEnd(u).heap, 1, 2)) == AfterFirstVariation(u)
    ensures Advance(Variations17(), AfterFirstVariation(u)) == AfterFirstVariation(u).(pos := 9)
    ensures var s := AfterFirstVariation(u).(pos := 9); s.heap[1].id == Some(0) && s.(pos := s.pos + 1) == SecondInnerStart(u)
    ensures var e := SecondInnerAt(u, 15, DataWhi(u)).(created := AllReports(u));
      e.(heap := PushChild(e.heap, 1, 3)) == Branches(u, [], 15, [])
    ensures Advance(Variations17(), Branches(u, [], 15, [])) == Branches(u, [], 16, [])
    ensures Branches(u, [], 16, []).(progress := [] + [16]) == Branches(u, [], 16, [16])
  {
    VariationsTokens();
    assert NodeB(u, []).children + [2] == [2];
    assert NodeB(u, [2]).children + [3] == [2, 3];
  }

  /** `(;W[ii])`: the nested call's node becomes the first child of node 0. */
  lemma FirstVariation(t: seq<Token>, u: string -> string)
    requires OpensWithFirstVariation(t)
    ensures VariationAt(t, CountingId, u, 1, AfterB(u)) == (AfterFirstVariation(u), None)
  {
    VariationsOfBStates(u);
    FirstInnerCall(t, u);
    VariationChild(t, CountingId, u, 1, AfterB(u), Call(FirstInnerEnd(u), Some(2), None), 2);
  }

  /** `(;W[hi]C[h])`: the nested call's node becomes the second child of node 0. */
  lemma SecondVariation(u: string -> string)
    ensures VariationAt(Variations17(), CountingId, u, 1, AfterFirstVariation(u).(pos := 9)) == (Branches(u, [], 15, []), None)
  {
    VariationsTokens();
    VariationsOfBStates(u);
    SecondInnerCall(u);
    VariationChild(Variations17(), CountingId, u, 1, AfterFirstVariation(u).(pos := 9),
                   Call(SecondInnerAt(u, 15, DataWhi(u)).(created := AllReports(u)), Some(3), None), 3);
  }

  /**
   * `(;W[ii])(;W[hi]C[h]))` after node 0: both variations become its
   * children, in order, and the final `)` ends the loop with its progress.
   */
  lemma VariationsOfB(u: string -> string)
    ensures Variations(Variations17(), CountingId, u, 1, AfterB(u)) == (Branches(u, [], 16, [16]), None)
  {
    var t := Variations17();
    VariationsTokens();
    VariationsOfBStates(u);
    FirstVariation(t, u);
    VariationsOpen(t, CountingId, u, 1, AfterB(u), (AfterFirstVariation(u), None));
    SecondVariation(u);
    VariationsOpen(t, CountingId, u, 1, AfterFirstVariation(u).(pos := 9), (Branches(u, [], 15, []), None));
    VariationsClose(t, CountingId, u, 1, Branches(u, [], 16, []));
  }

  /** The state in which the nested call for `;B[hh](...)(...))` starts, after the first `(`. */
  function OuterStart(): State { State(1, 0, [Root([])], None, [], []) }

  /** The states the nested call for `;B[hh](...)(...))` goes through. */
  lemma OuterStates(u: string -> string)
    ensures var s := OuterStart();
      s.(pos := s.pos + 3, calls := s.calls + 1,
         heap := s.heap + [NodeRec(Some(CountingId(s.calls)), map["B" := [u(ValueText("[hh]"))]], None, [])],
         dictionary := Register(s.dictionary, CountingId(s.calls), |s.heap|)) ==
      AfterB(u).(created := [])
    ensures NodeCreated(AfterB(u).(created := []), 1) == AfterB(u)
  {
    assert ValueText("[hh]") == "hh";
  }

  /** `;B[hh](;W[ii])(;W[hi]C[h]))`: node 0, with both variations below it, returned at the final `)`. */
  lemma OuterCall(u: string -> string)
    ensures ParseFrom(Variations17(), CountingId, u, None, OuterStart()) == Call(Branches(u, [], 16, [16]), Some(1), None)
  {
    var t := Variations17();
    var chain := AfterB(u).(created := []);
    VariationsTokens();
    CapitalsAreShortCodes();
    OuterStates(u);
    ScanNewNode(t, CountingId, u, None, OuterStart(), "B", "[hh]");
    ScanAtOpen(t, CountingId, u, None, chain, Some(1), Some(1), Some((1, "B")));
    ParseFromOpen(t, CountingId, u, None, OuterStart(), Scanned(chain, Some(1), Some(1), Some((1, "B")), None, false));
    VariationsOfB(u);
    NodeThenVariations(t, CountingId, u, chain, Some(1), 1, (Branches(u, [], 16, [16]), None));
  }

  /** The states the top-level call goes through. */
  lemma TopStates(u: string -> string)
    ensures var s := Start(false);
      |s.heap| == 0 && s.(heap := s.heap + [NodeRec(None, map[], None, [])]) == OuterStart().(pos := 0)
    ensures var s := OuterStart().(pos := 0); s.heap[0].id == None && s.(pos := s.pos + 1) == OuterStart()
    ensures var e := Branches(u, [], 16, [16]); e.(heap := PushChild(e.heap, 0, 1)) == Branches(u, [1], 16, [16])
    ensures Advance(Variations17(), Branches(u, [1], 16, [16])) == Branches(u, [1], 17, [16])
  {
    VariationsTokens();
    assert Root([]).children + [1] == [1];
  }

  /**
   * `(;B[hh](;W[ii])(;W[hi]C[h]))` at top level: a container whose one
   * child is node 0, reported first, with nodes 1 and 2 below it, in the
   * order of the variations, and the progress of the last `)` logged.
   */
  lemma TopCall(u: string -> string)
    ensures ParseFrom(Variations17(), CountingId, u, None, Start(false)) == Call(Branches(u, [1], 17, [16]), Some(0), None)
  {
    var t := Variations17();
    var root := OuterStart().(pos := 0);
    VariationsTokens();
    TopStates(u);
    ScanAtOpen(t, CountingId, u, None, Start(false), None, None, None);
    ParseFromOpen(t, CountingId, u, None, Start(false), Scanned(Start(false), None, None, None, None, false));
    OuterCall(u);
    VariationChild(t, CountingId, u, 0, root, Call(Branches(u, [], 16, [16]), Some(1), None), 1);
    VariationsOpen(t, CountingId, u, 0, root, (Branches(u, [1], 16, [16]), None));
    VariationsEnd(t, CountingId, u, 0, Branches(u, [1], 17, [16]));
    ContainerThenVariations(t, CountingId, u, Start(false), (Branches(u, [1], 17, [16]), None));
  }

  /** The tree the repository's test expects for `(;B[hh](;W[ii])(;W[hi]C[h]))`. */
  function TreeOfVariations(u: string -> string): Node {
    Node(Some(0), map["B" := [u("hh")]], None,
         [Node(Some(1), map["W" := [u("ii")]], Some(0), []), Node(Some(2), DataWhi(u), Some(0), [])])
  }

  /** The nodes `onNodeCreated` receives for it, each without children, in order. */
  function CreatedOfVariations(u: string -> string): seq<Node> {
    [Node(Some(0), map["B" := [u("hh")]], None, []), Node(Some(1), map["W" := [u("ii")]], Some(0), []),
     Node(Some(2), DataWhi(u), Some(0), [])]
  }

  /** The final state of the test reads out as the expected tree and callback logs. */
  lemma ReadOutVariations(u: string -> string)
    ensures Parser.Readable(Branches(u, [1], 17, [16]))
    ensures Parser.Returned(Call(Branches(u, [1], 17, [16]), Some(0), None)) == Ok([TreeOfVariations(u)])
    ensures Parser.EffectsOf(Branches(u, [1], 17, [16]), None) == Parser.Effects(None, CreatedOfVariations(u), [16])
  {
    var heap := Branches(u, [1], 17, [16]).heap;
    assert Increasing([2, 3]) by { assert [2, 3][1..] == [3]; }
    assert ChildrenOrdered(heap);
    assert TreeAt(heap, 2) == Node(Some(1), map["W" := [u("ii")]], Some(0), []);
    assert TreeAt(heap, 3) == Node(Some(2), DataWhi(u), Some(0), []);
    assert TreeAt(heap, 1) == TreeOfVariations(u);
    assert Forest(heap, [1]) == [TreeOfVariations(u)];
    assert Forest(heap, []) == [];
  }

  /**
   * The repository's test of variations, through the entry point: one tree,
   * node 0 with `B`, whose children are the two variations in source order,
   * each carrying node 0's id as its parent.
   */
  method ParseVariationsExample(u: string -> string) returns (result: Result<seq<Node>, ParseError>, effects: Parser.Effects)
    ensures result == Ok([TreeOfVariations(u)])
    ensures effects == Parser.Effects(None, CreatedOfVariations(u), [16])
  {
    TopCall(u);
    ReadOutVariations(u);
    result, effects := Parser.ParseTokens(Variations17(), None, None, u);
  }

  /**
   * `(;B[hh](;W[ii])(;W[hi];C[h]))`, the token stream of the repository's
   * test of `onNodeCreated`; each `)` carries its index as its progress.
   */
  function CreationOrder(): seq<Token> {
    seq(18, (i: nat) => CreationOrderToken(i))
  }

  /** The token at index `i` of `CreationOrder`: the variations test up to its second `(`, then `;W[hi];C[h]))`. */
  function CreationOrderToken(i: nat): Token {
    if i < 10 then VariationsToken(i)
    else if i == 10 || i == 13 then Semi()
    else if i == 11 then Ident("W")
    else if i == 12 then Value("[hi]")
    else if i == 14 then Ident("C")
    else if i == 15 then Value("[h]")
    else Close(i)
  }

  /** The tokens of `CreationOrder`, one by one. */
  lemma CreationOrderTokens()
    ensures var t := CreationOrder();
      && OpensWithFirstVariation(t) && |t| == 18
      && t[10] == Semi() && t[11] == Ident("W") && t[12] == Value("[hi]") && t[13] == Semi()
      && t[14] == Ident("C") && t[15] == Value("[h]") && t[16] == Close(16) && t[17] == Close(17)
  {
  }

  /** `;W[hi]`, id 2, below node 0, with `children`. */
  function NodeWhiOnly(u: string -> string, children: seq<nat>): NodeRec {
    NodeRec(Some(2), map["W" := [u("hi")]], Some(0), children)
  }

  /** `;C[h]`, id 3, below node 2, holding `data`. */
  function NodeC(data: map<string, seq<string>>): NodeRec { NodeRec(Some(3), data, Some(2), []) }

  /** The data of `;C[h]`. */
  function DataC(u: string -> string): map<string, seq<string>> { map["C" := [u("h")]] }

  /** A state of the nested call for `;W[hi];C[h])` at `pos`, with node 4 holding `data`; node 3 was reported before it got node 4 as its child. */
  function SplitAt(u: string -> string, pos: nat, data: map<string, seq<string>>): State {
    State(pos, 4, [Root([]), NodeB(u, [2]), NodeWii(u), NodeWhiOnly(u, [4]), NodeC(data)], None,
          ReportsAfterFirst(u) + [Created(3, NodeWhiOnly(u, []))], [])
  }

  /** Every node as `onNodeCreated` received it, in order. */
  function CreationReports(u: string -> string): seq<Created> {
    ReportsAfterFirst(u) + [Created(3, NodeWhiOnly(u, [])), Created(4, NodeC(DataC(u)))]
  }

  /** Every node of the test, the container with `rootChildren`, at `pos`, with `progress` logged. */
  function CreationBranches(u: string -> string, rootChildren: seq<nat>, pos: nat, progress: seq<nat>): State {
    State(pos, 4, [Root(rootChildren), NodeB(u, [2, 3]), NodeWii(u), NodeWhiOnly(u, [4]), NodeC(DataC(u))], None,
          CreationReports(u), progress)
  }

  /** The states the nested call for `;W[hi];C[h])` goes through. */
  lemma SplitStates(u: string -> string)
    ensures var a := SecondInnerAt(u, 13, map["W" := [u("hi")]]);
      OnSemicolon(a, CountingId, Some(0), Some(3)).(pos := 14) == SplitAt(u, 14, map[])
    ensures var b := SplitAt(u, 14, map[]);
      b.(pos := b.pos + 1, heap := b.heap[4 := b.heap[4].(data := b.heap[4].data["C" := []])]) == SplitAt(u, 15, map["C" := []])
  {
    var a := SecondInnerAt(u, 13, map["W" := [u("hi")]]);
    var grown := a.heap + [NodeC(map[])];
    assert grown[3].children + [4] == [4];
    assert PushChild(grown, 3, 4) == SplitAt(u, 14, map[]).heap;
    assert AfterSemicolon(a.heap, 3, Some(0), Some(3)) == SplitAt(u, 14, map[]).heap;
  }

  /** Appending `h` to the empty `C` of node 4 gives its final data, and `)` reports it. */
  lemma SplitValueStates(u: string -> string)
    ensures var b := SplitAt(u, 15, map["C" := []]);
      b.(pos := b.pos + 1, heap := AddValue(b.heap, 4, "C", u(ValueText("[h]")))) == SplitAt(u, 16, DataC(u))
    ensures var e := NodeCreated(SplitAt(u, 16, DataC(u)), 4);
      e.(heap := PushChild(e.heap, 1, 3)) == CreationBranches(u, [], 16, [])
  {
    assert ValueText("[h]") == "h";
    assert [] + [u("h")] == [u("h")];
    assert map["C" := []]["C" := [] + [u("h")]] == DataC(u);
    assert NodeB(u, [2]).children + [3] == [2, 3];
  }

  /**
   * `;W[hi];C[h])`: a chain of two nodes below node 0; node 2 is reported
   * at the `;` holding only `W`, and node 3 at the `)`.
   */
  lemma SplitScan(u: string -> string)
    ensures Scan(CreationOrder(), CountingId, u, Some(0), SecondInnerStart(u), None, None, None) ==
            Scanned(SplitAt(u, 16, DataC(u)), Some(3), Some(4), Some((4, "C")), None, true)
  {
    var t := CreationOrder();
    CreationOrderTokens();
    CapitalsAreShortCodes();
    SecondInnerStates(u);
    SplitStates(u);
    SplitValueStates(u);
    ScanNewNode(t, CountingId, u, Some(0), SecondInnerStart(u), "W", "[hi]");
    ScanNextSemicolon(t, CountingId, u, Some(0), SecondInnerAt(u, 13, map["W" := [u("hi")]]), Some(3), 3, Some((3, "W")));
    ScanNewKey(t, CountingId, u, Some(0), SplitAt(u, 14, map[]), Some(3), 4, Some((3, "W")), "C");
    ScanValue(t, CountingId, u, Some(0), SplitAt(u, 15, map["C" := []]), Some(3), Some(4), 4, "C");
    ScanAtClose(t, CountingId, u, Some(0), SplitAt(u, 16, DataC(u)), Some(3), Some(4), Some((4, "C")));
  }

  /** `(;W[hi];C[h])` after the first variation: node 2 becomes the second child of node 0. */
  lemma SplitVariation(u: string -> string)
    ensures VariationAt(CreationOrder(), CountingId, u, 1, AfterFirstVariation(u).(pos := 9)) == (CreationBranches(u, [], 16, []), None)
  {
    var t := CreationOrder();
    var closed := SplitAt(u, 16, DataC(u));
    CreationOrderTokens();
    VariationsOfBStates(u);
    SplitScan(u);
    ParseFromClosed(t, CountingId, u, Some(0), SecondInnerStart(u), Scanned(closed, Some(3), Some(4), Some((4, "C")), None, true));
    SplitValueStates(u);
    VariationChild(t, CountingId, u, 1, AfterFirstVariation(u).(pos := 9), Call(NodeCreated(closed, 4), Some(3), None), 3);
  }

  /** The states of the second loop for node 0 that depend on the length of `CreationOrder`. */
  lemma CreationLoopStates(u: string -> string)
    ensures Advance(CreationOrder(), AfterFirstVariation(u)) == AfterFirstVariation(u).(pos := 9)
    ensures Advance(CreationOrder(), CreationBranches(u, [], 16, [])) == CreationBranches(u, [], 17, [])
    ensures CreationBranches(u, [], 17, []).(progress := [] + [17]) == CreationBranches(u, [], 17, [17])
  {
    CreationOrderTokens();
  }

  /** `(;W[ii])(;W[hi];C[h]))` after node 0: both variations become its children, and the final `)` ends the loop. */
  lemma CreationVariationsOfB(u: string -> string)
    ensures Variations(CreationOrder(), CountingId, u, 1, AfterB(u)) == (CreationBranches(u, [], 17, [17]), None)
  {
    var t := CreationOrder();
    CreationOrderTokens();
    CreationLoopStates(u);
    FirstVariation(t, u);
    VariationsOpen(t, CountingId, u, 1, AfterB(u), (AfterFirstVariation(u), None));
    SplitVariation(u);
    VariationsOpen(t, CountingId, u, 1, AfterFirstVariation(u).(pos := 9), (CreationBranches(u, [], 16, []), None));
    VariationsClose(t, CountingId, u, 1, CreationBranches(u, [], 17, []));
  }

  /** `;B[hh](;W[ii])(;W[hi];C[h]))`: node 0 with both variations below it, returned at the final `)`. */
  lemma CreationOuterCall(u: string -> string)
    ensures ParseFrom(CreationOrder(), CountingId, u, None, OuterStart()) == Call(CreationBranches(u, [], 17, [17]), Some(1), None)
  {
    var t := CreationOrder();
    var chain := AfterB(u).(created := []);
    CreationOrderTokens();
    CapitalsAreShortCodes();
    OuterStates(u);
    ScanNewNode(t, CountingId, u, None, OuterStart(), "B", "[hh]");
    ScanAtOpen(t, CountingId, u, None, chain, Some(1), Some(1), Some((1, "B")));
    ParseFromOpen(t, CountingId, u, None, OuterStart(), Scanned(chain, Some(1), Some(1), Some((1, "B")), None, false));
    CreationVariationsOfB(u);
    NodeThenVariations(t, CountingId, u, chain, Some(1), 1, (CreationBranches(u, [], 17, [17]), None));
  }

  /** The states the top-level call goes through after the nested one. */
  lemma CreationTopStates(u: string -> string)
    ensures var e := CreationBranches(u, [], 17, [17]); e.(heap := PushChild(e.heap, 0, 1)) == CreationBranches(u, [1], 17, [17])
    ensures Advance(CreationOrder(), CreationBranches(u, [1], 17, [17])) == CreationBranches(u, [1], 18, [17])
  {
    CreationOrderTokens();
    assert Root([]).children + [1] == [1];
  }

  /** `(;B[hh](;W[ii])(;W[hi];C[h]))` at top level: a container whose one child is node 0. */
  lemma CreationTopCall(u: string -> string)
    ensures ParseFrom(CreationOrder(), CountingId, u, None, Start(false)) == Call(CreationBranches(u, [1], 18, [17]), Some(0), None)
  {
    var t := CreationOrder();
    var root := OuterStart().(pos := 0);
    CreationOrderTokens();
    TopStates(u);
    CreationTopStates(u);
    ScanAtOpen(t, CountingId, u, None, Start(false), None, None, None);
    ParseFromOpen(t, CountingId, u, None, Start(false), Scanned(Start(false), None, None, None, None, false));
    CreationOuterCall(u);
    VariationChild(t, CountingId, u, 0, root, Call(CreationBranches(u, [], 17, [17]), Some(1), None), 1);
    VariationsOpen(t, CountingId, u, 0, root, (CreationBranches(u, [1], 17, [17]), None));
    VariationsEnd(t, CountingId, u, 0, CreationBranches(u, [1], 18, [17]));
    ContainerThenVariations(t, CountingId, u, Start(false), (CreationBranches(u, [1], 18, [17]), None));
  }

  /**
   * The nodes the repository's test of `onNodeCreated` expects, in order:
   * each with its id, its parent's id, its data at that moment, and no
   * children.
   */
  function CreatedInOrder(u: string -> string): seq<Node> {
    [Node(Some(0), map["B" := [u("hh")]], None, []), Node(Some(1), map["W" := [u("ii")]], Some(0), []),
     Node(Some(2), map["W" := [u("hi")]], Some(0), []), Node(Some(3), DataC(u), Some(2), [])]
  }

  /** The tree below node 0 for `(;B[hh](;W[ii])(;W[hi];C[h]))`. */
  function TreeOfCreationOrder(u: string -> string): Node {
    Node(Some(0), map["B" := [u("hh")]], None,
         [Node(Some(1), map["W" := [u("ii")]], Some(0), []),
          Node(Some(2), map["W" := [u("hi")]], Some(0), [Node(Some(3), DataC(u), Some(2), [])])])
  }

  /** The final state can be read out, as the expected tree. */
  lemma ReadOutCreationOrder(u: string -> string)
    ensures Parser.Readable(CreationBranches(u, [1], 18, [17]))
    ensures Parser.Returned(Call(CreationBranches(u, [1], 18, [17]), Some(0), None)) == Ok([TreeOfCreationOrder(u)])
  {
    var heap := CreationBranches(u, [1], 18, [17]).heap;
    assert Increasing([2, 3]) by { assert [2, 3][1..] == [3]; }
    assert ChildrenOrdered(heap);
    assert TreeAt(heap, 4) == Node(Some(3), DataC(u), Some(2), []);
    assert TreeAt(heap, 3) == TreeOfCreationOrder(u).children[1];
    assert TreeAt(heap, 2) == TreeOfCreationOrder(u).children[0];
    assert TreeAt(heap, 1) == TreeOfCreationOrder(u);
    assert Forest(heap, [1]) == [TreeOfCreationOrder(u)];
  }

  /** The reports of the final state read out as the expected nodes. */
  lemma ReportsOfCreationOrder(u: string -> string)
    ensures Parser.Readable(CreationBranches(u, [1], 18, [17]))
    ensures Parser.EffectsOf(CreationBranches(u, [1], 18, [17]), None) == Parser.Effects(None, CreatedInOrder(u), [17])
  {
    ReadOutCreationOrder(u);
    assert Forest(CreationBranches(u, [1], 18, [17]).heap, []) == [];
  }

  /**
   * The repository's test of `onNodeCreated`, through the entry point: the
   * four nodes are reported in id order, each with its parent's id, no
   * children, and its data as it is when the next `;` or the `)` ends it.
   */
  method CreationOrderExample(u: string -> string) returns (result: Result<seq<Node>, ParseError>, effects: Parser.Effects)
    ensures result == Ok([TreeOfCreationOrder(u)])
    ensures effects == Parser.Effects(None, CreatedInOrder(u), [17])
  {
    CreationTopCall(u);
    ReadOutCreationOrder(u);
    ReportsOfCreationOrder(u);
    result, effects := Parser.ParseTokens(CreationOrder(), None, None, u);
  }

  /**
   * `(;B[aa]SZ[19];AB[cc][dd:ee])`, the token stream of the repository's
   * test of a chain of several nodes; the `)` carries its index as its
   * progress.
   */
  function MultipleNodes(): seq<Token> {
    seq(11, (i: nat) => MultipleNodesToken(i))
  }

  /** The token at index `i` of `MultipleNodes`. */
  function MultipleNodesToken(i: nat): Token {
    if i == 0 then Open()
    else if i == 1 || i == 6 then Semi()
    else if i == 2 then Ident("B")
    else if i == 3 then Value("[aa]")
    else if i == 4 then Ident("SZ")
    else if i == 5 then Value("[19]")
    else if i == 7 then Ident("AB")
    else if i == 8 then Value("[cc]")
    else if i == 9 then Value("[dd:ee]")
    else Close(i)
  }

  /** The tokens of `MultipleNodes`, one by one. */
  lemma MultipleNodesTokens()
    ensures var t := MultipleNodes();
      && |t| == 11 && t[0] == Open() && t[1] == Semi() && t[2] == Ident("B") && t[3] == Value("[aa]")
      && t[4] == Ident("SZ") && t[5] == Value("[19]") && t[6] == Semi() && t[7] == Ident("AB")
      && t[8] == Value("[cc]") && t[9] == Value("[dd:ee]") && t[10] == Close(10)
  {
  }

  /** The data of `;B[aa]SZ[19]`. */
  function DataFirst(u: string -> string): map<string, seq<string>> { map["B" := [u("aa")], "SZ" := [u("19")]] }

  /** The data of `;AB[cc][dd:ee]`. */
  function DataSecond(u: string -> string): map<string, seq<string>> { map["AB" := [u("cc"), u("dd:ee")]] }

  /** `;B[aa]SZ[19]`, id 0, at top level, holding `data`, with `children`. */
  function NodeFirst(data: map<string, seq<string>>, children: seq<nat>): NodeRec { NodeRec(Some(0), data, None, children) }

  /** `;AB[cc][dd:ee]`, id 1, below node 0, holding `data`. */
  function NodeSecond(data: map<string, seq<string>>): NodeRec { NodeRec(Some(1), data, Some(0), []) }

  /** The chain's first node at `pos`, holding `data`, registered in the dictionary and not yet reported. */
  function FirstNodeAt(pos: nat, data: map<string, seq<string>>): State {
    State(pos, 1, [Root([]), NodeFirst(data, [])], Some(map[0 := 1]), [], [])
  }

  /** The chain's second node at `pos`, holding `data`; the first node was reported before it got the second as its child. */
  function SecondNodeAt(u: string -> string, pos: nat, data: map<string, seq<string>>): State {
    State(pos, 2, [Root([]), NodeFirst(DataFirst(u), [2]), NodeSecond(data)], Some(map[0 := 1, 1 := 2]),
          [Created(1, NodeFirst(DataFirst(u), []))], [])
  }

  /** Both nodes reported, the container with `rootChildren`, at `pos`. */
  function ChainDone(u: string -> string, rootChildren: seq<nat>, pos: nat): State {
    State(pos, 2, [Root(rootChildren), NodeFirst(DataFirst(u), [2]), NodeSecond(DataSecond(u))], Some(map[0 := 1, 1 := 2]),
          [Created(1, NodeFirst(DataFirst(u), [])), Created(2, NodeSecond(DataSecond(u)))], [])
  }

  /** The state in which the nested call for `;B[aa]SZ[19];AB[cc][dd:ee])` starts, after the `(`. */
  function ChainStart(): State { State(1, 0, [Root([])], Some(map[]), [], []) }

  /** The states the first node goes through. */
  lemma FirstNodeStates(u: string -> string)
    ensures var s := ChainStart();
      s.(pos := s.pos + 3, calls := s.calls + 1,
         heap := s.heap + [NodeRec(Some(CountingId(s.calls)), map["B" := [u(ValueText("[aa]"))]], None, [])],
         dictionary := Register(s.dictionary, CountingId(s.calls), |s.heap|)) ==
      FirstNodeAt(4, map["B" := [u("aa")]])
    ensures var a := FirstNodeAt(4, map["B" := [u("aa")]]);
      a.(pos := a.pos + 1, heap := a.heap[1 := a.heap[1].(data := a.heap[1].data["SZ" := []])]) ==
      FirstNodeAt(5, map["B" := [u("aa")], "SZ" := []])
    ensures var b := FirstNodeAt(5, map["B" := [u("aa")], "SZ" := []]);
      b.(pos := b.pos + 1, heap := AddValue(b.heap, 1, "SZ", u(ValueText("[19]")))) == FirstNodeAt(6, DataFirst(u))
  {
    assert ValueText("[aa]") == "aa";
    assert ValueText("[19]") == "19";
    var d := map["B" := [u("aa")], "SZ" := []];
    assert d["SZ"] + [u("19")] == [u("19")];
    assert d["SZ" := d["SZ"] + [u("19")]] == DataFirst(u);
  }

  /** The states the second node goes through. */
  lemma SecondNodeStates(u: string -> string)
    ensures var f := FirstNodeAt(6, DataFirst(u));
      OnSemicolon(f, CountingId, None, Some(1)).(pos := 7) == SecondNodeAt(u, 7, map[])
    ensures var a := SecondNodeAt(u, 7, map[]);
      a.(pos := a.pos + 1, heap := a.heap[2 := a.heap[2].(data := a.heap[2].data["AB" := []])]) ==
      SecondNodeAt(u, 8, map["AB" := []])
  {
    var f := FirstNodeAt(6, DataFirst(u));
    var grown := f.heap + [NodeSecond(map[])];
    assert grown[1].children + [2] == [2];
    assert PushChild(grown, 1, 2) == SecondNodeAt(u, 7, map[]).heap;
    assert AfterSemicolon(f.heap, 1, None, Some(1)) == SecondNodeAt(u, 7, map[]).heap;
  }

  /** Appending `cc` and then `dd:ee` to the empty `AB` of node 2 gives its final data. */
  lemma SecondNodeValueStates(u: string -> string)
    ensures var a := SecondNodeAt(u, 8, map["AB" := []]);
      a.(pos := a.pos + 1, heap := AddValue(a.heap, 2, "AB", u(ValueText("[cc]")))) == SecondNodeAt(u, 9, map["AB" := [u("cc")]])
    ensures var b := SecondNodeAt(u, 9, map["AB" := [u("cc")]]);
      b.(pos := b.pos + 1, heap := AddValue(b.heap, 2, "AB", u(ValueText("[dd:ee]")))) == SecondNodeAt(u, 10, DataSecond(u))
    ensures NodeCreated(SecondNodeAt(u, 10, DataSecond(u)), 2) == ChainDone(u, [], 10)
  {
    assert ValueText("[cc]") == "cc";
    assert ValueText("[dd:ee]") == "dd:ee";
    assert [] + [u("cc")] == [u("cc")];
    assert map["AB" := []]["AB" := [] + [u("cc")]] == map["AB" := [u("cc")]];
    assert [u("cc")] + [u("dd:ee")] == [u("cc"), u("dd:ee")];
    assert map["AB" := [u("cc")]]["AB" := [u("cc")] + [u("dd:ee")]] == DataSecond(u);
  }

  /**
   * `;B[aa]SZ[19];AB[cc][dd:ee])`: the first loop builds two nodes, the
   * second the only child of the first, and stops at the `)`.
   */
  lemma ChainOfTwoScan(u: string -> string)
    ensures Scan(MultipleNodes(), CountingId, u, None, ChainStart(), None, None, None) ==
            Scanned(SecondNodeAt(u, 10, DataSecond(u)), Some(1), Some(2), Some((2, "AB")), None, true)
  {
    var t := MultipleNodes();
    MultipleNodesTokens();
    CapitalsAreShortCodes();
    FirstNodeStates(u);
    SecondNodeStates(u);
    SecondNodeValueStates(u);
    ScanNewNode(t, CountingId, u, None, ChainStart(), "B", "[aa]");
    ScanNewKey(t, CountingId, u, None, FirstNodeAt(4, map["B" := [u("aa")]]), Some(1), 1, Some((1, "B")), "SZ");
    ScanValue(t, CountingId, u, None, FirstNodeAt(5, map["B" := [u("aa")], "SZ" := []]), Some(1), Some(1), 1, "SZ");
    ScanNextSemicolon(t, CountingId, u, None, FirstNodeAt(6, DataFirst(u)), Some(1), 1, Some((1, "SZ")));
    ScanNewKey(t, CountingId, u, None, SecondNodeAt(u, 7, map[]), Some(1), 2, Some((1, "SZ")), "AB");
    ScanValue(t, CountingId, u, None, SecondNodeAt(u, 8, map["AB" := []]), Some(1), Some(2), 2, "AB");
    ScanValue(t, CountingId, u, None, SecondNodeAt(u, 9, map["AB" := [u("cc")]]), Some(1), Some(2), 2, "AB");
    ScanAtClose(t, CountingId, u, None, SecondNodeAt(u, 10, DataSecond(u)), Some(1), Some(2), Some((2, "AB")));
  }

  /** `;B[aa]SZ[19];AB[cc][dd:ee])`: the chain's first node is returned once the `)` reports its last. */
  lemma ChainOfTwoCall(u: string -> string)
    ensures ParseFrom(MultipleNodes(), CountingId, u, None, ChainStart()) == Call(ChainDone(u, [], 10), Some(1), None)
  {
    ChainOfTwoScan(u);
    SecondNodeValueStates(u);
    ParseFromClosed(MultipleNodes(), CountingId, u, None, ChainStart(),
                    Scanned(SecondNodeAt(u, 10, DataSecond(u)), Some(1), Some(2), Some((2, "AB")), None, true));
  }

  /** The states the top-level call goes through. */
  lemma ChainOfTwoTopStates(u: string -> string)
    ensures var s := Start(true);
      |s.heap| == 0 && s.(heap := s.heap + [NodeRec(None, map[], None, [])]) == ChainStart().(pos := 0)
    ensures var s := ChainStart().(pos := 0); s.heap[0].id == None && s.(pos := s.pos + 1) == ChainStart()
    ensures var e := ChainDone(u, [], 10); e.(heap := PushChild(e.heap, 0, 1)) == ChainDone(u, [1], 10)
    ensures Advance(MultipleNodes(), ChainDone(u, [1], 10)) == ChainDone(u, [1], 11)
  {
    MultipleNodesTokens();
    assert Root([]).children + [1] == [1];
  }

  /**
   * `(;B[aa]SZ[19];AB[cc][dd:ee])` at top level with a dictionary: a
   * container whose one child is node 0; the `)` is consumed by the nested
   * chain, so no progress is logged.
   */
  lemma ChainOfTwoTop(u: string -> string)
    ensures ParseFrom(MultipleNodes(), CountingId, u, None, Start(true)) == Call(ChainDone(u, [1], 11), Some(0), None)
  {
    var t := MultipleNodes();
    var root := ChainStart().(pos := 0);
    MultipleNodesTokens();
    ChainOfTwoTopStates(u);
    ScanAtOpen(t, CountingId, u, None, Start(true), None, None, None);
    ParseFromOpen(t, CountingId, u, None, Start(true), Scanned(Start(true), None, None, None, None, false));
    ChainOfTwoCall(u);
    VariationChild(t, CountingId, u, 0, root, Call(ChainDone(u, [], 10), Some(1), None), 1);
    VariationsOpen(t, CountingId, u, 0, root, (ChainDone(u, [1], 10), None));
    VariationsEnd(t, CountingId, u, 0, ChainDone(u, [1], 11));
    ContainerThenVariations(t, CountingId, u, Start(true), (ChainDone(u, [1], 11), None));
  }

  /** The tree below `;AB[cc][dd:ee]`. */
  function TreeOfSecond(u: string -> string): Node { Node(Some(1), DataSecond(u), Some(0), []) }

  /** The tree the repository's test expects for `(;B[aa]SZ[19];AB[cc][dd:ee])`. */
  function TreeOfMultipleNodes(u: string -> string): Node { Node(Some(0), DataFirst(u), None, [TreeOfSecond(u)]) }

  /** The nodes `onNodeCreated` receives for it, each without children, in order. */
  function CreatedOfMultipleNodes(u: string -> string): seq<Node> {
    [Node(Some(0), DataFirst(u), None, []), TreeOfSecond(u)]
  }

  /** The final state can be read out, and the trees below nodes 0 and 1 are the expected ones. */
  lemma TreesOfMultipleNodes(u: string -> string)
    ensures Parser.Readable(ChainDone(u, [1], 11))
    ensures var heap := ChainDone(u, [1], 11).heap;
      TreeAt(heap, 1) == TreeOfMultipleNodes(u) && TreeAt(heap, 2) == TreeOfSecond(u)
  {
    var heap := ChainDone(u, [1], 11).heap;
    assert ChildrenOrdered(heap);
    assert TreeAt(heap, 2) == TreeOfSecond(u);
    assert Forest(heap, [2]) == [TreeOfSecond(u)];
  }

  /** The dictionary entries the parse writes: both nodes, each as the tree below it. */
  lemma EntriesOfMultipleNodes(u: string -> string)
    ensures Parser.Readable(ChainDone(u, [1], 11))
    ensures Parser.Entries(ChainDone(u, [1], 11)) == map[0 := TreeOfMultipleNodes(u), 1 := TreeOfSecond(u)]
  {
    TreesOfMultipleNodes(u);
    var s := ChainDone(u, [1], 11);
    assert s.dictionary.value == map[0 := 1, 1 := 2];
  }

  /** The final state reads out as the expected tree. */
  lemma ReadOutMultipleNodes(u: string -> string)
    ensures Parser.Readable(ChainDone(u, [1], 11))
    ensures Parser.Returned(Call(ChainDone(u, [1], 11), Some(0), None)) == Ok([TreeOfMultipleNodes(u)])
  {
    var s := ChainDone(u, [1], 11);
    TreesOfMultipleNodes(u);
    assert Forest(s.heap, [1]) == [TreeOfMultipleNodes(u)];
  }

  /**
   * What the caller holds afterwards: the report log, no progress, and the
   * dictionary `init` with both nodes written over it, each as the tree below
   * it, and its other entries kept.
   */
  lemma EffectsOfMultipleNodes(u: string -> string, init: map<Id, Node>)
    ensures Parser.Readable(ChainDone(u, [1], 11))
    ensures Parser.EffectsOf(ChainDone(u, [1], 11), Some(init)) ==
            Parser.Effects(Some(init[0 := TreeOfMultipleNodes(u)][1 := TreeOfSecond(u)]), CreatedOfMultipleNodes(u), [])
  {
    var s := ChainDone(u, [1], 11);
    EntriesOfMultipleNodes(u);
    assert Forest(s.heap, []) == [];
    var entries := map[0 := TreeOfMultipleNodes(u), 1 := TreeOfSecond(u)];
    assert init + entries == init[0 := TreeOfMultipleNodes(u)][1 := TreeOfSecond(u)];
  }

  /**
   * The repository's test of a chain of several nodes, through the entry
   * point with a dictionary that may already hold entries: one tree, node 0
   * with `B` and `SZ`, whose only child is node 1 with both values of `AB`;
   * the dictionary maps ids 0 and 1 to them over the caller's entries.
   */
  method ParseMultipleNodesExample(u: string -> string, init: map<Id, Node>)
    returns (result: Result<seq<Node>, ParseError>, effects: Parser.Effects)
    ensures result == Ok([TreeOfMultipleNodes(u)])
    ensures effects == Parser.Effects(Some(init[0 := TreeOfMultipleNodes(u)][1 := TreeOfSecond(u)]), CreatedOfMultipleNodes(u), [])
  {
    ChainOfTwoTop(u);
    ReadOutMultipleNodes(u);
    EffectsOfMultipleNodes(u, init);
    result, effects := Parser.ParseTokens(MultipleNodes(), None, Some(init), u);
  }

  /** `;B[hh];W[ii]`, the first input of the repository's test of nodes outside a game. */
  function OutsideAGame(): seq<Token> {
    seq(6, (i: nat) => if i == 0 || i == 3 then Semi() else if i == 1 then Ident("B") else if i == 2 then Value("[hh]")
                       else if i == 4 then Ident("W") else Value("[ii]"))
  }

  /** The tokens of `OutsideAGame`, one by one. */
  lemma OutsideAGameTokens()
    ensures var t := OutsideAGame();
      && |t| == 6 && t[0] == Semi() && t[1] == Ident("B") && t[2] == Value("[hh]")
      && t[3] == Semi() && t[4] == Ident("W") && t[5] == Value("[ii]")
  {
  }

  /** `;B[hh]`, id 0, at top level, with `children`. */
  function NodeBhh(u: string -> string, children: seq<nat>): NodeRec { NodeRec(Some(0), map["B" := [u("hh")]], None, children) }

  /** `;W[ii]`, id 1, below node 0, holding `data`. */
  function NodeWiiHolding(data: map<string, seq<string>>): NodeRec { NodeRec(Some(1), data, Some(0), []) }

  /** The chain's second node at `pos`, holding `data`, not yet reported; node 0 was reported before it got node 1 as its child. */
  function OutsideSecond(u: string -> string, pos: nat, data: map<string, seq<string>>): State {
    State(pos, 2, [NodeBhh(u, [1]), NodeWiiHolding(data)], None, [Created(0, NodeBhh(u, []))], [])
  }

  /** The states the parse of `;B[hh];W[ii]` goes through. */
  lemma OutsideStates(u: string -> string)
    ensures var s := Start(false);
      s.(pos := s.pos + 3, calls := s.calls + 1,
         heap := s.heap + [NodeRec(Some(CountingId(s.calls)), map["B" := [u(ValueText("[hh]"))]], None, [])],
         dictionary := Register(s.dictionary, CountingId(s.calls), |s.heap|)) ==
      State(3, 1, [NodeBhh(u, [])], None, [], [])
    ensures OnSemicolon(State(3, 1, [NodeBhh(u, [])], None, [], []), CountingId, None, Some(0)).(pos := 4) == OutsideSecond(u, 4, map[])
    ensures var a := OutsideSecond(u, 4, map[]);
      a.(pos := a.pos + 1, heap := a.heap[1 := a.heap[1].(data := a.heap[1].data["W" := []])]) == OutsideSecond(u, 5, map["W" := []])
    ensures var b := OutsideSecond(u, 5, map["W" := []]);
      b.(pos := b.pos + 1, heap := AddValue(b.heap, 1, "W", u(ValueText("[ii]")))) == OutsideSecond(u, 6, map["W" := [u("ii")]])
  {
    assert ValueText("[hh]") == "hh";
    assert ValueText("[ii]") == "ii";
    var grown := [NodeBhh(u, []), NodeWiiHolding(map[])];
    assert grown[0].children + [1] == [1];
    assert PushChild(grown, 0, 1) == OutsideSecond(u, 4, map[]).heap;
    assert AfterSemicolon([NodeBhh(u, [])], 1, None, Some(0)) == OutsideSecond(u, 4, map[]).heap;
    assert [] + [u("ii")] == [u("ii")];
    assert map["W" := []]["W" := [] + [u("ii")]] == map["W" := [u("ii")]];
  }

  /** `;B[hh];W[ii]`: the first loop builds a chain of two nodes and runs to the end of the input. */
  lemma OutsideScan(u: string -> string)
    ensures Scan(OutsideAGame(), CountingId, u, None, Start(false), None, None, None) ==
            Scanned(OutsideSecond(u, 6, map["W" := [u("ii")]]), Some(0), Some(1), Some((1, "W")), None, false)
  {
    var t := OutsideAGame();
    OutsideAGameTokens();
    CapitalsAreShortCodes();
    OutsideStates(u);
    ScanNewNode(t, CountingId, u, None, Start(false), "B", "[hh]");
    ScanNextSemicolon(t, CountingId, u, None, State(3, 1, [NodeBhh(u, [])], None, [], []), Some(0), 0, Some((0, "B")));
    ScanNewKey(t, CountingId, u, None, OutsideSecond(u, 4, map[]), Some(0), 1, Some((0, "B")), "W");
    ScanValue(t, CountingId, u, None, OutsideSecond(u, 5, map["W" := []]), Some(0), Some(1), 1, "W");
    ScanAtEnd(t, CountingId, u, None, OutsideSecond(u, 6, map["W" := [u("ii")]]), Some(0), Some(1), Some((1, "W")));
  }

  /**
   * `;B[hh];W[ii]` at top level: the chain's first node is the one returned,
   * with the second node as its only child, both reported.
   */
  lemma OutsideCall(u: string -> string)
    ensures ParseFrom(OutsideAGame(), CountingId, u, None, Start(false)) ==
            Call(NodeCreated(OutsideSecond(u, 6, map["W" := [u("ii")]]), 1), Some(0), None)
  {
    var t := OutsideAGame();
    var last := OutsideSecond(u, 6, map["W" := [u("ii")]]);
    OutsideAGameTokens();
    OutsideScan(u);
    ParseFromOpen(t, CountingId, u, None, Start(false), Scanned(last, Some(0), Some(1), Some((1, "W")), None, false));
    VariationsEnd(t, CountingId, u, 1, NodeCreated(last, 1));
    NodeThenVariations(t, CountingId, u, last, Some(0), 1, (NodeCreated(last, 1), None));
  }

  /** The final state of `;B[hh];W[ii]` reads out as the tree of `W[ii]` and both reports. */
  lemma ReadOutOutside(u: string -> string)
    ensures var e := NodeCreated(OutsideSecond(u, 6, map["W" := [u("ii")]]), 1);
      && Parser.Readable(e)
      && Parser.Returned(Call(e, Some(0), None)) == Ok([Node(Some(1), map["W" := [u("ii")]], Some(0), [])])
      && Parser.EffectsOf(e, None).created ==
         [Node(Some(0), map["B" := [u("hh")]], None, []), Node(Some(1), map["W" := [u("ii")]], Some(0), [])]
  {
    var e := NodeCreated(OutsideSecond(u, 6, map["W" := [u("ii")]]), 1);
    assert ChildrenOrdered(e.heap);
    assert TreeAt(e.heap, 1) == Node(Some(1), map["W" := [u("ii")]], Some(0), []);
    assert Forest(e.heap, [1]) == [Node(Some(1), map["W" := [u("ii")]], Some(0), [])];
    assert Forest(e.heap, []) == [];
  }

  /**
   * `;B[hh];W[ii]` through the entry point: `parseTokens` returns the
   * children of the first node, so the result is the tree of `W[ii]` alone,
   * whose parent is node 0, and node 0 with `B` is not part of it.
   */
  method OutsideAGameExample(u: string -> string) returns (result: Result<seq<Node>, ParseError>, effects: Parser.Effects)
    ensures result == Ok([Node(Some(1), map["W" := [u("ii")]], Some(0), [])])
    ensures effects.created == [Node(Some(0), map["B" := [u("hh")]], None, []), Node(Some(1), map["W" := [u("ii")]], Some(0), [])]
  {
    OutsideCall(u);
    ReadOutOutside(u);
    result, effects := Parser.ParseTokens(OutsideAGame(), None, None, u);
  }

  /** `B[hh];W[ii]`, the first input of the repository's test of a game that misses its initial `;`. */
  function MissingFirstSemicolon(): seq<Token> {
    seq(5, (i: nat) => if i == 0 then Ident("B") else if i == 1 then Value("[hh]") else if i == 2 then Semi()
                       else if i == 3 then Ident("W") else Value("[ii]"))
  }

  /** The tokens of `MissingFirstSemicolon`, one by one, and the first that is not an identifier or a value. */
  lemma MissingFirstSemicolonTokens()
    ensures var t := MissingFirstSemicolon();
      && |t| == 5 && t[0] == Ident("B") && t[1] == Value("[hh]") && t[2] == Semi() && t[3] == Ident("W") && t[4] == Value("[ii]")
      && FirstStructural(t, 0) == 2
  {
    var t := MissingFirstSemicolon();
    assert t[0] == Ident("B") && t[1] == Value("[hh]") && t[2] == Semi();
    assert FirstStructural(t, 2) == 2;
    assert FirstStructural(t, 1) == 2;
  }

  /** The one node of `B[hh];W[ii]`, reported or not yet, after the last token. */
  function LoneW(u: string -> string, created: seq<Created>): State {
    State(5, 1, [NodeRec(Some(0), map["W" := [u("ii")]], None, [])], None, created, [])
  }

  /** The states the parse of `B[hh];W[ii]` goes through. */
  lemma MissingSemicolonStates(u: string -> string)
    ensures var s := Start(false).(pos := 2);
      s.(pos := s.pos + 3, calls := s.calls + 1,
         heap := s.heap + [NodeRec(Some(CountingId(s.calls)), map["W" := [u(ValueText("[ii]"))]], None, [])],
         dictionary := Register(s.dictionary, CountingId(s.calls), |s.heap|)) == LoneW(u, [])
    ensures NodeCreated(LoneW(u, []), 0) == LoneW(u, [Created(0, NodeRec(Some(0), map["W" := [u("ii")]], None, []))])
  {
    assert ValueText("[ii]") == "ii";
  }

  /** `B[hh];W[ii]`: the loop drops the orphaned `B[hh]` before the first `;`. */
  lemma MissingSemicolonSkip(u: string -> string)
    ensures Scan(MissingFirstSemicolon(), CountingId, u, None, Start(false), None, None, None) ==
            Scan(MissingFirstSemicolon(), CountingId, u, None, Start(false).(pos := 2), None, None, None)
  {
    MissingFirstSemicolonTokens();
    ScanSkipsOrphans(MissingFirstSemicolon(), CountingId, u, None, Start(false));
  }

  /** `B[hh];W[ii]`: the first loop skips `B[hh]`, builds one node from `;W[ii]` and runs to the end of the input. */
  lemma MissingSemicolonScan(u: string -> string)
    ensures Scan(MissingFirstSemicolon(), CountingId, u, None, Start(false), None, None, None) ==
            Scanned(LoneW(u, []), Some(0), Some(0), Some((0, "W")), None, false)
  {
    var t := MissingFirstSemicolon();
    MissingFirstSemicolonTokens();
    CapitalsAreShortCodes();
    MissingSemicolonStates(u);
    MissingSemicolonSkip(u);
    ScanNewNode(t, CountingId, u, None, Start(false).(pos := 2), "W", "[ii]");
    ScanAtEnd(t, CountingId, u, None, LoneW(u, []), Some(0), Some(0), Some((0, "W")));
  }

  /**
   * `B[hh];W[ii]` at top level: `B[hh]` comes before any node and is
   * dropped; the one node holds `W` and is returned.
   */
  lemma MissingSemicolonCall(u: string -> string)
    ensures ParseFrom(MissingFirstSemicolon(), CountingId, u, None, Start(false)) ==
            Call(LoneW(u, [Created(0, NodeRec(Some(0), map["W" := [u("ii")]], None, []))]), Some(0), None)
  {
    var t := MissingFirstSemicolon();
    var last := LoneW(u, []);
    MissingSemicolonStates(u);
    MissingSemicolonScan(u);
    ParseFromOpen(t, CountingId, u, None, Start(false), Scanned(last, Some(0), Some(0), Some((0, "W")), None, false));
    VariationsEnd(t, CountingId, u, 0, NodeCreated(last, 0));
    NodeThenVariations(t, CountingId, u, last, Some(0), 0, (NodeCreated(last, 0), None));
  }

  /**
   * `B[hh];W[ii]` through the entry point: the one node it builds holds
   * `W` and has no children, so `parseTokens` returns no tree at all.
   */
  method MissingSemicolonExample(u: string -> string) returns (result: Result<seq<Node>, ParseError>, effects: Parser.Effects)
    ensures result == Ok([])
    ensures effects.created == [Node(Some(0), map["W" := [u("ii")]], None, [])]
  {
    MissingSemicolonCall(u);
    var e := LoneW(u, [Created(0, NodeRec(Some(0), map["W" := [u("ii")]], None, []))]);
    assert Parser.Readable(e);
    assert Forest(e.heap, []) == [];
    result, effects := Parser.ParseTokens(MissingFirstSemicolon(), None, None, u);
  }
}
