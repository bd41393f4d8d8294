/**
 * The token records the parser consumes.  The tokenizer that produces them
 * is not part of this model: tokens are taken as given records.
 */
module Tokens {

  /** The token types the tokenizer emits, as the strings the parser compares against. */
  const Parenthesis: string := "parenthesis"
  const Semicolon: string := "semicolon"
  const PropIdent: string := "prop_ident"
  const CValueType: string := "c_value_type"

  /**
   * One token: its `type` (any string), its raw text, its 0-based position in
   * the source and the number of source units consumed through its end.
   */
  datatype Token = Token(kind: string, value: string, row: nat, col: nat, progress: nat)

  /** A `(` token: the start of a variation. */
  predicate IsOpen(t: Token) {
    t.kind == Parenthesis && t.value == "("
  }

  /** A `)` token: the end of a variation. */
  predicate IsClose(t: Token) {
    t.kind == Parenthesis && t.value == ")"
  }

  /** A token that belongs to a node's property list: an identifier or a bracketed value. */
  predicate IsPropertyToken(t: Token) {
    t.kind == PropIdent || t.kind == CValueType
  }

  /** A token the flat scan of a sibling chain applies and moves past: a `;`, an identifier or a value. */
  predicate IsChainToken(t: Token) {
    t.kind == Semicolon || IsPropertyToken(t)
  }

  /** A token the flat scan of a sibling chain knows how to handle. */
  predicate Recognised(t: Token) {
    IsOpen(t) || IsClose(t) || IsChainToken(t)
  }

  /** The errors the parse can end with. */
  datatype ParseError =
      /** `Unexpected token type '<type>' at <line>:<column>`, with 1-based line and column. */
    | UnexpectedToken(tokenType: string, line: nat, column: nat)
      /** The top-level chain returned `null` and reading its `children` failed. */
    | NullRoot

  /** The error thrown for an unrecognised token. */
  function UnexpectedAt(t: Token): (e: ParseError)
    ensures e.UnexpectedToken? && e.tokenType == t.kind
    ensures e.line >= 1 && e.line - 1 == t.row && e.column - 1 == t.col
  {
    UnexpectedToken(t.kind, t.row + 1, t.col + 1)
  }

  /**
   * The index of the first token at or after `from` that is not a property
   * token, or `|tokens|` when there is none.  This is the token that decides
   * how a sibling chain begins.
   */
  function FirstStructural(tokens: seq<Token>, from: nat): (q: nat)
    requires from <= |tokens|
    ensures from <= q <= |tokens|
    ensures forall i :: from <= i < q ==> IsPropertyToken(tokens[i])
    ensures q < |tokens| ==> !IsPropertyToken(tokens[q])
    decreases |tokens| - from
  {
    if from == |tokens| || !IsPropertyToken(tokens[from]) then from
    else FirstStructural(tokens, from + 1)
  }

  /**
   * The index of the first token at or after `from` that is not a `;`, an
   * identifier or a value, or `|tokens|` when there is none: where the flat
   * scan of a sibling chain stops.
   */
  function ChainEnd(tokens: seq<Token>, from: nat): (q: nat)
    requires from <= |tokens|
    ensures from <= q <= |tokens|
    decreases |tokens| - from
  {
    if from == |tokens| || !IsChainToken(tokens[from]) then from
    else ChainEnd(tokens, from + 1)
  }

  /** `ChainEnd` is the one index that has only chain tokens before it and none at it. */
  lemma {:induction false} ChainEndIff(tokens: seq<Token>, from: nat, q: nat)
    requires from <= q <= |tokens|
    ensures q == ChainEnd(tokens, from) <==>
      (forall i :: from <= i < q ==> IsChainToken(tokens[i])) && (q < |tokens| ==> !IsChainToken(tokens[q]))
    decreases |tokens| - from
  {
    if from < q {
      ChainEndIff(tokens, from + 1, q);
    } else if from < |tokens| && IsChainToken(tokens[from]) {
      ChainEndIff(tokens, from + 1, ChainEnd(tokens, from + 1));
    }
  }

  /** The number of `semicolon` tokens among `tokens[lo..hi]`. */
  function SemicolonCount(tokens: seq<Token>, lo: nat, hi: nat): nat
    requires lo <= hi <= |tokens|
    decreases hi
  {
    if lo == hi then 0
    else SemicolonCount(tokens, lo, hi - 1) + (if tokens[hi - 1].kind == Semicolon then 1 else 0)
  }

  /**
   * `value.slice(1, -1)`: the text of a bracketed value without its first and
   * last characters; empty when the value is shorter than two characters.
   */
  function ValueText(value: string): (inner: string)
    ensures |value| >= 2 ==> value == [value[0]] + inner + [value[|value| - 1]]
    ensures |value| < 2 ==> inner == ""
  {
    if |value| >= 2 then value[1..|value| - 1] else ""
  }
}
