/**
 * Property identifier normalisation, the pure computation the tree builder
 * applies to the text of a `prop_ident` token.
 *
 * Upper-casing is modelled on ASCII letters only: every other character is
 * taken to be its own upper-case form.
 */
module Identifiers {

  /** `c.toUpperCase()` for one character. */
  function UpperChar(c: char): char {
    if 'a' <= c <= 'z' then (c as int - 32) as char else c
  }

  /** A character that upper-casing leaves unchanged. */
  predicate CaseInvariant(c: char) {
    UpperChar(c) == c
  }

  /** `s.toUpperCase()`. */
  function Upper(s: string): (u: string)
    ensures |u| == |s|
    ensures forall i :: 0 <= i < |s| ==> u[i] == UpperChar(s[i])
  {
    if s == [] then [] else [UpperChar(s[0])] + Upper(s[1..])
  }

  /** `s.split('').filter(x => x.toUpperCase() === x).join('')`. */
  function KeepInvariant(s: string): (r: string)
    ensures |r| <= |s|
    ensures forall i :: 0 <= i < |r| ==> CaseInvariant(r[i])
  {
    if s == [] then []
    else if CaseInvariant(s[0]) then [s[0]] + KeepInvariant(s[1..])
    else KeepInvariant(s[1..])
  }

  /**
   * The identifier recorded for a `prop_ident` token: the text itself when it
   * is already upper case, otherwise its case-invariant characters.
   */
  function ShortCode(value: string): (identifier: string)
  {
    if value == Upper(value) then value else KeepInvariant(value)
  }

  /** An identifier that can be a key of a node's `data`. */
  predicate IsShortCode(key: string) {
    key != "" && ShortCode(key) == key
  }

  /** Filtering keeps every character when all of them are case invariant. */
  lemma {:induction false} KeepInvariantAll(s: string)
    requires forall i :: 0 <= i < |s| ==> CaseInvariant(s[i])
    ensures KeepInvariant(s) == s
  {
    if s != [] {
      KeepInvariantAll(s[1..]);
    }
  }

  /** Filtering keeps only case-invariant characters, so it keeps all of them only if all are invariant. */
  lemma KeepInvariantAllOnly(s: string)
    requires KeepInvariant(s) == s
    ensures forall i :: 0 <= i < |s| ==> CaseInvariant(s[i])
  {
  }

  /** A string equals its upper-cased form exactly when every character is case invariant. */
  lemma {:induction false} UpperFixed(s: string)
    ensures s == Upper(s) <==> forall i :: 0 <= i < |s| ==> CaseInvariant(s[i])
  {
    if forall i :: 0 <= i < |s| ==> CaseInvariant(s[i]) {
      assert forall i :: 0 <= i < |s| ==> Upper(s)[i] == s[i];
    }
  }

  /**
   * Both branches of the normalisation agree with the filter: the result is
   * always the case-invariant characters of the identifier, in order.
   */
  lemma {:induction false} ShortCodeIsFilter(value: string)
    ensures ShortCode(value) == KeepInvariant(value)
  {
    UpperFixed(value);
    if value == Upper(value) {
      KeepInvariantAll(value);
    }
  }

  /** Normalisation leaves an identifier unchanged exactly when it is already upper case. */
  lemma {:induction false} ShortCodeFixedPoint(value: string)
    ensures ShortCode(value) == value <==> value == Upper(value)
    ensures ShortCode(value) == value <==> forall i :: 0 <= i < |value| ==> CaseInvariant(value[i])
  {
    ShortCodeIsFilter(value);
    UpperFixed(value);
    if ShortCode(value) == value {
      KeepInvariantAllOnly(value);
    }
  }

  /** The result of normalisation is upper case, so normalising twice changes nothing. */
  lemma {:induction false} ShortCodeIdempotent(value: string)
    ensures ShortCode(value) == Upper(ShortCode(value))
    ensures ShortCode(ShortCode(value)) == ShortCode(value)
  {
    var r := ShortCode(value);
    ShortCodeIsFilter(value);
    UpperFixed(r);
  }

  /** An identifier normalises to the empty string exactly when it consists of lower-case letters only. */
  lemma {:induction false} ShortCodeEmpty(value: string)
    ensures ShortCode(value) == "" <==> forall i :: 0 <= i < |value| ==> 'a' <= value[i] <= 'z'
  {
    ShortCodeIsFilter(value);
    KeepInvariantEmpty(value);
  }

  lemma {:induction false} KeepInvariantEmpty(s: string)
    ensures KeepInvariant(s) == "" <==> forall i :: 0 <= i < |s| ==> !CaseInvariant(s[i])
  {
    if s != [] {
      KeepInvariantEmpty(s[1..]);
      assert forall i :: 1 <= i < |s| ==> s[i] == s[1..][i - 1];
    }
  }

  /** The long identifiers of the repository's tests and their short codes. */
  lemma ShortCodeOfCoPyright()
    ensures ShortCode("CoPyright") == "CP"
  {
    ShortCodeIsFilter("CoPyright");
    assert KeepInvariant("right") == "";
    assert KeepInvariant("Pyright") == "P" + KeepInvariant("yright");
    assert KeepInvariant("CoPyright") == "C" + KeepInvariant("Pyright");
  }

  lemma ShortCodeOfWhite()
    ensures ShortCode("White") == "W"
  {
    ShortCodeIsFilter("White");
    assert KeepInvariant("White") == "W";
  }

  lemma ShortCodeOfComment()
    ensures ShortCode("Comment") == "C"
  {
    ShortCodeIsFilter("Comment");
    assert KeepInvariant("Comment") == "C";
  }

  /** An identifier that is already upper case, such as `CA`, is kept unchanged. */
  lemma ShortCodeOfCA()
    ensures ShortCode("CA") == "CA"
  {
    ShortCodeFixedPoint("CA");
    assert CaseInvariant("CA"[0]) && CaseInvariant("CA"[1]);
  }
}
