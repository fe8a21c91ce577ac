/**
 * The JavaScript string operations the handlers rely on: truthiness of an optional string,
 * `String.prototype.trim`, `toLowerCase` and `replace(pattern, "")` with a string pattern
 * (which replaces the first occurrence only).
 */
module JsText {
  import opened Common

  /** `!!v` for a request field that may be absent: `undefined` and `""` are falsy. */
  predicate Truthy(v: Option<string>) {
    v.Some? && v.value != ""
  }

  /** The white space and line terminators that `trim` removes (ECMAScript WhiteSpace and
      LineTerminator). */
  predicate IsWhitespace(c: char) {
    || c == '\t' || c == '\n' || c == '\U{000B}' || c == '\U{000C}' || c == '\r' || c == ' '
    || c == '\U{00A0}' || c == '\U{1680}' || ('\U{2000}' <= c <= '\U{200A}')
    || c == '\U{2028}' || c == '\U{2029}' || c == '\U{202F}' || c == '\U{205F}'
    || c == '\U{3000}' || c == '\U{FEFF}'
  }

  /** `s` with its leading white space removed. */
  function TrimStart(s: string): (r: string)
    ensures |r| <= |s| && r == s[|s| - |r|..]
    ensures forall i :: 0 <= i < |s| - |r| ==> IsWhitespace(s[i])
    ensures r == [] || !IsWhitespace(r[0])
  {
    if s != [] && IsWhitespace(s[0]) then TrimStart(s[1..]) else s
  }

  /** `s` with its trailing white space removed. */
  function TrimEnd(s: string): (r: string)
    ensures |r| <= |s| && r == s[..|r|]
    ensures forall i :: |r| <= i < |s| ==> IsWhitespace(s[i])
    ensures r == [] || !IsWhitespace(r[|r| - 1])
  {
    if s != [] && IsWhitespace(s[|s| - 1]) then TrimEnd(s[..|s| - 1]) else s
  }

  /** `r` is the slice of `s` starting at `k`, and everything of `s` outside it is white space. */
  predicate StripsWhitespace(s: string, r: string, k: nat) {
    && k + |r| <= |s| && r == s[k..k + |r|]
    && (forall i :: 0 <= i < k ==> IsWhitespace(s[i]))
    && (forall i :: k + |r| <= i < |s| ==> IsWhitespace(s[i]))
  }

  /** `s.trim()`. */
  function Trim(s: string): (r: string)
    ensures r == [] || (!IsWhitespace(r[0]) && !IsWhitespace(r[|r| - 1]))
    ensures exists k: nat :: StripsWhitespace(s, r, k)
  {
    var t := TrimStart(s);
    assert StripsWhitespace(s, TrimEnd(t), |s| - |t|);
    TrimEnd(t)
  }

  /** `v?.trim() === ""`: the field is present and consists of white space only. */
  predicate BlankGiven(v: Option<string>) {
    v.Some? && Trim(v.value) == ""
  }

  /** `toLowerCase` on one character; only the ASCII letters are mapped. */
  function LowerChar(c: char): (r: char)
    ensures 'A' <= c <= 'Z' ==> r as int == c as int + 32
    ensures !('A' <= c <= 'Z') ==> r == c
    ensures !('A' <= r <= 'Z')
  {
    if 'A' <= c <= 'Z' then (c as int + 32) as char else c
  }

  /** `s.toLowerCase()`. */
  function Lower(s: string): (r: string)
    ensures |r| == |s|
  {
    if s == [] then [] else [LowerChar(s[0])] + Lower(s[1..])
  }

  /** `toLowerCase` maps every character on its own. */
  lemma {:induction false} LowerPointwise(s: string)
    ensures forall i :: 0 <= i < |s| ==> Lower(s)[i] == LowerChar(s[i])
  {
    if s != [] {
      LowerPointwise(s[1..]);
    }
  }

  /** The value a Mongoose path declared `lowercase: true, trim: true` stores for `s`. */
  function NormalizeKey(s: string): (r: string)
    ensures |r| == |Trim(s)|
  {
    Lower(Trim(s))
  }

  lemma {:induction false} TrimStartOfBlank(s: string)
    requires forall i :: 0 <= i < |s| ==> IsWhitespace(s[i])
    ensures TrimStart(s) == []
  {
    if s != [] {
      TrimStartOfBlank(s[1..]);
    }
  }

  /** A present field fails the "all fields are required" check exactly when every one of its
      characters is white space (this includes the empty string). */
  lemma TrimIsEmptyIffBlank(s: string)
    ensures Trim(s) == [] <==> forall i :: 0 <= i < |s| ==> IsWhitespace(s[i])
  {
    if forall i :: 0 <= i < |s| ==> IsWhitespace(s[i]) {
      TrimStartOfBlank(s);
    }
  }

  /** Trimming twice is trimming once, so a value stored through the `trim` setter is
      unchanged when it passes through the setter again. */
  lemma TrimIdempotent(s: string)
    ensures Trim(Trim(s)) == Trim(s)
  {
    var r := Trim(s);
    assert TrimStart(r) == r;
    assert TrimEnd(r) == r;
  }

  lemma LowerIdempotent(s: string)
    ensures Lower(Lower(s)) == Lower(s)
  {
    LowerPointwise(s);
    LowerPointwise(Lower(s));
  }

  lemma LowerCharKeepsWhitespace(c: char)
    ensures IsWhitespace(LowerChar(c)) <==> IsWhitespace(c)
  {
  }

  lemma {:induction false} LowerConcat(a: string, b: string)
    ensures Lower(a + b) == Lower(a) + Lower(b)
  {
    LowerPointwise(a + b);
    LowerPointwise(a);
    LowerPointwise(b);
    assert |Lower(a + b)| == |Lower(a) + Lower(b)|;
  }

  lemma {:induction false} TrimStartCommutesWithLower(s: string)
    ensures TrimStart(Lower(s)) == Lower(TrimStart(s))
  {
    if s != [] {
      LowerCharKeepsWhitespace(s[0]);
      assert Lower(s)[0] == LowerChar(s[0]);
      assert Lower(s)[1..] == Lower(s[1..]);
      if IsWhitespace(s[0]) {
        TrimStartCommutesWithLower(s[1..]);
      }
    }
  }

  lemma {:induction false} TrimEndCommutesWithLower(s: string)
    ensures TrimEnd(Lower(s)) == Lower(TrimEnd(s))
  {
    if s != [] {
      var n := |s| - 1;
      LowerCharKeepsWhitespace(s[n]);
      LowerConcat(s[..n], [s[n]]);
      assert s == s[..n] + [s[n]];
      assert Lower(s)[..n] == Lower(s[..n]);
      if IsWhitespace(s[n]) {
        TrimEndCommutesWithLower(s[..n]);
      }
    }
  }

  /** The `lowercase` and `trim` setters commute, so the stored value does not depend on the
      order in which Mongoose applies them. */
  lemma TrimCommutesWithLower(s: string)
    ensures Trim(Lower(s)) == Lower(Trim(s))
  {
    TrimStartCommutesWithLower(s);
    TrimEndCommutesWithLower(TrimStart(s));
  }

  /** Normalizing is idempotent: a stored username or email normalizes to itself. */
  lemma {:induction false} NormalizeKeyIdempotent(s: string)
    ensures NormalizeKey(NormalizeKey(s)) == NormalizeKey(s)
  {
    var t := Trim(s);
    TrimCommutesWithLower(t);
    TrimIdempotent(s);
    LowerIdempotent(t);
  }

  /** A value the `lowercase` and `trim` setters leave as it is: no upper-case ASCII letter and
      no white space at either end. */
  predicate IsKey(s: string) {
    && (forall i :: 0 <= i < |s| ==> !('A' <= s[i] <= 'Z'))
    && (s == [] || (!IsWhitespace(s[0]) && !IsWhitespace(s[|s| - 1])))
  }

  /** What the setters store is a key. */
  lemma NormalizeKeyIsKey(s: string)
    ensures IsKey(NormalizeKey(s))
  {
    var t := Trim(s);
    LowerPointwise(t);
    if t != [] {
      LowerCharKeepsWhitespace(t[0]);
      LowerCharKeepsWhitespace(t[|t| - 1]);
    }
  }

  /** A key passes through the setters unchanged, so the keys are exactly the stored values. */
  lemma KeyIsNormalized(s: string)
    requires IsKey(s)
    ensures NormalizeKey(s) == s
  {
    assert TrimStart(s) == s;
    assert TrimEnd(s) == s;
    LowerPointwise(s);
    assert Lower(s) == s;
  }

  /** `pattern` occurs in `s` at index `i`. */
  predicate OccursAt(s: string, pattern: string, i: nat) {
    i + |pattern| <= |s| && s[i..i + |pattern|] == pattern
  }

  /** `s.indexOf(pattern, from)`, or `None` for -1. */
  function IndexOfFrom(s: string, pattern: string, from: nat): (r: Option<nat>)
    ensures r.Some? ==> from <= r.value && OccursAt(s, pattern, r.value)
    ensures r.Some? ==> forall j :: from <= j < r.value ==> !OccursAt(s, pattern, j)
    ensures r.None? ==> forall j :: from <= j ==> !OccursAt(s, pattern, j)
    decreases |s| - from
  {
    if from + |pattern| > |s| then None
    else if OccursAt(s, pattern, from) then Some(from)
    else IndexOfFrom(s, pattern, from + 1)
  }

  /** `s.replace(pattern, "")` with a string pattern: the first occurrence is removed. */
  function RemoveFirst(s: string, pattern: string): (r: string)
    ensures (forall j :: !OccursAt(s, pattern, j)) ==> r == s
    ensures forall i: nat ::
              OccursAt(s, pattern, i) && (forall j: nat :: j < i ==> !OccursAt(s, pattern, j))
              ==> r == s[..i] + s[i + |pattern|..]
  {
    match IndexOfFrom(s, pattern, 0)
    case None => s
    case Some(i) => s[..i] + s[i + |pattern|..]
  }

  /** A header of the form `"Bearer " + t` loses exactly its prefix. */
  lemma RemoveFirstPrefix(pattern: string, t: string)
    ensures RemoveFirst(pattern + t, pattern) == t
  {
    assert OccursAt(pattern + t, pattern, 0);
  }
}
