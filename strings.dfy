/**
 * The string primitives the push logic relies on: the `\w` class of a
 * JavaScript regular expression, `String.prototype.toUpperCase` on ASCII,
 * `getWord` (the first match of `/\w+/`) and the decimal property keys that
 * object spread gives to the characters of a string.
 */
module Strings {
  import opened Wrappers

  /** `\w` of a JavaScript regular expression without the `u` flag: `[A-Za-z0-9_]`. */
  predicate IsWordChar(c: char) {
    ('A' <= c <= 'Z') || ('a' <= c <= 'z') || ('0' <= c <= '9') || c == '_'
  }

  predicate HasWordChar(s: string) {
    exists k :: 0 <= k < |s| && IsWordChar(s[k])
  }

  /** `w` is the first maximal run of word characters of `s`, and it starts at index `i`. */
  predicate IsFirstWordAt(s: string, i: nat, w: string) {
    && w != []
    && i + |w| <= |s|
    && s[i..i + |w|] == w
    && (forall k :: 0 <= k < i ==> !IsWordChar(s[k]))
    && (forall k :: i <= k < i + |w| ==> IsWordChar(s[k]))
    && (i + |w| == |s| || !IsWordChar(s[i + |w|]))
  }

  /** Index of the first word character of `s`, or `|s|` when it has none. */
  function WordStart(s: string): (i: nat)
    ensures i <= |s|
    ensures forall k :: 0 <= k < i ==> !IsWordChar(s[k])
    ensures i < |s| ==> IsWordChar(s[i])
  {
    if s == [] || IsWordChar(s[0]) then 0 else 1 + WordStart(s[1..])
  }

  /** End of the run of word characters that starts at index `i` of `s`. */
  function WordEnd(s: string, i: nat): (j: nat)
    requires i <= |s|
    ensures i <= j <= |s|
    ensures forall k :: i <= k < j ==> IsWordChar(s[k])
    ensures j == |s| || !IsWordChar(s[j])
    decreases |s| - i
  {
    if i < |s| && IsWordChar(s[i]) then WordEnd(s, i + 1) else i
  }

  /**
   * getWord: `str && /\w+/.exec(str)`, then `result && result[0]`.
   * Every falsy outcome (no string, the empty string, no match) is `None`.
   */
  function GetWord(str: Option<string>): (r: Option<string>)
    ensures r.None? <==> str.None? || !HasWordChar(str.value)
    ensures r.Some? ==> IsFirstWordAt(str.value, WordStart(str.value), r.value)
  {
    if str.None? || str.value == "" then None
    else
      var s := str.value;
      var i := WordStart(s);
      if i == |s| then None else Some(s[i..WordEnd(s, i)])
  }

  /** The first maximal run of word characters is determined by the string. */
  lemma FirstWordUnique(s: string, i: nat, w: string, j: nat, v: string)
    requires IsFirstWordAt(s, i, w) && IsFirstWordAt(s, j, v)
    ensures i == j && w == v
  {
    assert IsWordChar(s[i]) && IsWordChar(s[j]);
    assert i == j;
    assert |w| == |v|;
  }

  /** getWord returns exactly the first maximal run of `\w` characters, when there is one. */
  lemma GetWordIsFirstMaximalRun(s: string, w: string)
    ensures GetWord(Some(s)) == Some(w) <==> exists i :: IsFirstWordAt(s, i, w)
  {
    if GetWord(Some(s)) == Some(w) {
      assert IsFirstWordAt(s, WordStart(s), w);
    }
    if i: nat :| IsFirstWordAt(s, i, w) {
      assert HasWordChar(s) by { assert IsWordChar(s[i]); }
      var u := GetWord(Some(s)).value;
      FirstWordUnique(s, i, w, WordStart(s), u);
    }
  }

  /** `toUpperCase` on one character, for the ASCII letters. */
  function UpperChar(c: char): char {
    if 'a' <= c <= 'z' then (c as int - 32) as char else c
  }

  /** `String.prototype.toUpperCase`, restricted to ASCII case mapping. */
  function Upper(s: string): (r: string)
    ensures |r| == |s|
    ensures forall k :: 0 <= k < |s| ==> r[k] == UpperChar(s[k])
  {
    if s == [] then [] else [UpperChar(s[0])] + Upper(s[1..])
  }

  /** `m` spells "get" in any mix of cases. */
  predicate IsGetIgnoringCase(m: string) {
    |m| == 3 && m[0] in "gG" && m[1] in "eE" && m[2] in "tT"
  }

  /** Upper-casing gives "GET" exactly for the case variants of "get". */
  lemma UpperIsGet(m: string)
    ensures Upper(m) == "GET" <==> IsGetIgnoringCase(m)
  {
    var u := Upper(m);
    if IsGetIgnoringCase(m) {
      assert u[0] == 'G' && u[1] == 'E' && u[2] == 'T';
      assert u == "GET";
    }
    if u == "GET" {
      assert UpperChar(m[0]) == 'G' && UpperChar(m[1]) == 'E' && UpperChar(m[2]) == 'T';
    }
  }

  function DigitChar(d: nat): char
    requires d < 10
  {
    ('0' as int + d) as char
  }

  /** The property key JavaScript gives to index `n`: its decimal numeral. */
  function IndexKey(n: nat): (r: string)
    ensures r != []
    ensures forall k :: 0 <= k < |r| ==> '0' <= r[k] <= '9'
    ensures n < 10 <==> |r| == 1
  {
    if n < 10 then [DigitChar(n)] else IndexKey(n / 10) + [DigitChar(n % 10)]
  }

  /** Distinct indices have distinct keys. */
  lemma {:induction false} IndexKeyInjective(a: nat, b: nat)
    requires IndexKey(a) == IndexKey(b)
    ensures a == b
  {
    if a >= 10 && b >= 10 {
      var ka, kb := IndexKey(a), IndexKey(b);
      assert ka == IndexKey(a / 10) + [DigitChar(a % 10)];
      assert kb == IndexKey(b / 10) + [DigitChar(b % 10)];
      assert ka[..|ka| - 1] == IndexKey(a / 10);
      assert kb[..|kb| - 1] == IndexKey(b / 10);
      assert DigitChar(a % 10) == ka[|ka| - 1] == kb[|kb| - 1] == DigitChar(b % 10);
      IndexKeyInjective(a / 10, b / 10);
    }
  }
}
