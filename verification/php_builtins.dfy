/**
 * The PHP builtins the fixture dumper relies on: `strtolower`, `lcfirst`
 * (both byte-wise and ASCII-only, as in PHP 8.2 and later), `implode` and
 * `in_array` on lists of strings.
 */
module PhpBuiltins {

  predicate IsUpper(c: char) {
    'A' <= c <= 'Z'
  }

  /** One character through `strtolower`: only 'A'..'Z' change. */
  function LowerChar(c: char): char {
    if IsUpper(c) then (c as int - 'A' as int + 'a' as int) as char else c
  }

  /** A lower-cased character is never upper case, and only 'A'..'Z' are changed. */
  lemma LowerCharLowers(c: char)
    ensures !IsUpper(LowerChar(c))
    ensures LowerChar(c) == c <==> !IsUpper(c)
  {
  }

  /** PHP `strtolower`. */
  function StrToLower(s: string): (r: string)
    ensures |r| == |s|
  {
    if s == [] then [] else [LowerChar(s[0])] + StrToLower(s[1..])
  }

  /** `strtolower` works character by character. */
  lemma {:induction false} StrToLowerAt(s: string, k: nat)
    requires k < |s|
    ensures StrToLower(s)[k] == LowerChar(s[k])
  {
    if k > 0 {
      StrToLowerAt(s[1..], k - 1);
    }
  }

  lemma {:induction false} StrToLowerIdempotent(s: string)
    ensures StrToLower(StrToLower(s)) == StrToLower(s)
  {
    if s != [] {
      StrToLowerIdempotent(s[1..]);
      assert StrToLower(s)[1..] == StrToLower(s[1..]);
    }
  }

  lemma {:induction false} StrToLowerConcat(a: string, b: string)
    ensures StrToLower(a + b) == StrToLower(a) + StrToLower(b)
  {
    if a != [] {
      assert (a + b)[0] == a[0];
      assert (a + b)[1..] == a[1..] + b;
      StrToLowerConcat(a[1..], b);
      assert StrToLower(a + b) == [LowerChar(a[0])] + StrToLower(a[1..] + b);
    } else {
      assert a + b == b;
    }
  }

  /** PHP `lcfirst`: the first character goes through `strtolower`, the rest is kept. */
  function LcFirst(s: string): (r: string)
    ensures |r| == |s|
    ensures |s| > 0 ==> r[0] == LowerChar(s[0]) && r[1..] == s[1..]
  {
    if s == [] then s else [LowerChar(s[0])] + s[1..]
  }

  predicate EndsWith(s: string, suffix: string) {
    |suffix| <= |s| && s[|s| - |suffix|..] == suffix
  }

  /** PHP `implode(glue, pieces)` for a list array: the pieces in order, `glue` between neighbours. */
  function Implode(glue: string, pieces: seq<string>): (r: string)
    ensures |pieces| == 1 ==> r == pieces[0]
    ensures pieces == [] ==> r == ""
  {
    if |pieces| <= 1 then (if pieces == [] then "" else pieces[0])
    else Implode(glue, pieces[..|pieces| - 1]) + glue + pieces[|pieces| - 1]
  }

  function TotalLength(pieces: seq<string>): nat {
    if pieces == [] then 0 else TotalLength(pieces[..|pieces| - 1]) + |pieces[|pieces| - 1]|
  }

  /** The joined string holds every piece and one glue per gap, nothing more. */
  lemma {:induction false} ImplodeLength(glue: string, pieces: seq<string>)
    requires pieces != []
    ensures |Implode(glue, pieces)| == TotalLength(pieces) + (|pieces| - 1) * |glue|
  {
    var n := |pieces|;
    if n > 1 {
      var init := pieces[..n - 1];
      ImplodeLength(glue, init);
      assert TotalLength(pieces) == TotalLength(init) + |pieces[n - 1]|;
      assert |Implode(glue, pieces)| == |Implode(glue, init)| + |glue| + |pieces[n - 1]|;
      assert (n - 1) * |glue| == (n - 2) * |glue| + |glue|;
    } else {
      assert pieces[..0] == [];
    }
  }

  /** Joining two non-empty runs of pieces is joining each and gluing the results. */
  lemma {:induction false} ImplodeConcat(glue: string, a: seq<string>, b: seq<string>)
    requires a != [] && b != []
    ensures Implode(glue, a + b) == Implode(glue, a) + glue + Implode(glue, b)
  {
    var ab := a + b;
    if |b| == 1 {
      assert ab[..|ab| - 1] == a;
    } else {
      var init := b[..|b| - 1];
      assert ab[..|ab| - 1] == a + init;
      ImplodeConcat(glue, a, init);
    }
  }

  /** The joined string starts with the first piece and ends with the last. */
  lemma {:induction false} ImplodeEnds(glue: string, pieces: seq<string>)
    requires pieces != []
    ensures |pieces[0]| <= |Implode(glue, pieces)|
    ensures Implode(glue, pieces)[..|pieces[0]|] == pieces[0]
    ensures EndsWith(Implode(glue, pieces), pieces[|pieces| - 1])
  {
    if |pieces| > 1 {
      var init := pieces[..|pieces| - 1];
      ImplodeEnds(glue, init);
      var j := Implode(glue, init);
      assert init[0] == pieces[0];
      assert (j + glue + pieces[|pieces| - 1])[..|pieces[0]|] == j[..|pieces[0]|];
    }
  }

  /**
   * PHP `in_array(needle, haystack)` on a list of strings. PHP compares
   * loosely; for strings that are not both numeric that is plain equality.
   */
  function InArray(needle: string, haystack: seq<string>): bool {
    if haystack == [] then false
    else haystack[|haystack| - 1] == needle || InArray(needle, haystack[..|haystack| - 1])
  }

  lemma {:induction false} InArrayMembership(needle: string, haystack: seq<string>)
    ensures InArray(needle, haystack) <==> needle in haystack
  {
    if haystack != [] {
      var init := haystack[..|haystack| - 1];
      InArrayMembership(needle, init);
      assert haystack == init + [haystack[|haystack| - 1]];
    }
  }
}
