/** The string operations the source relies on: JavaScript's `trim`, Python's
    `strip` and `replace`, and Python's ordering of strings. */
module Text {

  /** The characters `String.prototype.trim` removes: ECMAScript's WhiteSpace
      (tab, vertical tab, form feed, space, no-break space, the byte-order
      mark and the other space separators) and LineTerminator. */
  predicate JsWhitespace(c: char)
  {
    || c == '\t' || c == '\U{000B}' || c == '\U{000C}' || c == ' '
    || c == '\U{00A0}' || c == '\U{FEFF}' || c == '\U{1680}'
    || ('\U{2000}' <= c <= '\U{200A}')
    || c == '\U{202F}' || c == '\U{205F}' || c == '\U{3000}'
    || c == '\n' || c == '\r' || c == '\U{2028}' || c == '\U{2029}'
  }

  /** The characters Python's `str.strip()` removes (those for which
      `str.isspace` holds). Unlike JavaScript, this includes the information
      separators U+001C..U+001F and U+0085, and excludes the byte-order mark. */
  predicate PyWhitespace(c: char)
  {
    || ('\t' <= c <= '\r')
    || ('\U{001C}' <= c <= ' ')
    || c == '\U{0085}' || c == '\U{00A0}' || c == '\U{1680}'
    || ('\U{2000}' <= c <= '\U{200A}')
    || c == '\U{2028}' || c == '\U{2029}'
    || c == '\U{202F}' || c == '\U{205F}' || c == '\U{3000}'
  }

  /** Drops the leading characters satisfying `ws`. */
  function TrimStart(s: string, ws: char -> bool): (r: string)
    ensures |r| <= |s| && r == s[|s| - |r|..]
    ensures r != [] ==> !ws(r[0])
    ensures forall i :: 0 <= i < |s| - |r| ==> ws(s[i])
  {
    if s != [] && ws(s[0]) then TrimStart(s[1..], ws) else s
  }

  /** Drops the trailing characters satisfying `ws`. */
  function TrimEnd(s: string, ws: char -> bool): (r: string)
    ensures |r| <= |s| && r == s[..|r|]
    ensures r != [] ==> !ws(r[|r| - 1])
    ensures forall i :: |r| <= i < |s| ==> ws(s[i])
  {
    if s != [] && ws(s[|s| - 1]) then TrimEnd(s[..|s| - 1], ws) else s
  }

  /** Drops whitespace at both ends, as `trim()` / `strip()` do: what is
      left neither starts nor ends with whitespace. */
  function Strip(s: string, ws: char -> bool): (r: string)
    ensures |r| <= |s|
    ensures r != [] ==> !ws(r[0]) && !ws(r[|r| - 1])
  {
    TrimEnd(TrimStart(s, ws), ws)
  }

  /** What `Strip` keeps is a slice of `s`, and everything before and after
      that slice is whitespace; with `Strip`'s own contract (the slice
      neither starts nor ends with whitespace) this fixes the result. */
  lemma {:induction false} StripSlice(s: string, ws: char -> bool)
    ensures var r := Strip(s, ws);
      var lo := |s| - |TrimStart(s, ws)|;
      && lo + |r| <= |s| && (forall k :: 0 <= k < |r| ==> r[k] == s[lo + k])
      && (forall i :: 0 <= i < lo ==> ws(s[i]))
      && (forall i :: lo + |r| <= i < |s| ==> ws(s[i]))
  {
    var front := TrimStart(s, ws);
    var r := TrimEnd(front, ws);
    assert Strip(s, ws) == r;
    PrefixOfSuffix(s, front, r, ws);
  }

  /** A prefix `r` of a suffix `front` of `s` is the slice of `s` starting
      where `front` does, and when
      what `r` leaves of `front` is whitespace, so is what follows the slice
      in `s`. */
  lemma PrefixOfSuffix(s: string, front: string, r: string, ws: char -> bool)
    requires |front| <= |s| && front == s[|s| - |front|..]
    requires |r| <= |front| && r == front[..|r|]
    requires forall i :: |r| <= i < |front| ==> ws(front[i])
    ensures var lo := |s| - |front|;
      && (forall k :: 0 <= k < |r| ==> r[k] == s[lo + k])
      && forall i :: lo + |r| <= i < |s| ==> ws(s[i])
  {
    var lo := |s| - |front|;
    forall i | lo + |r| <= i < |s|
      ensures ws(s[i])
    {
      assert s[i] == front[i - lo];
    }
  }

  /** Stripping leaves nothing exactly when every character is whitespace. */
  lemma StripEmptyIff(s: string, ws: char -> bool)
    ensures Strip(s, ws) == [] <==> forall i :: 0 <= i < |s| ==> ws(s[i])
  {
    var front := TrimStart(s, ws);
    var k := |s| - |front|;
    if Strip(s, ws) == [] {
      forall i | 0 <= i < |s| ensures ws(s[i]) {
        if k <= i {
          assert s[i] == front[i - k];
        }
      }
    } else {
      assert front != [] && s[k] == front[0];
    }
  }

  /** Python's `s.replace(c, rep)` for a single-character pattern: every
      occurrence of `c` is replaced by `rep`, everything else is kept. */
  function Replace(s: string, c: char, rep: string): (r: string)
    ensures c !in rep ==> c !in r
    ensures c !in s ==> r == s
  {
    if s == [] then []
    else (if s[0] == c then rep else [s[0]]) + Replace(s[1..], c, rep)
  }

  /** Replacing distributes over concatenation: each part is rewritten on
      its own and the parts stay in order. */
  lemma {:induction false} ReplaceAppend(s1: string, s2: string, c: char, rep: string)
    ensures Replace(s1 + s2, c, rep) == Replace(s1, c, rep) + Replace(s2, c, rep)
  {
    if s1 != [] {
      var head := if s1[0] == c then rep else [s1[0]];
      assert (s1 + s2)[0] == s1[0];
      assert (s1 + s2)[1..] == s1[1..] + s2;
      ReplaceAppend(s1[1..], s2, c, rep);
      assert Replace(s1 + s2, c, rep) == head + Replace(s1[1..] + s2, c, rep);
      assert Replace(s1, c, rep) == head + Replace(s1[1..], c, rep);
    } else {
      assert s1 + s2 == s2;
    }
  }

  /** A single character becomes `rep` when it is `c` and stays otherwise. */
  lemma ReplaceOne(x: char, c: char, rep: string)
    ensures Replace([x], c, rep) == if x == c then rep else [x]
  {
  }

  /** Python's `<=` on strings: lexicographic by code point, a proper prefix
      coming first. */
  predicate LexLe(a: string, b: string)
  {
    a == [] || (b != [] && (a[0] < b[0] || (a[0] == b[0] && LexLe(a[1..], b[1..]))))
  }

  /** Any two strings are comparable, which is what `sorted` relies on. */
  lemma {:induction false} LexLeTotal(a: string, b: string)
    ensures LexLe(a, b) || LexLe(b, a)
  {
    if a != [] && b != [] && a[0] == b[0] {
      LexLeTotal(a[1..], b[1..]);
    }
  }
}
