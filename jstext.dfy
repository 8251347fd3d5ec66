/**
  The JavaScript string built-ins that the formatter relies on, stated over
  `string` (= `seq<char>`): `split` on a one-character separator,
  `Array.prototype.join`, `trim`, the `\s` character class, `charAt`,
  `startsWith`, and ASCII-only `toUpperCase` / `toLowerCase`.
 */
module JsText {

  // ---------------------------------------------------------------------------
  // Characters
  // ---------------------------------------------------------------------------

  /** The characters JavaScript's `trim` removes and `\s` matches:
      WhiteSpace and LineTerminator code points. */
  predicate IsWhitespace(c: char) {
    c == ' ' || c == '\t' || c == '\n' || c == '\r' || c == '\U{000B}' || c == '\U{000C}'
    || c == '\U{00A0}' || c == '\U{1680}' || ('\U{2000}' <= c <= '\U{200A}')
    || c == '\U{2028}' || c == '\U{2029}' || c == '\U{202F}' || c == '\U{205F}'
    || c == '\U{3000}' || c == '\U{FEFF}'
  }

  predicate IsLowerAscii(c: char) { 'a' <= c <= 'z' }
  predicate IsUpperAscii(c: char) { 'A' <= c <= 'Z' }

  function ToUpperChar(c: char): char {
    if IsLowerAscii(c) then (c as int - 32) as char else c
  }

  function ToLowerChar(c: char): char {
    if IsUpperAscii(c) then (c as int + 32) as char else c
  }

  /** `toUpperCase`, restricted to ASCII letters. */
  function ToUpper(s: string): (r: string)
    ensures |r| == |s|
  {
    if |s| == 0 then [] else [ToUpperChar(s[0])] + ToUpper(s[1..])
  }

  lemma {:induction false} ToUpperPontual(s: string)
    ensures forall i :: 0 <= i < |s| ==> ToUpper(s)[i] == ToUpperChar(s[i])
  {
    if |s| > 0 {
      ToUpperPontual(s[1..]);
    }
  }

  /** `toLowerCase`, restricted to ASCII letters. */
  function ToLower(s: string): (r: string)
    ensures |r| == |s|
  {
    if |s| == 0 then [] else [ToLowerChar(s[0])] + ToLower(s[1..])
  }

  lemma {:induction false} ToLowerPontual(s: string)
    ensures forall i :: 0 <= i < |s| ==> ToLower(s)[i] == ToLowerChar(s[i])
  {
    if |s| > 0 {
      ToLowerPontual(s[1..]);
    }
  }

  lemma ToLowerAppend(a: string, b: string)
    ensures ToLower(a + b) == ToLower(a) + ToLower(b)
  {
    ToLowerPontual(a);
    ToLowerPontual(b);
    ToLowerPontual(a + b);
  }

  /** `charAt(i)`: the one-character string at `i`, or "" out of range. */
  function CharAt(s: string, i: int): (r: string)
    ensures 0 <= i < |s| ==> r == [s[i]]
    ensures !(0 <= i < |s|) ==> r == ""
  {
    if 0 <= i < |s| then [s[i]] else ""
  }

  predicate StartsWith(s: string, prefix: string) {
    prefix <= s
  }

  predicate EndsWith(s: string, suffix: string) {
    |suffix| <= |s| && s[|s| - |suffix|..] == suffix
  }

  /** `a + b` starts with `a`. */
  lemma StartsWithConcat(a: string, b: string)
    ensures StartsWith(a + b, a)
  {
    assert (a + b)[..|a|] == a;
  }

  /** A prefix of a prefix is a prefix. */
  lemma StartsWithTransitivo(s: string, u: string, v: string)
    requires StartsWith(s, u) && StartsWith(u, v)
    ensures StartsWith(s, v)
  {
  }

  /** A suffix of a suffix is a suffix. */
  lemma EndsWithTransitivo(s: string, u: string, v: string)
    requires EndsWith(s, u) && EndsWith(u, v)
    ensures EndsWith(s, v)
  {
    assert s[|s| - |v|..] == u[|u| - |v|..];
  }

  /** `a + b` ends with `b`, and with `a`'s last character followed by `b`. */
  lemma EndsWithConcat(a: string, b: string)
    ensures EndsWith(a + b, b)
    ensures |a| > 0 ==> EndsWith(a + b, [a[|a| - 1]] + b)
  {
    if |a| > 0 {
      assert (a + b)[|a| - 1..] == [a[|a| - 1]] + b;
    }
  }

  /** Number of occurrences of `c` in `s`. */
  function Count(s: string, c: char): nat {
    if |s| == 0 then 0 else (if s[0] == c then 1 else 0) + Count(s[1..], c)
  }

  lemma {:induction false} CountAppend(a: string, b: string, c: char)
    ensures Count(a + b, c) == Count(a, c) + Count(b, c)
  {
    if |a| > 0 {
      assert (a + b)[1..] == a[1..] + b;
      CountAppend(a[1..], b, c);
    } else {
      assert a + b == b;
    }
  }

  lemma {:induction false} CountAbsent(s: string, c: char)
    requires c !in s
    ensures Count(s, c) == 0
  {
    if |s| > 0 {
      CountAbsent(s[1..], c);
    }
  }

  // ---------------------------------------------------------------------------
  // Array.prototype.join
  // ---------------------------------------------------------------------------

  /** `parts.join(sep)`: "" for no parts, the only part for one. */
  function Join(parts: seq<string>, sep: string): (s: string)
    ensures |parts| == 0 ==> s == ""
  {
    if |parts| == 0 then ""
    else if |parts| == 1 then parts[0]
    else parts[0] + sep + Join(parts[1..], sep)
  }

  /** Joining one more part at the end adds the separator and the part. */
  lemma {:induction false} JoinSnoc(parts: seq<string>, x: string, sep: string)
    requires |parts| > 0
    ensures Join(parts + [x], sep) == Join(parts, sep) + sep + x
  {
    if |parts| == 1 {
      assert (parts + [x])[1..] == [x];
    } else {
      assert (parts + [x])[1..] == parts[1..] + [x];
      JoinSnoc(parts[1..], x, sep);
    }
  }

  /** Join of a concatenation of two non-empty lists. */
  lemma {:induction false} JoinAppend(a: seq<string>, b: seq<string>, sep: string)
    requires |a| > 0 && |b| > 0
    ensures Join(a + b, sep) == Join(a, sep) + sep + Join(b, sep)
  {
    if |a| == 1 {
      assert (a + b)[1..] == b;
    } else {
      assert (a + b)[1..] == a[1..] + b;
      JoinAppend(a[1..], b, sep);
    }
  }

  /** A join of one or more parts starts with the first part. */
  lemma JoinComecaPrimeira(parts: seq<string>, sep: string)
    requires |parts| > 0
    ensures StartsWith(Join(parts, sep), parts[0])
  {
    if |parts| > 1 {
      var resto := sep + Join(parts[1..], sep);
      assert Join(parts, sep) == parts[0] + resto;
      assert (parts[0] + resto)[..|parts[0]|] == parts[0];
    }
  }

  /** The first two parts of a join, with the separator between them. */
  lemma JoinStartsWithTwo(parts: seq<string>, sep: string)
    requires |parts| >= 2
    ensures StartsWith(Join(parts, sep), parts[0] + sep + parts[1])
  {
    assert Join(parts, sep) == parts[0] + sep + Join(parts[1..], sep);
    assert StartsWith(Join(parts[1..], sep), parts[1]);
  }

  /** The last part of a join of two or more parts follows a separator. */
  lemma JoinEndsWithSepLast(parts: seq<string>, sep: string)
    requires |parts| >= 2
    ensures EndsWith(Join(parts, sep), sep + parts[|parts| - 1])
  {
    var n := |parts|;
    var init := parts[..n - 1];
    var last := parts[n - 1];
    var pre := Join(init, sep);
    assert Join(parts, sep) == pre + (sep + last) by {
      assert parts == init + [last];
      JoinSnoc(init, last, sep);
    }
    EndsWithConcat(pre, sep + last);
  }

  /** A prefix on the first part is a prefix of the join. */
  lemma JoinPrefixoPrimeira(p: string, x: string, rest: seq<string>, sep: string)
    ensures Join([p + x] + rest, sep) == p + Join([x] + rest, sep)
  {
    if |rest| > 0 {
      assert ([p + x] + rest)[1..] == rest;
      assert ([x] + rest)[1..] == rest;
    }
  }

  /** Lower-casing commutes with joining. */
  lemma {:induction false} ToLowerJoin(parts: seq<string>, lowered: seq<string>, sep: string)
    requires |lowered| == |parts|
    requires forall i :: 0 <= i < |parts| ==> lowered[i] == ToLower(parts[i])
    ensures ToLower(Join(parts, sep)) == Join(lowered, ToLower(sep))
  {
    if |parts| > 1 {
      ToLowerJoin(parts[1..], lowered[1..], sep);
      ToLowerAppend(parts[0] + sep, Join(parts[1..], sep));
      ToLowerAppend(parts[0], sep);
    }
  }

  /** Counting a character over a join whose parts never contain it and
      whose separator holds it exactly once. */
  lemma {:induction false} CountJoin(parts: seq<string>, sep: string, c: char)
    requires |parts| > 0
    requires Count(sep, c) == 1
    requires forall i :: 0 <= i < |parts| ==> c !in parts[i]
    ensures Count(Join(parts, sep), c) == |parts| - 1
  {
    CountAbsent(parts[0], c);
    if |parts| > 1 {
      CountJoin(parts[1..], sep, c);
      CountAppend(parts[0] + sep, Join(parts[1..], sep), c);
      CountAppend(parts[0], sep, c);
    }
  }

  // ---------------------------------------------------------------------------
  // String.prototype.split with a one-character separator
  // ---------------------------------------------------------------------------

  /** `s.split(sep)` for a one-character `sep`: never empty ("" gives [""]),
      one more piece than there are separators, and no piece holds `sep`. */
  function Split(s: string, sep: char): (parts: seq<string>)
    ensures |parts| == Count(s, sep) + 1
  {
    if |s| == 0 then [""]
    else
      var rest := Split(s[1..], sep);
      if s[0] == sep then [""] + rest
      else [[s[0]] + rest[0]] + rest[1..]
  }

  /** No piece of a split holds the separator. */
  lemma {:induction false} SplitSemSeparador(s: string, sep: char)
    ensures forall i :: 0 <= i < |Split(s, sep)| ==> sep !in Split(s, sep)[i]
  {
    if |s| > 0 {
      SplitSemSeparador(s[1..], sep);
      var rest := Split(s[1..], sep);
      if s[0] != sep {
        assert sep !in [s[0]] + rest[0];
      }
    }
  }

  /** Split then join with the same separator gives back the input. */
  lemma {:induction false} JoinSplit(s: string, sep: char)
    ensures Join(Split(s, sep), [sep]) == s
  {
    if |s| > 0 {
      var rest := Split(s[1..], sep);
      JoinSplit(s[1..], sep);
      var parts := Split(s, sep);
      if s[0] == sep {
        assert parts[1..] == rest;
        assert s == [sep] + s[1..];
      } else if |rest| == 1 {
        assert parts == [[s[0]] + rest[0]];
        assert s == [s[0]] + s[1..];
      } else {
        assert parts[1..] == rest[1..];
        assert Join(rest, [sep]) == rest[0] + [sep] + Join(rest[1..], [sep]);
        assert s == [s[0]] + s[1..];
      }
    }
  }

  /** Join then split gives back the parts when no part holds the separator. */
  lemma {:induction false} SplitJoin(parts: seq<string>, sep: char)
    requires |parts| > 0
    requires forall i :: 0 <= i < |parts| ==> sep !in parts[i]
    ensures Split(Join(parts, [sep]), sep) == parts
  {
    if |parts| == 1 {
      SplitNoSep(parts[0], sep);
    } else {
      SplitJoin(parts[1..], sep);
      var tail := Join(parts[1..], [sep]);
      var r := Split([sep] + tail, sep);
      assert r == [""] + parts[1..] by {
        assert ([sep] + tail)[1..] == tail;
      }
      SplitPrefix(parts[0], [sep] + tail, sep);
      assert Join(parts, [sep]) == parts[0] + ([sep] + tail);
      assert parts[0] + r[0] == parts[0];
      assert [parts[0]] + parts[1..] == parts;
    }
  }

  /** A string without the separator splits into itself alone. */
  lemma {:induction false} SplitNoSep(s: string, sep: char)
    requires sep !in s
    ensures Split(s, sep) == [s]
  {
    if |s| > 0 {
      SplitNoSep(s[1..], sep);
      assert [s[0]] + s[1..] == s;
    }
  }

  /** A separator-free prefix is glued onto the first piece. */
  lemma {:induction false} SplitPrefix(p: string, t: string, sep: char)
    requires sep !in p
    ensures var r := Split(t, sep); Split(p + t, sep) == [p + r[0]] + r[1..]
  {
    var r := Split(t, sep);
    if |p| > 0 {
      var q := Split(p[1..] + t, sep);
      assert q[0] == p[1..] + r[0] && q[1..] == r[1..] by {
        SplitPrefix(p[1..], t, sep);
      }
      assert Split(p + t, sep) == [[p[0]] + q[0]] + q[1..] by {
        assert (p + t)[1..] == p[1..] + t;
        assert (p + t)[0] == p[0] && p[0] != sep;
      }
      assert [p[0]] + (p[1..] + r[0]) == p + r[0];
    } else {
      assert p + t == t;
      assert p + r[0] == r[0];
      assert [r[0]] + r[1..] == r;
    }
  }

  // ---------------------------------------------------------------------------
  // trim
  // ---------------------------------------------------------------------------

  /** `trimStart`: the suffix left after dropping all leading whitespace. */
  function TrimStart(s: string): (r: string)
    ensures |r| <= |s| && r == s[|s| - |r|..]
    ensures r == [] || !IsWhitespace(r[0])
    ensures forall i :: 0 <= i < |s| - |r| ==> IsWhitespace(s[i])
  {
    if |s| > 0 && IsWhitespace(s[0]) then TrimStart(s[1..]) else s
  }

  /** `trimEnd`: the prefix left after dropping all trailing whitespace. */
  function TrimEnd(s: string): (r: string)
    ensures |r| <= |s| && r == s[..|r|]
    ensures r == [] || !IsWhitespace(r[|r| - 1])
    ensures forall i :: |r| <= i < |s| ==> IsWhitespace(s[i])
  {
    if |s| > 0 && IsWhitespace(s[|s| - 1]) then TrimEnd(s[..|s| - 1]) else s
  }

  /** `trim`: a slice of the input with no whitespace at either end. */
  function Trim(s: string): (r: string)
    ensures |r| <= |s|
    ensures r == [] || (!IsWhitespace(r[0]) && !IsWhitespace(r[|r| - 1]))
  {
    TrimEnd(TrimStart(s))
  }

  /** `trim` only removes characters: whatever it keeps was in the input. */
  lemma TrimMantemCaracteres(s: string, c: char)
    ensures c in Trim(s) ==> c in s
  {
    var t := TrimStart(s);
    var r := TrimEnd(t);
    if c in r {
      var k :| 0 <= k < |r| && r[k] == c;
      assert r[k] == s[|s| - |t| + k];
    }
  }

  /** `trim` gives "" exactly for an all-whitespace input. */
  lemma TrimVazio(s: string)
    ensures (forall i :: 0 <= i < |s| ==> IsWhitespace(s[i])) <==> Trim(s) == []
  {
    var t := TrimStart(s);
    if t != [] {
      assert !IsWhitespace(s[|s| - |t|]);
    }
  }

  /** Trimming a string that has no whitespace at either end changes nothing,
      and leading blanks are absorbed. */
  lemma TrimOfTrimmed(s: string)
    requires s == [] || (!IsWhitespace(s[0]) && !IsWhitespace(s[|s| - 1]))
    ensures Trim(s) == s
  {
  }

  lemma TrimLeadingSpace(s: string)
    ensures Trim(" " + s) == Trim(s)
  {
    assert TrimStart(" " + s) == TrimStart(s) by {
      assert (" " + s)[1..] == s;
    }
  }

  // ---------------------------------------------------------------------------
  // split(/\s+/)
  // ---------------------------------------------------------------------------

  /** `s.split(/\s+/)`: the pieces between maximal runs of whitespace. */
  function SplitWhitespaceRuns(s: string): (parts: seq<string>)
    ensures |parts| >= 1
    ensures forall i, c :: 0 <= i < |parts| && c in parts[i] ==> !IsWhitespace(c)
    decreases |s|
  {
    if |s| == 0 then [""]
    else if IsWhitespace(s[0]) then [""] + SplitWhitespaceRuns(TrimStart(s))
    else
      var rest := SplitWhitespaceRuns(s[1..]);
      [[s[0]] + rest[0]] + rest[1..]
  }

  /** On a trimmed non-empty string every piece is a non-empty word. */
  lemma {:induction false} SplitWhitespaceRunsWords(s: string)
    requires |s| > 0 && !IsWhitespace(s[0]) && !IsWhitespace(s[|s| - 1])
    ensures forall i :: 0 <= i < |SplitWhitespaceRuns(s)| ==> SplitWhitespaceRuns(s)[i] != ""
    decreases |s|
  {
    var rest := SplitWhitespaceRuns(s[1..]);
    if |s| > 1 {
      if IsWhitespace(s[1]) {
        var t := TrimStart(s[1..]);
        assert t != [] by {
          assert !IsWhitespace(s[1..][|s| - 2]);
        }
        assert t[|t| - 1] == s[|s| - 1];
        SplitWhitespaceRunsWords(t);
        assert rest == [""] + SplitWhitespaceRuns(t);
      } else {
        SplitWhitespaceRunsWords(s[1..]);
      }
    }
  }
}
