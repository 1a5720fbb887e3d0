/** The JavaScript string operations the pages rely on: `trim()`, `replace(/\s+/g, '_')`
    and `toUpperCase()`. Strings are sequences of Unicode scalar values. */
module Text {
  import opened Seqs

  /** The characters JavaScript's `trim()` strips and its regular-expression class `\s`
      matches: the ECMAScript WhiteSpace and LineTerminator characters. */
  predicate IsWhitespace(c: char) {
    || c == ' ' || c == '\t' || c == '\n' || c == '\r'
    || c == '\U{000B}' || c == '\U{000C}' || c == '\U{00A0}' || c == '\U{1680}'
    || ('\U{2000}' <= c <= '\U{200A}')
    || c == '\U{2028}' || c == '\U{2029}' || c == '\U{202F}' || c == '\U{205F}'
    || c == '\U{3000}' || c == '\U{FEFF}'
  }

  predicate AllWhitespace(s: string) {
    forall i :: 0 <= i < |s| ==> IsWhitespace(s[i])
  }

  predicate NoWhitespace(s: string) {
    forall i :: 0 <= i < |s| ==> !IsWhitespace(s[i])
  }

  lemma NoWhitespaceConcat(a: string, b: string)
    requires NoWhitespace(a) && NoWhitespace(b)
    ensures NoWhitespace(a + b)
  {
    forall i | 0 <= i < |a + b| ensures !IsWhitespace((a + b)[i]) {
      if i < |a| {
        assert (a + b)[i] == a[i];
      } else {
        assert (a + b)[i] == b[i - |a|];
      }
    }
  }

  /** `trimStart()`: `s` without its leading whitespace. */
  function TrimStart(s: string): (r: string)
    ensures |r| <= |s| && r == s[|s| - |r|..]
    ensures AllWhitespace(s[..|s| - |r|])
    ensures r != [] ==> !IsWhitespace(r[0])
  {
    if s != [] && IsWhitespace(s[0]) then
      var r := TrimStart(s[1..]);
      assert s[..|s| - |r|] == [s[0]] + s[1..][..|s| - 1 - |r|];
      r
    else s
  }

  /** Only a blank string trims to nothing from the start. */
  lemma TrimStartBlank(s: string)
    ensures TrimStart(s) == [] <==> AllWhitespace(s)
  {
    var r := TrimStart(s);
    if r == [] {
      assert s[..|s|] == s;
    } else {
      assert s[|s| - |r|] == r[0];
    }
  }

  /** `trimEnd()`: `s` without its trailing whitespace. */
  function TrimEnd(s: string): (r: string)
    ensures |r| <= |s| && r == s[..|r|]
    ensures AllWhitespace(s[|r|..])
    ensures r != [] ==> !IsWhitespace(r[|r| - 1])
  {
    if s != [] && IsWhitespace(s[|s| - 1]) then TrimEnd(s[..|s| - 1]) else s
  }

  /** `r` is `s` with the blank prefix `s[..k]` and a blank suffix cut off. */
  predicate TrimmedAt(s: string, k: int, r: string) {
    0 <= k <= |s| - |r| && r == s[k..k + |r|] && AllWhitespace(s[..k]) && AllWhitespace(s[k + |r|..])
  }

  /** `trim()`: the longest infix of `s` that neither starts nor ends with whitespace,
      with only whitespace cut off on either side. */
  function Trim(s: string): (r: string)
    ensures exists k :: TrimmedAt(s, k, r)
    ensures r != [] ==> !IsWhitespace(r[0]) && !IsWhitespace(r[|r| - 1])
  {
    var t := TrimStart(s);
    var r := TrimEnd(t);
    TrimParts(s, t, r);
    r
  }

  lemma TrimParts(s: string, t: string, r: string)
    requires |t| <= |s| && t == s[|s| - |t|..] && AllWhitespace(s[..|s| - |t|])
    requires |r| <= |t| && r == t[..|r|] && AllWhitespace(t[|r|..])
    ensures TrimmedAt(s, |s| - |t|, r)
  {
    var k := |s| - |t|;
    assert s[k + |r|..] == t[|r|..];
  }

  /** A string is blank for `!s.trim()` exactly when every character of it is whitespace. */
  lemma TrimEmptyIffBlank(s: string)
    ensures Trim(s) == [] <==> AllWhitespace(s)
  {
    TrimStartBlank(s);
  }

  /** Text that neither starts nor ends with whitespace is its own trim. */
  lemma TrimOfTrimmed(s: string)
    requires s != [] && !IsWhitespace(s[0]) && !IsWhitespace(s[|s| - 1])
    ensures Trim(s) == s
  {
    assert TrimStart(s) == s;
    assert TrimEnd(s) == s;
  }

  /** `s.replace(/\s+/g, '_')`: every maximal run of whitespace becomes one underscore. */
  function CollapseWhitespace(s: string): (r: string)
    ensures NoWhitespace(r)
    ensures |r| <= |s|
    decreases |s|
  {
    if s == [] then []
    else if IsWhitespace(s[0]) then
      var rest := TrimStart(s);
      assert rest != s;
      "_" + CollapseWhitespace(rest)
    else [s[0]] + CollapseWhitespace(s[1..])
  }

  /** Text without whitespace passes through the replacement unchanged. */
  lemma {:induction false} CollapseKeepsPlainText(s: string)
    requires NoWhitespace(s)
    ensures CollapseWhitespace(s) == s
  {
    if s != [] {
      CollapseKeepsPlainText(s[1..]);
    }
  }

  /** A whitespace run of any positive length becomes exactly one underscore. */
  lemma CollapseRun(s: string)
    requires s != [] && AllWhitespace(s)
    ensures CollapseWhitespace(s) == "_"
  {
    TrimStartOfBlank(s, []);
    assert s + [] == s;
  }

  lemma {:induction false} TrimStartAppend(a: string, b: string)
    requires !AllWhitespace(a)
    ensures TrimStart(a + b) == TrimStart(a) + b
  {
    assert a != [];
    if IsWhitespace(a[0]) {
      assert (a + b)[1..] == a[1..] + b;
      assert !AllWhitespace(a[1..]) by {
        var i :| 0 <= i < |a| && !IsWhitespace(a[i]);
        assert a[1..][i - 1] == a[i];
      }
      TrimStartAppend(a[1..], b);
    }
  }

  lemma {:induction false} TrimStartOfBlank(a: string, b: string)
    requires AllWhitespace(a)
    requires b == [] || !IsWhitespace(b[0])
    ensures TrimStart(a + b) == b
  {
    if a != [] {
      assert (a + b)[1..] == a[1..] + b;
      TrimStartOfBlank(a[1..], b);
    } else {
      assert a + b == b;
    }
  }

  /** The replacement works piecewise: splitting a string where no whitespace run is cut
      in two and replacing each piece gives the replacement of the whole. Together with
      CollapseKeepsPlainText and CollapseRun this pins the function down completely. */
  lemma {:induction false} CollapseAppend(a: string, b: string)
    requires a == [] || b == [] || !IsWhitespace(a[|a| - 1]) || !IsWhitespace(b[0])
    ensures CollapseWhitespace(a + b) == CollapseWhitespace(a) + CollapseWhitespace(b)
    decreases |a|, 1
  {
    if a == [] {
      assert a + b == b;
    } else if !IsWhitespace(a[0]) {
      CollapseAppendPlainHead(a, b);
    } else if AllWhitespace(a) {
      CollapseBlankThen(a, b);
    } else {
      CollapseAppendBlankHead(a, b);
    }
  }

  lemma {:induction false} CollapseAppendPlainHead(a: string, b: string)
    requires a != [] && !IsWhitespace(a[0])
    requires b == [] || !IsWhitespace(a[|a| - 1]) || !IsWhitespace(b[0])
    ensures CollapseWhitespace(a + b) == CollapseWhitespace(a) + CollapseWhitespace(b)
    decreases |a|, 0
  {
    var a' := a[1..];
    assert a' == [] || b == [] || !IsWhitespace(a'[|a'| - 1]) || !IsWhitespace(b[0]);
    CollapseAppend(a', b);
    CollapsePlainHead(a, b);
  }

  lemma {:induction false} CollapseAppendBlankHead(a: string, b: string)
    requires a != [] && IsWhitespace(a[0]) && !AllWhitespace(a)
    requires b == [] || !IsWhitespace(a[|a| - 1]) || !IsWhitespace(b[0])
    ensures CollapseWhitespace(a + b) == CollapseWhitespace(a) + CollapseWhitespace(b)
    decreases |a|, 0
  {
    TrimStartAppend(a, b);
    TrimStartKeepsBoundary(a, b);
    var t := TrimStart(a);
    CollapseAppend(t, b);
    CollapseBlankHead(a, b);
    ConcatAssociative("_", CollapseWhitespace(t), CollapseWhitespace(b));
  }

  lemma TrimStartKeepsBoundary(a: string, b: string)
    requires a != [] && IsWhitespace(a[0]) && !AllWhitespace(a)
    requires b == [] || !IsWhitespace(a[|a| - 1]) || !IsWhitespace(b[0])
    ensures var t := TrimStart(a);
      t != [] && |t| < |a| && (b == [] || !IsWhitespace(t[|t| - 1]) || !IsWhitespace(b[0]))
  {
    var t := TrimStart(a);
    TrimStartBlank(a);
    assert t[|t| - 1] == a[|a| - 1];
  }

  lemma CollapsePlainHead(a: string, b: string)
    requires a != [] && !IsWhitespace(a[0])
    ensures CollapseWhitespace(a + b) == [a[0]] + CollapseWhitespace(a[1..] + b)
    ensures CollapseWhitespace(a) == [a[0]] + CollapseWhitespace(a[1..])
  {
    assert (a + b)[1..] == a[1..] + b;
  }

  lemma CollapseBlankHead(a: string, b: string)
    requires a != [] && IsWhitespace(a[0])
    requires TrimStart(a + b) == TrimStart(a) + b
    ensures CollapseWhitespace(a + b) == "_" + CollapseWhitespace(TrimStart(a) + b)
    ensures CollapseWhitespace(a) == "_" + CollapseWhitespace(TrimStart(a))
  {
    assert (a + b)[0] == a[0];
  }

  lemma CollapseBlankThen(a: string, b: string)
    requires a != [] && AllWhitespace(a)
    requires b == [] || !IsWhitespace(b[0])
    ensures CollapseWhitespace(a + b) == "_" + CollapseWhitespace(b)
  {
    TrimStartOfBlank(a, b);
    CollapseRun(a);
    assert (a + b)[0] == a[0];
  }

  /** `toUpperCase()` on one character, for the ASCII letters. */
  function UpperChar(c: char): char {
    if 'a' <= c <= 'z' then (c as int - 32) as char else c
  }

  /** `toUpperCase()`: each character mapped by UpperChar, the length unchanged. */
  function ToUpper(s: string): (r: string)
    ensures |r| == |s|
    ensures forall i :: 0 <= i < |s| ==> r[i] == UpperChar(s[i])
  {
    if s == [] then [] else [UpperChar(s[0])] + ToUpper(s[1..])
  }

  /** Upper-casing twice is upper-casing once, and leaves no lower-case ASCII letter. */
  lemma ToUpperIdempotent(s: string)
    ensures ToUpper(ToUpper(s)) == ToUpper(s)
    ensures forall i :: 0 <= i < |s| ==> !('a' <= ToUpper(s)[i] <= 'z')
  {
    var u := ToUpper(s);
    forall i | 0 <= i < |s| ensures UpperChar(u[i]) == u[i] {
    }
  }
}
