/** String primitives of PHP used by the widgets: prefixes and suffixes,
  * `implode`, `explode`, `trim`, `array_unique`, `str_replace`, `ucwords`
  * and `htmlspecialchars`. */
module Str {

  predicate StartsWith(s: string, p: string)
  {
    |p| <= |s| && s[..|p|] == p
  }

  predicate EndsWith(s: string, p: string)
  {
    |p| <= |s| && s[|s| - |p|..] == p
  }

  /** `strpos($s, $sub) !== false`. */
  predicate Contains(s: string, sub: string)
  {
    StartsWith(s, sub) || (s != [] && Contains(s[1..], sub))
  }

  /** `implode($sep, $parts)`. */
  function Join(parts: seq<string>, sep: string): string
  {
    if parts == [] then ""
    else if |parts| == 1 then parts[0]
    else parts[0] + sep + Join(parts[1..], sep)
  }

  /** Joining two non-empty lists is joining each and putting one separator
    * between them. */
  lemma {:induction false} JoinAppend(xs: seq<string>, ys: seq<string>, sep: string)
    requires xs != [] && ys != []
    ensures Join(xs + ys, sep) == Join(xs, sep) + sep + Join(ys, sep)
    decreases |xs|
  {
    if |xs| > 1 {
      assert (xs + ys)[1..] == xs[1..] + ys;
      JoinAppend(xs[1..], ys, sep);
    }
  }

  /** `explode($c, $s)` for a one-character delimiter: the pieces between
    * delimiters, at least one. */
  function Split(s: string, c: char): (parts: seq<string>)
    ensures |parts| >= 1
    ensures forall i :: 0 <= i < |parts| ==> c !in parts[i]
    decreases |s|
  {
    if s == [] then [""]
    else
      var rest := Split(s[1..], c);
      if s[0] == c then [""] + rest
      else [[s[0]] + rest[0]] + rest[1..]
  }

  /** Joining the pieces of `explode` with the delimiter gives back the string. */
  lemma {:induction false} JoinSplit(s: string, c: char)
    ensures Join(Split(s, c), [c]) == s
    decreases |s|
  {
    if s != [] {
      var rest := Split(s[1..], c);
      JoinSplit(s[1..], c);
      if s[0] == c {
        assert Split(s, c) == [""] + rest;
        assert Join([""] + rest, [c]) == "" + [c] + Join(rest, [c]);
        assert s == [s[0]] + s[1..];
      } else {
        var parts := [[s[0]] + rest[0]] + rest[1..];
        if |rest| == 1 {
          assert Join(parts, [c]) == [s[0]] + rest[0];
        } else {
          assert parts[1..] == rest[1..];
          assert Join(rest, [c]) == rest[0] + [c] + Join(rest[1..], [c]);
        }
        assert s == [s[0]] + s[1..];
      }
    }
  }

  /** `explode` is injective on what it splits. */
  lemma SplitInjective(s: string, t: string, c: char)
    requires Split(s, c) == Split(t, c)
    ensures s == t
  {
    JoinSplit(s, c);
    JoinSplit(t, c);
  }

  /** The characters PHP's `trim` removes by default. */
  predicate IsSpace(ch: char)
  {
    ch == ' ' || ch == '\t' || ch == '\n' || ch == '\r' || ch == '\0' || ch == '\U{B}'
  }

  function TrimLeft(s: string): (r: string)
    ensures r == [] || !IsSpace(r[0])
    ensures |r| <= |s| && r == s[|s| - |r|..]
    ensures forall i :: 0 <= i < |s| - |r| ==> IsSpace(s[i])
  {
    if s != [] && IsSpace(s[0]) then TrimLeft(s[1..]) else s
  }

  function TrimRight(s: string): (r: string)
    ensures r == [] || !IsSpace(r[|r| - 1])
    ensures |r| <= |s| && r == s[..|r|]
    ensures forall i :: |r| <= i < |s| ==> IsSpace(s[i])
  {
    if s != [] && IsSpace(s[|s| - 1]) then TrimRight(s[..|s| - 1]) else s
  }

  /** `trim($s)`: no surrounding whitespace is left, and what is removed is
    * whitespace only. */
  function Trim(s: string): (r: string)
    ensures r == [] || (!IsSpace(r[0]) && !IsSpace(r[|r| - 1]))
    ensures r == [] <==> forall i :: 0 <= i < |s| ==> IsSpace(s[i])
    ensures (s == [] || (!IsSpace(s[0]) && !IsSpace(s[|s| - 1]))) ==> r == s
  {
    var l := TrimLeft(s);
    var r := TrimRight(l);
    assert r != [] ==> r[0] == s[|s| - |l|];
    r
  }

  /** `array_unique`: the first occurrence of each value is kept, in order. */
  function Dedup<T(==,!new)>(xs: seq<T>): (r: seq<T>)
    ensures forall x :: x in r <==> x in xs
    ensures forall i, j :: 0 <= i < j < |r| ==> r[i] != r[j]
    ensures |r| <= |xs|
    ensures xs != [] ==> r != [] && r[0] == xs[0]
    decreases |xs|
  {
    if xs == [] then []
    else
      var n := |xs|;
      var d := Dedup(xs[..n - 1]);
      assert forall x :: x in xs <==> x in xs[..n - 1] || x == xs[n - 1];
      assert n > 1 ==> xs[..n - 1][0] == xs[0];
      if xs[n - 1] in d then d else d + [xs[n - 1]]
  }

  /** One more value is kept by `array_unique` exactly when it is new. */
  lemma DedupSnoc<T(!new)>(xs: seq<T>, x: T)
    ensures Dedup(xs + [x]) == if x in Dedup(xs) then Dedup(xs) else Dedup(xs) + [x]
  {
    assert (xs + [x])[..|xs|] == xs;
  }

  /** `str_replace($from, $to, $s)` for one-character needles. */
  function ReplaceChars(s: string, from: set<char>, to: char): (r: string)
    ensures |r| == |s|
    ensures forall i :: 0 <= i < |s| ==> r[i] == if s[i] in from then to else s[i]
  {
    if s == [] then [] else [if s[0] in from then to else s[0]] + ReplaceChars(s[1..], from, to)
  }

  function Upper(ch: char): char
  {
    if 'a' <= ch <= 'z' then (ch as int - 32) as char else ch
  }

  /** The word delimiters of `ucwords`. */
  predicate IsWordBreak(ch: char)
  {
    ch == ' ' || ch == '\t' || ch == '\r' || ch == '\n' || ch == '\U{C}' || ch == '\U{B}'
  }

  /** `ucwords($s)`: the first character and every character after a
    * delimiter is upper-cased, the rest is kept. */
  function UcWords(s: string): (r: string)
    ensures |r| == |s|
    ensures forall i {:trigger r[i]} :: 0 <= i < |s| ==>
      r[i] == if i == 0 || IsWordBreak(s[i - 1]) then Upper(s[i]) else s[i]
  {
    UcWordsFrom(s, true)
  }

  function UcWordsFrom(s: string, atStart: bool): (r: string)
    ensures |r| == |s|
    ensures forall i {:trigger r[i]} :: 0 <= i < |s| ==>
      r[i] == if (i == 0 && atStart) || (i > 0 && IsWordBreak(s[i - 1])) then Upper(s[i]) else s[i]
  {
    if s == [] then []
    else [if atStart then Upper(s[0]) else s[0]] + UcWordsFrom(s[1..], IsWordBreak(s[0]))
  }

  /** `htmlspecialchars($s, ENT_QUOTES)` for one character. */
  function EscapeChar(ch: char): string
  {
    if ch == '&' then "&amp;"
    else if ch == '"' then "&quot;"
    else if ch == '\'' then "&#039;"
    else if ch == '<' then "&lt;"
    else if ch == '>' then "&gt;"
    else [ch]
  }

  predicate IsHtmlSpecial(ch: char)
  {
    ch == '"' || ch == '\'' || ch == '<' || ch == '>'
  }

  /** `htmlspecialchars($s, ENT_QUOTES)`. */
  function HtmlEscape(s: string): (r: string)
    ensures forall i :: 0 <= i < |r| ==> !IsHtmlSpecial(r[i])
    ensures (forall i :: 0 <= i < |s| ==> !IsHtmlSpecial(s[i]) && s[i] != '&') ==> r == s
  {
    if s == [] then [] else EscapeChar(s[0]) + HtmlEscape(s[1..])
  }

  /** `htmlspecialchars_decode($s, ENT_QUOTES)`: the five entities that
    * `HtmlEscape` writes are read back as their characters. */
  function HtmlUnescape(s: string): string
    decreases |s|
  {
    if s == [] then []
    else if s[0] != '&' then [s[0]] + HtmlUnescape(s[1..])
    else if StartsWith(s, "&amp;") then "&" + HtmlUnescape(s[5..])
    else if StartsWith(s, "&quot;") then "\"" + HtmlUnescape(s[6..])
    else if StartsWith(s, "&#039;") then "'" + HtmlUnescape(s[6..])
    else if StartsWith(s, "&lt;") then "<" + HtmlUnescape(s[4..])
    else if StartsWith(s, "&gt;") then ">" + HtmlUnescape(s[4..])
    else [s[0]] + HtmlUnescape(s[1..])
  }

  /** Reading back one entity `ent` that stands for `ch`. */
  lemma UnescapeEntity(ent: string, ch: char, t: string)
    requires ent in ["&amp;", "&quot;", "&#039;", "&lt;", "&gt;"]
    requires ch == (if ent == "&amp;" then '&' else if ent == "&quot;" then '"'
                    else if ent == "&#039;" then '\'' else if ent == "&lt;" then '<' else '>')
    ensures HtmlUnescape(ent + t) == [ch] + HtmlUnescape(t)
  {
    var e := ent + t;
    assert e[..|ent|] == ent && e[|ent|..] == t;
    assert e[0] == '&' && e[1] == ent[1];
    if ent != "&amp;" {
      assert !StartsWith(e, "&amp;");
      if ent != "&quot;" {
        assert !StartsWith(e, "&quot;");
        if ent != "&#039;" {
          assert !StartsWith(e, "&#039;");
          if ent != "&lt;" {
            assert !StartsWith(e, "&lt;");
          }
        }
      }
    }
  }

  lemma UnescapeChar(ch: char, t: string)
    ensures HtmlUnescape(EscapeChar(ch) + t) == [ch] + HtmlUnescape(t)
  {
    if ch == '&' {
      UnescapeEntity("&amp;", ch, t);
    } else if ch == '"' {
      UnescapeEntity("&quot;", ch, t);
    } else if ch == '\'' {
      UnescapeEntity("&#039;", ch, t);
    } else if ch == '<' {
      UnescapeEntity("&lt;", ch, t);
    } else if ch == '>' {
      UnescapeEntity("&gt;", ch, t);
    } else {
      var e := [ch] + t;
      assert e[0] == ch && e[1..] == t;
    }
  }

  /** Escaping loses nothing: decoding the escaped text gives it back. */
  lemma {:induction false} HtmlEscapeRoundTrip(s: string)
    ensures HtmlUnescape(HtmlEscape(s)) == s
  {
    if s != [] {
      UnescapeChar(s[0], HtmlEscape(s[1..]));
      HtmlEscapeRoundTrip(s[1..]);
      assert s == [s[0]] + s[1..];
    }
  }

  /** Byte-wise string order, the order PHP's `strcmp` gives non-numeric
    * strings. */
  predicate LessEq(a: string, b: string)
  {
    a == [] || (b != [] && (a[0] < b[0] || (a[0] == b[0] && LessEq(a[1..], b[1..]))))
  }

  lemma {:induction false} LessEqTotal(a: string, b: string)
    ensures LessEq(a, b) || LessEq(b, a)
  {
    if a != [] && b != [] && a[0] == b[0] {
      LessEqTotal(a[1..], b[1..]);
    }
  }

  lemma {:induction false} LessEqTrans(a: string, b: string, c: string)
    requires LessEq(a, b) && LessEq(b, c)
    ensures LessEq(a, c)
  {
    if a != [] && a[0] == b[0] && b[0] == c[0] {
      LessEqTrans(a[1..], b[1..], c[1..]);
    }
  }

  lemma {:induction false} LessEqAntisym(a: string, b: string)
    requires LessEq(a, b) && LessEq(b, a)
    ensures a == b
  {
    if a != [] {
      LessEqAntisym(a[1..], b[1..]);
      assert a == [a[0]] + a[1..] && b == [b[0]] + b[1..];
    }
  }
}
