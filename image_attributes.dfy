/**
 * The HTML attributes of a displayed image: CSS dimensions with the `px`
 * rule, the `style` declarations serialised from an array, the `class`
 * list, and the data-URI test.
 */
module ImageAttributes {
  import opened Php
  import opened Str

  predicate IsDigit(ch: char)
  {
    '0' <= ch <= '9'
  }

  function DotCount(s: string): nat
  {
    if s == [] then 0 else (if s[0] == '.' then 1 else 0) + DotCount(s[1..])
  }

  predicate HasDigit(s: string)
  {
    s != [] && (IsDigit(s[0]) || HasDigit(s[1..]))
  }

  /** A decimal number without sign: digits with at most one decimal point. */
  predicate Unsigned(t: string)
  {
    (forall i :: 0 <= i < |t| ==> IsDigit(t[i]) || t[i] == '.') && DotCount(t) <= 1 && HasDigit(t)
  }

  /** `is_numeric` on the values a dimension receives: integers, and
    * strings holding a signed decimal number. */
  function IsNumeric(v: Val): (r: bool)
    ensures v.Int? ==> r
    ensures !v.Int? && !v.Str? ==> !r
    ensures v.Str? && r ==> HasDigit(v.s)
  {
    match v
    case Int(_) => true
    case Str(s) => Unsigned(if s != [] && (s[0] == '-' || s[0] == '+') then s[1..] else s)
    case _ => false
  }

  /** A dimension as `setWidth` and its siblings store it: a number gets
    * `px` appended, anything else is kept. */
  function Dimension(v: Val): (r: Val)
    ensures IsNumeric(v) ==> r.Str? && EndsWith(r.s, "px") && r.s[..|r.s| - 2] == ScalarString(v)
    ensures !IsNumeric(v) ==> r == v
  {
    if IsNumeric(v) then Str(ScalarString(v) + "px") else v
  }

  /** A stored dimension is never rewritten again: `10px` is not numeric. */
  lemma DimensionIdempotent(v: Val)
    ensures Dimension(Dimension(v)) == Dimension(v)
  {
    if IsNumeric(v) {
      var s := ScalarString(v) + "px";
      var t := if s != [] && (s[0] == '-' || s[0] == '+') then s[1..] else s;
      assert t[|t| - 1] == 'x';
      assert !Unsigned(t);
    }
  }

  /** The text a style value is written as: a list space-joined, any other
    * value as its string. */
  function StyleText(v: Val): string
  {
    if v.Arr? then Join(ValueStrings(Values(v.entries)), " ") else ScalarString(v)
  }

  /** One entry of `parseStyleAttr`: a boolean gives its key or nothing, null
    * gives nothing, any other value a `key: value;` declaration whose value
    * is the HTML-escaped `StyleText`, so that it decodes back to it. */
  function Piece(k: Key, v: Val): (r: string)
    ensures v.Bool? && v.b ==> r == KeyString(k)
    ensures (v.Bool? && !v.b) || v.Null? ==> r == ""
    ensures !v.Bool? && !v.Null? ==>
      StartsWith(r, KeyString(k) + ": ") && EndsWith(r, ";") && |r| >= |KeyString(k)| + 3
      && HtmlUnescape(r[|KeyString(k)| + 2..|r| - 1]) == StyleText(v)
      && forall i :: |KeyString(k)| + 2 <= i < |r| - 1 ==> !IsHtmlSpecial(r[i])
  {
    match v
    case Bool(b) => if b then KeyString(k) else ""
    case Null => ""
    case _ => Declaration(KeyString(k), StyleText(v))
  }

  /** `key: value;` with the value HTML-escaped: nothing special remains
    * between the colon and the semicolon, and what stands there decodes back
    * to the text. */
  function Declaration(key: string, text: string): (r: string)
    ensures |r| >= |key| + 3
    ensures StartsWith(r, key + ": ") && EndsWith(r, ";")
    ensures HtmlUnescape(r[|key| + 2..|r| - 1]) == text
    ensures forall i :: |key| + 2 <= i < |r| - 1 ==> !IsHtmlSpecial(r[i])
    ensures (forall i :: 0 <= i < |text| ==> !IsHtmlSpecial(text[i]) && text[i] != '&') ==> r == key + ": " + text + ";"
  {
    var e := HtmlEscape(text);
    DeclarationShape(key, e);
    HtmlEscapeRoundTrip(text);
    key + ": " + e + ";"
  }

  /** Where the value stands in `key: value;`. */
  lemma DeclarationShape(key: string, e: string)
    ensures var r := key + ": " + e + ";";
      |r| == |key| + 3 + |e| && StartsWith(r, key + ": ") && EndsWith(r, ";") && r[|key| + 2..|r| - 1] == e
      && forall i :: |key| + 2 <= i < |r| - 1 ==> r[i] == e[i - |key| - 2]
  {
    var r := key + ": " + e + ";";
    assert r[..|key + ": "|] == key + ": ";
    assert r[|key| + 2..|r| - 1] == e;
  }

  function ValueStrings(vs: seq<Val>): (r: seq<string>)
    ensures |r| == |vs|
  {
    if vs == [] then [] else [ScalarString(vs[0])] + ValueStrings(vs[1..])
  }

  /** The pieces of `parseStyleAttr`, one per entry, in input order. */
  function Pieces(styles: Dict<Key, Val>): (r: seq<string>)
    ensures |r| == |styles|
    ensures forall i :: 0 <= i < |styles| ==> r[i] == Piece(styles[i].0, styles[i].1)
  {
    if styles == [] then [] else [Piece(styles[0].0, styles[0].1)] + Pieces(styles[1..])
  }

  /** `parseStyleAttr()`: the pieces joined by single spaces. */
  function ParseStyle(styles: Dict<Key, Val>): string
  {
    Join(Pieces(styles), " ")
  }

  /** The serialisation, entry by entry: nothing for no entries, and the
    * first entry's piece leading the rest, one space between. */
  lemma ParseStyleCons(styles: Dict<Key, Val>)
    ensures styles == [] ==> ParseStyle(styles) == ""
    ensures |styles| == 1 ==> ParseStyle(styles) == Piece(styles[0].0, styles[0].1)
    ensures |styles| >= 2 ==> ParseStyle(styles) == Piece(styles[0].0, styles[0].1) + " " + ParseStyle(styles[1..])
  {
    if |styles| >= 2 {
      assert Pieces(styles)[1..] == Pieces(styles[1..]);
    }
  }

  /** Serialising two declaration lists one after the other gives the two
    * serialisations separated by one space: entries keep their order. */
  lemma ParseStyleAppend(a: Dict<Key, Val>, b: Dict<Key, Val>)
    requires a != [] && b != []
    ensures ParseStyle(a + b) == ParseStyle(a) + " " + ParseStyle(b)
  {
    assert Pieces(a + b) == Pieces(a) + Pieces(b);
    JoinAppend(Pieces(a), Pieces(b), " ");
  }

  /** `defaultStyleAttr()`. */
  function DefaultStyle(height: Val, width: Val, maxHeight: Val, maxWidth: Val): Dict<Key, Val>
  {
    [(StrKey("height"), height), (StrKey("width"), width),
     (StrKey("max-height"), maxHeight), (StrKey("max-width"), maxWidth)]
  }

  /** The serialised defaults always hold the three separating spaces, so
    * `setStyleAttr` always appends them. */
  lemma DefaultStyleTruthy(height: Val, width: Val, maxHeight: Val, maxWidth: Val)
    ensures Truthy(Str(ParseStyle(DefaultStyle(height, width, maxHeight, maxWidth))))
  {
    var d := DefaultStyle(height, width, maxHeight, maxWidth);
    var p := Pieces(d);
    assert |p| == 4;
    assert ParseStyle(d) == p[0] + " " + Join(p[1..], " ");
    assert |Join(p[1..], " ")| >= 1 by {
      assert Join(p[1..], " ") == p[1] + " " + Join(p[2..], " ");
    }
    assert |ParseStyle(d)| >= 2;
  }

  /** `setClassAttr()`'s value: a list is space-joined, anything else kept. */
  function ClassList(classes: Val): (r: Val)
    ensures !classes.Arr? ==> r == classes
    ensures classes.Arr? ==> r.Str? && r.s == Join(ValueStrings(Values(classes.entries)), " ")
  {
    if classes.Arr? then Str(Join(ValueStrings(Values(classes.entries)), " ")) else classes
  }

  /** `isDataUri()`: `strpos` finds `data:` at position 0, that is the
    * value opens with the five characters of the scheme. */
  function IsDataUri(s: string): (r: bool)
    ensures r <==> |s| >= 5 && s[0] == 'd' && s[1] == 'a' && s[2] == 't' && s[3] == 'a' && s[4] == ':'
  {
    StartsWith(s, "data:")
  }

  /** Whatever follows the scheme, the value stays a data URI; a value that
    * opens with anything else is none, wherever `data:` appears later. */
  lemma DataUriPrefix(s: string, t: string)
    ensures IsDataUri(s) ==> IsDataUri(s + t)
    ensures s != [] && s[0] != 'd' ==> !IsDataUri(s + "data:" + t)
  {
    if IsDataUri(s) {
      assert (s + t)[..5] == s[..5];
    }
  }

  class Image {
    var classAttr: Val
    var styleAttr: Val
    var width: Val
    var height: Val
    var maxWidth: Val
    var maxHeight: Val

    constructor ()
      ensures classAttr == Null && styleAttr == Null
      ensures width == Str("auto") && height == Str("auto")
      ensures maxWidth == Str("100%") && maxHeight == Str("none")
    {
      classAttr := Null;
      styleAttr := Null;
      width := Str("auto");
      height := Str("auto");
      maxWidth := Str("100%");
      maxHeight := Str("none");
    }

    /** The declarations of the current dimensions. */
    function Defaults(): string
      reads this
    {
      ParseStyle(DefaultStyle(height, width, maxHeight, maxWidth))
    }

    method SetWidth(v: Val)
      modifies this`width
      ensures width == Dimension(v)
    {
      width := if IsNumeric(v) then Str(ScalarString(v) + "px") else v;
    }

    method SetHeight(v: Val)
      modifies this`height
      ensures height == Dimension(v)
    {
      height := if IsNumeric(v) then Str(ScalarString(v) + "px") else v;
    }

    method SetMaxWidth(v: Val)
      modifies this`maxWidth
      ensures maxWidth == Dimension(v)
    {
      maxWidth := if IsNumeric(v) then Str(ScalarString(v) + "px") else v;
    }

    method SetMaxHeight(v: Val)
      modifies this`maxHeight
      ensures maxHeight == Dimension(v)
    {
      maxHeight := if IsNumeric(v) then Str(ScalarString(v) + "px") else v;
    }

    /** `setStyleAttr()`: the given declarations (serialised when an array),
      * one space, then the declarations of the current dimensions. */
    method SetStyleAttr(styles: Val)
      modifies this`styleAttr
      ensures styleAttr == Str((if styles.Arr? then ParseStyle(styles.entries) else ScalarString(styles)) + " " + Defaults())
    {
      var given := if styles.Arr? then Str(ParseStyle(styles.entries)) else styles;
      var defaults := ParseStyle(DefaultStyle(height, width, maxHeight, maxWidth));
      DefaultStyleTruthy(height, width, maxHeight, maxWidth);
      if Truthy(Str(defaults)) {
        given := Str(ScalarString(given) + " " + defaults);
      }
      styleAttr := given;
    }

    /** `styleAttr()`: unset declarations become those of the current
      * dimensions, and stay. */
    method StyleAttr() returns (r: Val)
      modifies this`styleAttr
      ensures r == styleAttr && r != Null
      ensures old(styleAttr) != Null ==> styleAttr == old(styleAttr)
      ensures old(styleAttr) == Null ==> styleAttr == Str(Defaults())
    {
      if styleAttr == Null {
        styleAttr := Str(ParseStyle(DefaultStyle(height, width, maxHeight, maxWidth)));
      }
      r := styleAttr;
    }

    method SetClassAttr(classes: Val)
      modifies this`classAttr
      ensures classAttr == ClassList(classes)
    {
      if classes.Arr? {
        classAttr := Str(Join(ValueStrings(Values(classes.entries)), " "));
      } else {
        classAttr := classes;
      }
    }
  }
}
