/**
 * The translation extraction script: the catalogue of original strings
 * with their translation and context, its CSV rows in both directions, the
 * merge of newly found strings into it, the CSV columns and the locale
 * settings.
 *
 * Files, the regular-expression matching and the console are outside the
 * model: a CSV file is its sequence of rows, and the strings a source file
 * yields are given per file.
 */
module Translate {
  import opened Php

  /** A catalogue entry: `['translation' => …, 'context' => …]`. */
  datatype Entry = Entry(translation: string, context: string)

  /** The catalogue: original string to entry, in insertion order. */
  type Catalogue = Dict<string, Entry>

  /** The original language. */
  const OrigLanguage := "fr"

  /** `translateCSV($data)`: a row of at least three fields is an original
    * with its entry; a shorter row is nothing. */
  function TranslateCSV(data: seq<string>): (r: Option<(string, Entry)>)
    ensures r.None? <==> |data| < 3
    ensures r.Some? ==> r.value == (data[0], Entry(data[1], data[2]))
  {
    if |data| < 3 then None else Some((data[0], Entry(data[1], data[2])))
  }

  /** The row `toCSV` writes for one entry. */
  function Row(orig: string, e: Entry): (r: seq<string>)
    ensures |r| == 3
  {
    [orig, e.translation, e.context]
  }

  /** Reading back a written row gives the original and its entry. */
  lemma TranslateRow(orig: string, e: Entry)
    ensures TranslateCSV(Row(orig, e)) == Some((orig, e))
  {
  }

  /** The loop of `fromCSV` after the header: each decodable row sets its
    * original, so a later row wins over an earlier one. */
  function FromRows(acc: Catalogue, rows: seq<seq<string>>): Catalogue
    decreases |rows|
  {
    if rows == [] then acc
    else
      var t := TranslateCSV(rows[0]);
      FromRows(if t.Some? then Put(acc, t.value.0, t.value.1) else acc, rows[1..])
  }

  /** `fromCSV()` over the rows of the file: the first row holds the column
    * names and is skipped. */
  function FromCSV(rows: seq<seq<string>>): Catalogue
  {
    if rows == [] then [] else FromRows([], rows[1..])
  }

  /** `fromCSV()` with its loop and row counter. */
  method ReadCatalogue(rows: seq<seq<string>>) returns (results: Catalogue)
    ensures results == FromCSV(rows)
  {
    results := [];
    var row := 0;
    while row < |rows|
      invariant 0 <= row <= |rows|
      invariant row == 0 ==> results == []
      invariant row > 0 ==> FromRows(results, rows[row..]) == FromCSV(rows)
    {
      var data := rows[row];
      row := row + 1;
      if row == 1 {
        continue;
      }
      assert rows[row - 1..][1..] == rows[row..];
      var translation := TranslateCSV(data);
      if translation.Some? {
        results := Put(results, translation.value.0, translation.value.1);
      }
    }
    assert rows[row..] == [];
  }

  /** The header of a catalogue file is never read as an entry. */
  lemma FromCSVSkipsHeader(header: seq<string>, h2: seq<string>, rows: seq<seq<string>>)
    ensures FromCSV([header] + rows) == FromCSV([h2] + rows)
  {
    assert ([header] + rows)[1..] == rows == ([h2] + rows)[1..];
  }

  /** An original takes the entry of the last row naming it. */
  lemma {:induction false} FromRowsGet(acc: Catalogue, rows: seq<seq<string>>, k: string)
    ensures Get(FromRows(acc, rows), k) ==
      if exists i :: 0 <= i < |rows| && Names(rows[i], k) then
        Some(EntryOf(rows[LastNaming(rows, k)]))
      else Get(acc, k)
    decreases |rows|
  {
    if rows != [] {
      var t := TranslateCSV(rows[0]);
      var next := if t.Some? then Put(acc, t.value.0, t.value.1) else acc;
      FromRowsGet(next, rows[1..], k);
      if exists i :: 0 <= i < |rows[1..]| && Names(rows[1..][i], k) {
        var i :| 0 <= i < |rows[1..]| && Names(rows[1..][i], k);
        assert Names(rows[i + 1], k);
        LastNamingTail(rows, k);
      } else if exists i :: 0 <= i < |rows| && Names(rows[i], k) {
        LastNamingHead(rows, k);
      }
    }
  }

  /** A row that decodes to original `k`. */
  predicate Names(row: seq<string>, k: string)
  {
    |row| >= 3 && row[0] == k
  }

  function EntryOf(row: seq<string>): Entry
    requires |row| >= 3
  {
    Entry(row[1], row[2])
  }

  /** The position of the last row naming `k`. */
  function LastNaming(rows: seq<seq<string>>, k: string): (i: nat)
    requires exists i :: 0 <= i < |rows| && Names(rows[i], k)
    ensures i < |rows| && Names(rows[i], k)
    ensures forall j :: i < j < |rows| ==> !Names(rows[j], k)
    decreases |rows|
  {
    var n := |rows| - 1;
    if Names(rows[n], k) then n
    else
      assert exists i :: 0 <= i < |rows[..n]| && Names(rows[..n][i], k) by {
        var i :| 0 <= i < |rows| && Names(rows[i], k);
        assert rows[..n][i] == rows[i];
      }
      var i := LastNaming(rows[..n], k);
      assert rows[..n][i] == rows[i];
      i
  }

  lemma LastNamingTail(rows: seq<seq<string>>, k: string)
    requires rows != []
    requires exists i :: 0 <= i < |rows[1..]| && Names(rows[1..][i], k)
    ensures exists i :: 0 <= i < |rows| && Names(rows[i], k)
    ensures rows[LastNaming(rows, k)] == rows[1..][LastNaming(rows[1..], k)]
  {
    var i := LastNaming(rows[1..], k);
    assert Names(rows[i + 1], k);
  }

  lemma LastNamingHead(rows: seq<seq<string>>, k: string)
    requires rows != [] && Names(rows[0], k)
    requires forall i :: 0 <= i < |rows[1..]| ==> !Names(rows[1..][i], k)
    ensures LastNaming(rows, k) == 0
  {
    forall i | 0 < i < |rows|
      ensures !Names(rows[i], k)
    {
      assert rows[1..][i - 1] == rows[i];
    }
    var j := LastNaming(rows, k);
  }

  /** The body rows `toCSV` writes, one per entry in catalogue order. */
  function Rows(t: Catalogue): (r: seq<seq<string>>)
    ensures |r| == |t|
  {
    if t == [] then [] else [Row(t[0].0, t[0].1)] + Rows(t[1..])
  }

  /** `toCSV()`: the column names, then one row per entry. */
  function ToCSV(t: Catalogue, columns: seq<string>): seq<seq<string>>
  {
    [columns] + Rows(t)
  }

  /** Reading back what was written: the rows restore the entries in order
    * after whatever was read before. */
  lemma {:induction false} FromRowsRows(acc: Catalogue, t: Catalogue)
    requires UniqueKeys(acc + t)
    ensures FromRows(acc, Rows(t)) == acc + t
    decreases |t|
  {
    if t != [] {
      var (k, e) := t[0];
      assert k !in Keys(acc) by {
        KeysConcat(acc, t);
        UniqueKeysSplit(acc, t, k);
      }
      PutNew(acc, k, e);
      assert Rows(t)[1..] == Rows(t[1..]);
      assert acc + t == (acc + [(k, e)]) + t[1..];
      FromRowsRows(acc + [(k, e)], t[1..]);
    }
  }

  /** In an array with distinct keys, a key of the second part is not a key
    * of the first. */
  lemma {:induction false} UniqueKeysSplit<V>(a: Dict<string, V>, b: Dict<string, V>, k: string)
    requires UniqueKeys(a + b) && b != [] && k == b[0].0
    ensures k !in Keys(a)
  {
    if a != [] {
      assert (a + b)[1..] == a[1..] + b;
      KeysConcat(a[1..], b);
      KeysConcat(a, b);
      UniqueKeysSplit(a[1..], b, k);
    }
  }

  /** A catalogue written to CSV reads back unchanged. */
  lemma CatalogueRoundTrip(t: Catalogue, columns: seq<string>)
    requires UniqueKeys(t)
    ensures FromCSV(ToCSV(t, columns)) == t
  {
    assert ToCSV(t, columns)[1..] == Rows(t);
    assert [] + t == t;
    FromRowsRows([], t);
  }

  /** The strings found in the files, file by file: each original not yet
    * in the catalogue gets an empty translation and the file as context. */
  function Extract(translations: Catalogue, found: seq<(string, seq<string>)>): Catalogue
    decreases |found|
  {
    if found == [] then translations
    else Extract(AddFound(translations, found[0].0, found[0].1), found[1..])
  }

  /** The strings of one file. */
  function AddFound(translations: Catalogue, file: string, origs: seq<string>): Catalogue
    decreases |origs|
  {
    if origs == [] then translations
    else
      var t := if Get(translations, origs[0]).Some? then translations else Put(translations, origs[0], Entry("", file));
      AddFound(t, file, origs[1..])
  }

  /** The merge never overwrites an entry, and a new string's context is
    * the first file it was found in. */
  lemma {:induction false} AddFoundGet(translations: Catalogue, file: string, origs: seq<string>, k: string)
    ensures Get(AddFound(translations, file, origs), k) ==
      if Get(translations, k).None? && k in origs then Some(Entry("", file)) else Get(translations, k)
    decreases |origs|
  {
    if origs != [] {
      var t := if Get(translations, origs[0]).Some? then translations else Put(translations, origs[0], Entry("", file));
      AddFoundGet(t, file, origs[1..], k);
      assert k in origs <==> k == origs[0] || k in origs[1..];
    }
  }

  /** The index of the first file that yields `k`. */
  function FirstFile(found: seq<(string, seq<string>)>, k: string): (i: nat)
    requires exists i :: 0 <= i < |found| && k in found[i].1
    ensures i < |found| && k in found[i].1
    ensures forall j :: 0 <= j < i ==> k !in found[j].1
    decreases |found|
  {
    if k in found[0].1 then 0
    else
      assert exists i :: 0 <= i < |found[1..]| && k in found[1..][i].1 by {
        var i :| 0 <= i < |found| && k in found[i].1;
        assert found[1..][i - 1] == found[i];
      }
      var i := FirstFile(found[1..], k);
      assert found[1..][i] == found[i + 1];
      forall j | 0 <= j < i + 1 ensures k !in found[j].1 {
        if j > 0 {
          assert found[1..][j - 1] == found[j];
        }
      }
      i + 1
  }

  /** What the extraction loop of `run` promises: entries read from the CSV
    * are kept; a string found for the first time gets an empty translation
    * and the first file containing it as context; nothing else changes. */
  lemma {:induction false} ExtractGet(translations: Catalogue, found: seq<(string, seq<string>)>, k: string)
    ensures Get(Extract(translations, found), k) ==
      if Get(translations, k).None? && exists i :: 0 <= i < |found| && k in found[i].1 then
        Some(Entry("", found[FirstFile(found, k)].0))
      else Get(translations, k)
    decreases |found|
  {
    if found != [] {
      var next := AddFound(translations, found[0].0, found[0].1);
      AddFoundGet(translations, found[0].0, found[0].1, k);
      ExtractGet(next, found[1..], k);
      if Get(translations, k).None? && k !in found[0].1 {
        if exists i :: 0 <= i < |found| && k in found[i].1 {
          var i :| 0 <= i < |found| && k in found[i].1;
          assert found[1..][i - 1] == found[i];
          var j := FirstFile(found[1..], k);
          assert found[1..][j] == found[j + 1];
          FirstFileShift(found, k);
        } else {
          forall i | 0 <= i < |found[1..]| ensures k !in found[1..][i].1 {
            assert found[1..][i] == found[i + 1];
          }
        }
      }
    }
  }

  lemma FirstFileShift(found: seq<(string, seq<string>)>, k: string)
    requires found != [] && k !in found[0].1
    requires exists i :: 0 <= i < |found[1..]| && k in found[1..][i].1
    ensures exists i :: 0 <= i < |found| && k in found[i].1
    ensures FirstFile(found, k) == FirstFile(found[1..], k) + 1
  {
    var i := FirstFile(found[1..], k);
    assert found[1..][i] == found[i + 1];
  }

  /** The extraction loop of `run`, file by file and match by match. */
  method ExtractAll(translations: Catalogue, found: seq<(string, seq<string>)>) returns (r: Catalogue)
    ensures r == Extract(translations, found)
  {
    r := translations;
    var k := 0;
    while k < |found|
      invariant 0 <= k <= |found|
      invariant Extract(r, found[k..]) == Extract(translations, found)
    {
      assert found[k..][1..] == found[k + 1..];
      var (f, matches) := found[k];
      var i := 0;
      ghost var before := r;
      while i < |matches|
        invariant 0 <= i <= |matches|
        invariant AddFound(r, f, matches[i..]) == AddFound(before, f, matches)
      {
        assert matches[i..][1..] == matches[i + 1..];
        var orig := matches[i];
        if Get(r, orig).None? {
          r := Put(r, orig, Entry("", f));
        }
        i := i + 1;
      }
      assert matches[i..] == [];
      k := k + 1;
    }
    assert found[k..] == [];
  }

  /** What a file type selects: the pattern, the file glob and the match
    * group that holds the string. */
  datatype Pattern = Pattern(regex: string, file: string, group: Key)

  const MustachePattern := Pattern("/{{\\s*#\\s*_t\\s*}}((.|\\n|\\r|\\n\\r)*?){{\\s*\\/\\s*_t\\s*}}/i", "*.mustache", IntKey(1))
  const PhpPattern := Pattern("/([^\\d\\wA-Za-z])_t\\(\\s*\\n*\\r*([\"'])(?<text>(.|\\n|\\r|\\n\\r)*?)\\2\\s*\\n*\\r*\\)/i", "*.php", StrKey("text"))

  /** The file type `php` selects the PHP pattern and its named group;
    * every other type, `mustache` included, the Mustache pattern and its
    * first group. */
  function PatternFor(fileType: Val): (r: Pattern)
    ensures fileType == Str("php") <==> r == PhpPattern
    ensures fileType != Str("php") ==> r == MustachePattern && r.group == IntKey(1)
  {
    if fileType == Str("mustache") then MustachePattern
    else if fileType == Str("php") then PhpPattern
    else MustachePattern
  }

  /** `oppositeLanguages()`: the configured languages other than the
    * original one, in configuration order. */
  function OppositeLanguages(languages: Dict<Key, Val>): (r: seq<Key>)
    ensures forall k :: k in r <==> k in Keys(languages) && KeyString(k) != OrigLanguage
    ensures |r| <= |languages|
  {
    if languages == [] then []
    else
      var k := languages[0].0;
      assert Keys(languages) == [k] + Keys(languages[1..]);
      (if KeyString(k) != OrigLanguage then [k] else []) + OppositeLanguages(languages[1..])
  }

  function KeyStrings(ks: seq<Key>): (r: seq<string>)
    ensures |r| == |ks|
    ensures forall i :: 0 <= i < |ks| ==> r[i] == KeyString(ks[i])
  {
    if ks == [] then [] else [KeyString(ks[0])] + KeyStrings(ks[1..])
  }

  /** `columns()`: the original language, the opposite languages, then the
    * context. */
  function Columns(languages: Dict<Key, Val>): (r: seq<string>)
    ensures |r| == |OppositeLanguages(languages)| + 2
    ensures r[0] == OrigLanguage && r[|r| - 1] == "context"
    ensures r[1..|r| - 1] == KeyStrings(OppositeLanguages(languages))
  {
    [OrigLanguage] + KeyStrings(OppositeLanguages(languages)) + ["context"]
  }

  /** The locale settings `locales()` builds from the configuration: the
    * languages (none by default), the catalogue file (the `output`
    * argument by default) and the default language (`fr` by default). */
  function LocalesOf(cfg: Val, outputArg: Val): (r: Val)
    ensures At(r, "languages") == if IsSet(At(cfg, "locales"), "languages") then At(At(cfg, "locales"), "languages") else Arr([])
    ensures At(r, "file") == if IsSet(At(cfg, "locales"), "file") then At(At(cfg, "locales"), "file") else outputArg
    ensures At(r, "default_language") == if IsSet(At(cfg, "locales"), "default_language") then At(At(cfg, "locales"), "default_language") else Str("fr")
  {
    var locales := if IsSet(cfg, "locales") then At(cfg, "locales") else Arr([]);
    var languages := if IsSet(locales, "languages") then At(locales, "languages") else Arr([]);
    var file := if IsSet(locales, "file") then At(locales, "file") else outputArg;
    var default := if IsSet(locales, "default_language") then At(locales, "default_language") else Str("fr");
    var r := Record([("languages", languages), ("file", file), ("default_language", default)]);
    assert r.entries == [(StrKey("languages"), languages), (StrKey("file"), file), (StrKey("default_language"), default)];
    assert r.entries[1..] == [(StrKey("file"), file), (StrKey("default_language"), default)];
    assert r.entries[1..][1..] == [(StrKey("default_language"), default)];
    assert At(r, "file") == Lookup(r.entries[1..], "file") == file;
    assert At(r, "default_language") == Lookup(r.entries[1..], "default_language")
      == Lookup(r.entries[1..][1..], "default_language") == default;
    r
  }

  class TranslateScript {
    var locales: Val
    var output: Val

    constructor ()
      ensures locales == Null && output == Null
    {
      locales := Null;
      output := Null;
    }

    /** `locales()`: computed once, then kept while truthy. */
    method Locales(cfg: Val, outputArg: Val) returns (r: Val)
      modifies this`locales
      ensures r == locales
      ensures Truthy(old(locales)) ==> locales == old(locales)
      ensures !Truthy(old(locales)) ==> locales == LocalesOf(cfg, outputArg)
    {
      if !Truthy(locales) {
        locales := LocalesOf(cfg, outputArg);
      }
      r := locales;
    }

    /** `file()`: the catalogue file, taken once from the locales. */
    method File(cfg: Val, outputArg: Val) returns (r: Val)
      modifies this`locales, this`output
      ensures r == output
      ensures Truthy(old(output)) ==> output == old(output) && locales == old(locales)
      ensures !Truthy(old(output)) ==>
        locales == (if Truthy(old(locales)) then old(locales) else LocalesOf(cfg, outputArg)) &&
        output == At(locales, "file")
      ensures !Truthy(old(output)) && !Truthy(old(locales)) ==>
        output == if IsSet(At(cfg, "locales"), "file") then At(At(cfg, "locales"), "file") else outputArg
    {
      if Truthy(output) {
        return output;
      }
      var l := Locales(cfg, outputArg);
      output := At(l, "file");
      r := output;
    }
  }
}
