/** Start-up seeding (`services.SeedService`): areas read from `areas.csv` are inserted when no
    area of that name exists; the default flavour levels and sizes are inserted into empty
    tables only. The file is the sequence of its lines (`None` when it is found nowhere), the
    tables are sequences of rows, and `Double.parseDouble` is the partial function `parseFee`
    giving cents. */
module SeedService {
  import opened Common
  import opened JavaString
  import opened Entities

  // ----- String.split(";") -----

  /** The fields of `s` between the separators, empty ones included (`split` with limit -1). */
  function Fields(s: string, sep: char): (r: seq<string>)
    ensures |r| >= 1
    ensures forall i :: 0 <= i < |r| ==> sep !in r[i]
    decreases |s|
  {
    if s == [] then [[]]
    else if s[0] == sep then [[]] + Fields(s[1..], sep)
    else
      var rest := Fields(s[1..], sep);
      [[s[0]] + rest[0]] + rest[1..]
  }

  /** The fields put back together with the separator between them. */
  function Join(fs: seq<string>, sep: char): string
    requires |fs| >= 1
    decreases |fs|
  {
    if |fs| == 1 then fs[0] else fs[0] + [sep] + Join(fs[1..], sep)
  }

  function DropTrailingEmpty(fs: seq<string>): (r: seq<string>)
    ensures |r| <= |fs| && r == fs[..|r|]
    ensures r != [] ==> r[|r| - 1] != []
    decreases |fs|
  {
    if fs != [] && fs[|fs| - 1] == [] then DropTrailingEmpty(fs[..|fs| - 1]) else fs
  }

  /** `s.split(String.valueOf(sep))` with limit 0: no separator gives `s` itself; otherwise
      the fields, with the empty ones at the end removed. */
  function JavaSplit(s: string, sep: char): (parts: seq<string>)
    ensures forall i :: 0 <= i < |parts| ==> sep !in parts[i]
  {
    if sep !in s then [s] else DropTrailingEmpty(Fields(s, sep))
  }

  /** Splitting loses nothing: the fields joined with the separator are the string again. */
  lemma {:induction false} FieldsJoin(s: string, sep: char)
    ensures Join(Fields(s, sep), sep) == s
    decreases |s|
  {
    if s != [] {
      var rest := Fields(s[1..], sep);
      FieldsJoin(s[1..], sep);
      if s[0] == sep {
        assert ([[]] + rest)[1..] == rest;
      } else if |rest| > 1 {
        assert ([[s[0]] + rest[0]] + rest[1..])[1..] == rest[1..];
      }
    }
  }

  lemma {:induction false} FieldsOfPlain(s: string, sep: char)
    requires sep !in s
    ensures Fields(s, sep) == [s]
    decreases |s|
  {
    if s != [] {
      assert s[0] in s && [s[0]] + s[1..] == s;
      assert sep !in s[1..] by {
        forall i | 0 <= i < |s[1..]| ensures s[1..][i] != sep { assert s[1..][i] == s[i + 1]; }
      }
      FieldsOfPlain(s[1..], sep);
    }
  }

  lemma {:induction false} FieldsAfterPlain(a: string, sep: char, rest: string)
    requires sep !in a
    ensures Fields(a + [sep] + rest, sep) == [a] + Fields(rest, sep)
    decreases |a|
  {
    var s := a + [sep] + rest;
    if a == [] {
      assert s[0] == sep && s[1..] == rest;
    } else {
      assert s[0] == a[0] && a[0] in a;
      assert s[1..] == a[1..] + [sep] + rest;
      FieldsAfterPlain(a[1..], sep, rest);
      assert [a[0]] + a[1..] == a;
    }
  }

  /** Two separator-free fields with a non-empty second one split into exactly those two. */
  lemma SplitTwo(a: string, b: string, sep: char)
    requires sep !in a && sep !in b && b != []
    ensures JavaSplit(a + [sep] + b, sep) == [a, b]
  {
    assert (a + [sep] + b)[|a|] == sep;
    FieldsAfterPlain(a, sep, b);
    FieldsOfPlain(b, sep);
  }

  /** A separator at the end adds no field: `"x;".split(";")` is `["x"]`. */
  lemma SplitTrailingSeparator(a: string, sep: char)
    requires sep !in a
    ensures JavaSplit(a + [sep], sep) == if a == [] then [] else [a]
  {
    assert (a + [sep])[|a|] == sep;
    assert a + [sep] == a + [sep] + [];
    FieldsAfterPlain(a, sep, []);
    var fs: seq<string> := [a] + [[]];
    assert Fields(a + [sep], sep) == fs;
    assert fs[..1] == [a];
    assert DropTrailingEmpty(fs) == DropTrailingEmpty([a]);
    if a == [] {
      assert [a][..0] == [];
    }
  }

  // ----- One line of areas.csv -----

  /** `s.replace(",", ".")`. */
  function CommaToDot(s: string): (r: string)
    ensures |r| == |s| && ',' !in r
    ensures forall i :: 0 <= i < |s| ==> r[i] == (if s[i] == ',' then '.' else s[i])
  {
    seq(|s|, i requires 0 <= i < |s| => if s[i] == ',' then '.' else s[i])
  }

  /** A line the loop accepts: the area's name and its fee in cents. */
  datatype AreaLine = AreaLine(name: string, fee: int)

  /** The checks of the loop body in `seedAreasFromCsvIfNeeded`: `None` is a `continue`. */
  function ParseAreaLine(line: string, parseFee: string -> Option<int>): (r: Option<AreaLine>)
    ensures AllTrimmable(line) ==> r.None?
    ensures r.Some? ==> r.value.name != []
  {
    var raw := Trim(line);
    if raw == [] || StartsWith(raw, "#") then None
    else
      var parts := JavaSplit(raw, ';');
      if |parts| < 2 then None
      else
        var name := Trim(parts[0]);
        if name == [] then None
        else match parseFee(CommaToDot(Trim(parts[1])))
          case None => None
          case Some(fee) => Some(AreaLine(name, fee))
  }

  /** A line that is blank once trimmed, or a `#` comment, is skipped. */
  lemma BlankOrCommentSkipped(line: string, parseFee: string -> Option<int>)
    requires AllTrimmable(line) || StartsWith(Trim(line), "#")
    ensures ParseAreaLine(line, parseFee) == None
  {
  }

  /** An accepted line names a non-empty, already trimmed area. */
  lemma AcceptedNameIsClean(line: string, parseFee: string -> Option<int>)
    requires ParseAreaLine(line, parseFee).Some?
    ensures var name := ParseAreaLine(line, parseFee).value.name;
      name != [] && Trim(name) == name
  {
    TrimIdempotent(JavaSplit(Trim(line), ';')[0]);
  }

  /** A line `name;fee` is read as that name (trimmed) and the fee text trimmed and with its
      decimal comma turned into a point; an unparseable fee skips the line. */
  lemma TwoFieldLine(name: string, fee: string, parseFee: string -> Option<int>)
    requires ';' !in name && ';' !in fee && fee != []
    requires name != [] && !Trimmable(name[0]) && name[0] != '#' && !Trimmable(fee[|fee| - 1]) && Trim(name) != []
    ensures ParseAreaLine(name + ";" + fee, parseFee)
      == if parseFee(CommaToDot(Trim(fee))).Some? then Some(AreaLine(Trim(name), parseFee(CommaToDot(Trim(fee))).value)) else None
  {
    var line := name + ";" + fee;
    assert line == name + [';'] + fee;
    assert line[0] == name[0] && line[|line| - 1] == fee[|fee| - 1];
    TrimOfTrimmed(line);
    SplitTwo(name, fee, ';');
    ParseOfTwoParts(line, name, fee, parseFee);
  }

  lemma ParseOfTwoParts(line: string, a: string, b: string, parseFee: string -> Option<int>)
    requires Trim(line) == line && line != [] && line[0] != '#'
    requires JavaSplit(line, ';') == [a, b] && Trim(a) != []
    ensures ParseAreaLine(line, parseFee)
      == if parseFee(CommaToDot(Trim(b))).Some? then Some(AreaLine(Trim(a), parseFee(CommaToDot(Trim(b))).value)) else None
  {
    assert !StartsWith(line, "#") by {
      assert line[..1][0] == line[0];
    }
  }

  /** `"x;"` splits into fewer than two parts, so such a line is skipped. */
  lemma TrailingSemicolonSkipped(name: string, parseFee: string -> Option<int>)
    requires ';' !in name && name != [] && !Trimmable(name[0])
    ensures ParseAreaLine(name + ";", parseFee) == None
  {
    var line := name + ";";
    assert line[0] == name[0] && line[|line| - 1] == ';';
    TrimOfTrimmed(line);
    assert line == name + [';'];
    SplitTrailingSeparator(name, ';');
  }


  /** Every line of the file as the loop reads it. */
  function ParsedLines(lines: seq<string>, parseFee: string -> Option<int>): (ps: seq<Option<AreaLine>>)
    ensures |ps| == |lines|
    ensures forall k :: 0 <= k < |lines| ==> ps[k] == ParseAreaLine(lines[k], parseFee)
  {
    seq(|lines|, k requires 0 <= k < |lines| => ParseAreaLine(lines[k], parseFee))
  }

  // ----- The tables -----

  /** The three tables seeding writes to. */
  datatype Tables = Tables(areas: seq<Area>, levels: seq<FlavorLevel>, sizes: seq<Size>)

  /** `findByNameArea(name) != null`. */
  predicate HasAreaNamed(areas: seq<Area>, name: string) {
    exists i :: 0 <= i < |areas| && areas[i].name == name
  }

  /** One iteration of the loop: an accepted line whose name is new inserts its area. */
  function AreaStep(areas: seq<Area>, p: Option<AreaLine>): seq<Area> {
    match p
    case None => areas
    case Some(l) => if HasAreaNamed(areas, l.name) then areas else areas + [Area(None, l.name, l.fee)]
  }

  /** The areas table after the loop has read lines parsed as `ps`. */
  function AreasAfter(areas: seq<Area>, ps: seq<Option<AreaLine>>): seq<Area>
    decreases |ps|
  {
    if ps == [] then areas else AreaStep(AreasAfter(areas, ps[..|ps| - 1]), ps[|ps| - 1])
  }

  const CSV_NOT_FOUND := "Erro ao ler areas.csv: Arquivo areas.csv não encontrado no classpath nem nos caminhos fallback."

  /** `seedAreasFromCsvIfNeeded`: a file found nowhere becomes an `SQLException`. */
  function SeedAreas(areas: seq<Area>, csv: Option<seq<string>>, parseFee: string -> Option<int>): Result<seq<Area>, string> {
    match csv
    case None => Err(CSV_NOT_FOUND)
    case Some(lines) => Ok(AreasAfter(areas, ParsedLines(lines, parseFee)))
  }

  const DEFAULT_LEVELS: seq<FlavorLevel> := [
    FlavorLevel(None, "Tradicional", Some(1000)),
    FlavorLevel(None, "Especial", Some(2000))
  ]

  const DEFAULT_SIZES: seq<Size> := [
    Size(None, "Mine", "8 a 10 pessoas", "1.3kg", Some(13000)),
    Size(None, "PP", "20 a 25 pessoas", "2.3kg", Some(2000)),
    Size(None, "P", "35 a 40 pessoas", "3.8kg", Some(2000)),
    Size(None, "M", "50 pessoas", "7kg", Some(2000)),
    Size(None, "G", "90 pessoas", "9kg", Some(2000))
  ]

  /** `seedFlavorLevelsIfEmpty`: a table with any row is left alone. */
  function SeedLevels(levels: seq<FlavorLevel>): seq<FlavorLevel> {
    if levels == [] then DEFAULT_LEVELS else levels
  }

  /** `seedSizesIfEmpty`: a table with any row is left alone. */
  function SeedSizes(sizes: seq<Size>): seq<Size> {
    if sizes == [] then DEFAULT_SIZES else sizes
  }

  /** `seedDefaults`: areas, then levels, then sizes; an exception stops the rest. It fails
      exactly when the file is missing, and after it levels and sizes are never empty, the
      ones that had rows being left as they were. */
  function SeedDefaults(t: Tables, csv: Option<seq<string>>, parseFee: string -> Option<int>): (r: Result<Tables, string>)
    ensures r.Err? <==> csv.None?
    ensures r.Err? ==> r.error == CSV_NOT_FOUND
    ensures r.Ok? ==> r.value.levels != [] && r.value.sizes != []
    ensures r.Ok? && t.levels != [] ==> r.value.levels == t.levels
    ensures r.Ok? && t.sizes != [] ==> r.value.sizes == t.sizes
  {
    match SeedAreas(t.areas, csv, parseFee)
    case Err(m) => Err(m)
    case Ok(areas) => Ok(Tables(areas, SeedLevels(t.levels), SeedSizes(t.sizes)))
  }

  /** The database seen by the seeding service. */
  class SeedDatabase {
    var areas: seq<Area>
    var levels: seq<FlavorLevel>
    var sizes: seq<Size>

    function State(): Tables
      reads this
    {
      Tables(areas, levels, sizes)
    }

    constructor (t: Tables)
      ensures State() == t
    {
      areas := t.areas;
      levels := t.levels;
      sizes := t.sizes;
    }

    /** `findByNameArea(name) != null`: a scan of the areas table. */
    method FindByName(name: string) returns (found: bool)
      ensures found == HasAreaNamed(areas, name)
    {
      var i := 0;
      while i < |areas|
        invariant 0 <= i <= |areas|
        invariant forall k :: 0 <= k < i ==> areas[k].name != name
      {
        if areas[i].name == name {
          return true;
        }
        i := i + 1;
      }
      return false;
    }

    /** `seedAreasFromCsvIfNeeded()`: reads the lines in order. */
    method SeedAreasFromCsv(csv: Option<seq<string>>, parseFee: string -> Option<int>) returns (r: Result<(), string>)
      modifies this
      ensures csv.None? ==> r == Err(CSV_NOT_FOUND) && areas == old(areas)
      ensures csv.Some? ==> r == Ok(()) && areas == AreasAfter(old(areas), ParsedLines(csv.value, parseFee))
      ensures levels == old(levels) && sizes == old(sizes)
    {
      if csv.None? {
        return Err(CSV_NOT_FOUND);
      }
      var lines := csv.value;
      ghost var ps := ParsedLines(lines, parseFee);
      var i := 0;
      while i < |lines|
        invariant 0 <= i <= |lines|
        invariant areas == AreasAfter(old(areas), ps[..i])
        invariant levels == old(levels) && sizes == old(sizes)
      {
        assert ps[..i + 1][..i] == ps[..i];
        ReadAreaLine(lines[i], parseFee);
        i := i + 1;
      }
      assert ps[..i] == ps;
      return Ok(());
    }

    /** One iteration of the loop over `areas.csv`: parse the line, and insert its area when
        the line is accepted and no area has its name yet. */
    method ReadAreaLine(line: string, parseFee: string -> Option<int>)
      modifies this`areas
      ensures areas == AreaStep(old(areas), ParseAreaLine(line, parseFee))
      ensures levels == old(levels) && sizes == old(sizes)
    {
      var parsed := ParseAreaLine(line, parseFee);
      if parsed.Some? {
        var existing := FindByName(parsed.value.name);
        if !existing {
          areas := areas + [Area(None, parsed.value.name, parsed.value.fee)];
        }
        assert areas == AreaStep(old(areas), parsed);
      }
    }

    /** `seedFlavorLevelsIfEmpty()`. */
    method SeedFlavorLevelsIfEmpty()
      modifies this
      ensures levels == SeedLevels(old(levels)) && areas == old(areas) && sizes == old(sizes)
    {
      if levels != [] {
        return;
      }
      levels := levels + [FlavorLevel(None, "Tradicional", Some(1000))];
      levels := levels + [FlavorLevel(None, "Especial", Some(2000))];
    }

    /** `seedSizesIfEmpty()`. */
    method SeedSizesIfEmpty()
      modifies this
      ensures sizes == SeedSizes(old(sizes)) && areas == old(areas) && levels == old(levels)
    {
      if sizes != [] {
        return;
      }
      sizes := sizes + [Size(None, "Mine", "8 a 10 pessoas", "1.3kg", Some(13000))];
      sizes := sizes + [Size(None, "PP", "20 a 25 pessoas", "2.3kg", Some(2000))];
      sizes := sizes + [Size(None, "P", "35 a 40 pessoas", "3.8kg", Some(2000))];
      sizes := sizes + [Size(None, "M", "50 pessoas", "7kg", Some(2000))];
      sizes := sizes + [Size(None, "G", "90 pessoas", "9kg", Some(2000))];
    }

    /** `seedDefaults()`. */
    method SeedAll(csv: Option<seq<string>>, parseFee: string -> Option<int>) returns (r: Result<(), string>)
      modifies this
      ensures SeedDefaults(old(State()), csv, parseFee).Err? ==>
        r == Err(SeedDefaults(old(State()), csv, parseFee).error) && State() == old(State())
      ensures SeedDefaults(old(State()), csv, parseFee).Ok? ==>
        r == Ok(()) && State() == SeedDefaults(old(State()), csv, parseFee).value
    {
      r := SeedAreasFromCsv(csv, parseFee);
      if r.Err? {
        return;
      }
      SeedFlavorLevelsIfEmpty();
      SeedSizesIfEmpty();
    }
  }

  // ----- What seeding promises -----

  /** The loop only appends: the rows already there, fees included, are left as they were. */
  lemma {:induction false} AreasOnlyAppend(areas: seq<Area>, ps: seq<Option<AreaLine>>)
    ensures |AreasAfter(areas, ps)| >= |areas|
    ensures AreasAfter(areas, ps)[..|areas|] == areas
    decreases |ps|
  {
    if ps != [] {
      AreasOnlyAppend(areas, ps[..|ps| - 1]);
    }
  }

  /** A name present stays present. */
  lemma KeepsName(areas: seq<Area>, ps: seq<Option<AreaLine>>, name: string)
    requires HasAreaNamed(areas, name)
    ensures HasAreaNamed(AreasAfter(areas, ps), name)
  {
    AreasOnlyAppend(areas, ps);
    var i :| 0 <= i < |areas| && areas[i].name == name;
    assert AreasAfter(areas, ps)[i] == areas[i];
  }

  /** After the loop, every accepted line's name is in the table. */
  lemma {:induction false} LinesCovered(areas: seq<Area>, ps: seq<Option<AreaLine>>)
    ensures forall k :: 0 <= k < |ps| && ps[k].Some? ==> HasAreaNamed(AreasAfter(areas, ps), ps[k].value.name)
    decreases |ps|
  {
    if ps != [] {
      var n := |ps| - 1;
      var before := AreasAfter(areas, ps[..n]);
      LinesCovered(areas, ps[..n]);
      forall k | 0 <= k < |ps| && ps[k].Some? ensures HasAreaNamed(AreasAfter(areas, ps), ps[k].value.name) {
        var name := ps[k].value.name;
        if k < n {
          assert ps[..n][k] == ps[k];
          KeepsName(before, [ps[n]], name);
          assert [ps[n]][..0] == [];
        } else if !HasAreaNamed(before, name) {
          assert AreasAfter(areas, ps)[|before|].name == name;
        }
      }
    }
  }

  /** Lines whose names are all in the table already change nothing. */
  lemma {:induction false} CoveredLinesChangeNothing(areas: seq<Area>, ps: seq<Option<AreaLine>>)
    requires forall k :: 0 <= k < |ps| && ps[k].Some? ==> HasAreaNamed(areas, ps[k].value.name)
    ensures AreasAfter(areas, ps) == areas
    decreases |ps|
  {
    if ps != [] {
      var n := |ps| - 1;
      forall k | 0 <= k < n && ps[..n][k].Some? ensures HasAreaNamed(areas, ps[..n][k].value.name) {
        assert ps[..n][k] == ps[k];
      }
      CoveredLinesChangeNothing(areas, ps[..n]);
    }
  }

  /** Seeding the areas twice from the same file is seeding them once. */
  lemma AreasIdempotent(areas: seq<Area>, ps: seq<Option<AreaLine>>)
    ensures AreasAfter(AreasAfter(areas, ps), ps) == AreasAfter(areas, ps)
  {
    LinesCovered(areas, ps);
    CoveredLinesChangeNothing(AreasAfter(areas, ps), ps);
  }

  /** A second `seedDefaults` run with the same file inserts nothing. */
  lemma SeedDefaultsIdempotent(t: Tables, csv: Option<seq<string>>, parseFee: string -> Option<int>)
    requires SeedDefaults(t, csv, parseFee).Ok?
    ensures SeedDefaults(SeedDefaults(t, csv, parseFee).value, csv, parseFee) == SeedDefaults(t, csv, parseFee)
  {
    AreasIdempotent(t.areas, ParsedLines(csv.value, parseFee));
  }

  /** No two rows of the table share a name. */
  predicate DistinctNames(areas: seq<Area>) {
    forall i, j :: 0 <= i < j < |areas| ==> areas[i].name != areas[j].name
  }

  lemma StepKeepsDistinct(before: seq<Area>, p: Option<AreaLine>)
    requires DistinctNames(before)
    ensures DistinctNames(AreaStep(before, p))
  {
    var r := AreaStep(before, p);
    if r != before {
      forall i, j | 0 <= i < j < |r| ensures r[i].name != r[j].name {
        assert r[i] == before[i];
        if j == |before| {
          assert before[i].name != r[j].name;
        } else {
          assert r[j] == before[j];
        }
      }
    }
  }

  /** A table whose names are distinct keeps them distinct: seeding never duplicates an area. */
  lemma {:induction false} NamesStayDistinct(areas: seq<Area>, ps: seq<Option<AreaLine>>)
    requires DistinctNames(areas)
    ensures DistinctNames(AreasAfter(areas, ps))
    decreases |ps|
  {
    if ps != [] {
      NamesStayDistinct(areas, ps[..|ps| - 1]);
      StepKeepsDistinct(AreasAfter(areas, ps[..|ps| - 1]), ps[|ps| - 1]);
    }
  }

  /** Each inserted area carries the name and fee of an accepted line, and no id. */
  lemma {:induction false} InsertedFromLines(areas: seq<Area>, ps: seq<Option<AreaLine>>)
    ensures var r := AreasAfter(areas, ps);
      forall i :: |areas| <= i < |r| ==> r[i].id.None? && Some(AreaLine(r[i].name, r[i].fee)) in ps
    decreases |ps|
  {
    AreasOnlyAppend(areas, ps);
    if ps != [] {
      var n := |ps| - 1;
      InsertedFromLines(areas, ps[..n]);
      AreasOnlyAppend(areas, ps[..n]);
      var before := AreasAfter(areas, ps[..n]);
      var r := AreasAfter(areas, ps);
      forall i | |areas| <= i < |r| ensures r[i].id.None? && Some(AreaLine(r[i].name, r[i].fee)) in ps {
        if i < |before| {
          assert r[i] == before[i];
          var k :| 0 <= k < n && ps[..n][k] == Some(AreaLine(before[i].name, before[i].fee));
          assert ps[k] == ps[..n][k];
        } else {
          assert ps[n] == Some(AreaLine(r[i].name, r[i].fee));
        }
      }
    }
  }

  /** A missing file inserts nothing anywhere, since the exception stops `seedDefaults`. */
  lemma MissingFileStopsSeeding(t: Tables, parseFee: string -> Option<int>)
    ensures SeedDefaults(t, None, parseFee) == Err(CSV_NOT_FOUND)
  {
  }

  /** Into empty tables go exactly the two levels and the five sizes, in order. */
  lemma EmptyTablesGetDefaults(areas: seq<Area>, lines: seq<string>, parseFee: string -> Option<int>)
    ensures SeedDefaults(Tables(areas, [], []), Some(lines), parseFee).Ok?
    ensures var t := SeedDefaults(Tables(areas, [], []), Some(lines), parseFee).value;
      && |t.levels| == 2 && t.levels[0].name == "Tradicional" && t.levels[0].price == Some(1000)
      && t.levels[1].name == "Especial" && t.levels[1].price == Some(2000)
      && |t.sizes| == 5 && t.sizes[0].name == "Mine" && t.sizes[0].price == Some(13000)
      && (forall i :: 1 <= i < 5 ==> t.sizes[i].price == Some(2000))
  {
    var t := SeedDefaults(Tables(areas, [], []), Some(lines), parseFee).value;
    assert t.levels == DEFAULT_LEVELS && t.sizes == DEFAULT_SIZES;
    DefaultRows();
  }

  lemma DefaultRows()
    ensures |DEFAULT_LEVELS| == 2 && DEFAULT_LEVELS[0].name == "Tradicional" && DEFAULT_LEVELS[0].price == Some(1000)
    ensures DEFAULT_LEVELS[1].name == "Especial" && DEFAULT_LEVELS[1].price == Some(2000)
    ensures |DEFAULT_SIZES| == 5 && DEFAULT_SIZES[0].name == "Mine" && DEFAULT_SIZES[0].price == Some(13000)
    ensures forall i :: 1 <= i < 5 ==> DEFAULT_SIZES[i].price == Some(2000)
  {
  }

  /** Levels and sizes already present are never touched, and a successful run leaves the
      areas table holding every row it had before. */
  lemma NonEmptyTablesKept(t: Tables, lines: seq<string>, parseFee: string -> Option<int>)
    requires t.levels != [] && t.sizes != []
    ensures var r := SeedDefaults(t, Some(lines), parseFee);
      && r.Ok? && r.value.levels == t.levels && r.value.sizes == t.sizes
      && |r.value.areas| >= |t.areas| && r.value.areas[..|t.areas|] == t.areas
  {
    AreasOnlyAppend(t.areas, ParsedLines(lines, parseFee));
  }
}
