/**
 * The naming and format rule of `save_to_file` (youtube_scraper/utils.py).
 * Writing is file-system I/O, so the function returns the actions the code
 * performs, in order, instead of performing them.
 */
module Files {

  import opened Wrappers

  /** A file-system action of `save_to_file`. */
  datatype Effect =
    | MakeDirs(dir: string)      // `filepath.parent.mkdir(parents=True, exist_ok=True)`
    | WriteCsv(path: string)     // `pd.DataFrame(data).to_csv(filepath)`
    | WriteJson(path: string)    // `json.dump(data, f)`
    | WriteExcel(path: string)   // `pd.DataFrame(data).to_excel(filepath)`

  /** The `ValueError`s `save_to_file` can raise. */
  datatype SaveError =
    | InvalidSuffix       // `Path.with_suffix` refuses `"." + format`
    | EmptyName           // `Path.with_suffix` on a path with no final component
    | UnsupportedFormat   // `ValueError(f"Unsupported format: {format}")`

  datatype Saved = Saved(effects: seq<Effect>, error: Option<SaveError>)

  const SupportedFormats: set<string> := {"csv", "json", "excel"}

  /** Index of the last `c` in `s` (`s.rfind(c)`), or -1. */
  function RFind(s: string, c: char): (i: int)
    ensures -1 <= i < |s|
    ensures i >= 0 ==> s[i] == c
    ensures forall k :: i < k < |s| ==> s[k] != c
  {
    if s == [] then -1
    else if s[|s| - 1] == c then |s| - 1
    else RFind(s[..|s| - 1], c)
  }

  /** `PurePath.name`: the text after the last `/`. */
  function Name(path: string): (name: string)
    ensures '/' !in name
  {
    path[RFind(path, '/') + 1..]
  }

  /** `PurePath.parent` for a POSIX path. */
  function Parent(path: string): string {
    var k := RFind(path, '/');
    if k < 0 then "." else if k == 0 then "/" else path[..k]
  }

  /** `PurePath.suffix`: from the last dot of the name, unless that dot is the
      first or the last character of the name. */
  function Suffix(name: string): (suffix: string)
    ensures suffix == [] || (|suffix| >= 2 && suffix[0] == '.')
  {
    var i := RFind(name, '.');
    if 0 < i < |name| - 1 then name[i..] else ""
  }

  /** `save_to_file(data, filename, format)`, with `filename` already resolved
      to an absolute path. */
  function SaveToFile(filename: string, format: string): (r: Saved)
  {
    var mkdir := MakeDirs(Parent(filename));
    var name := Name(filename);
    if Suffix(name) == "" && ('/' in format || format == "") then Saved([mkdir], Some(InvalidSuffix))
    else if Suffix(name) == "" && name == "" then Saved([mkdir], Some(EmptyName))
    else
      var path := if Suffix(name) == "" then filename + "." + format else filename;
      if format == "csv" then Saved([mkdir, WriteCsv(path)], None)
      else if format == "json" then Saved([mkdir, WriteJson(path)], None)
      else if format == "excel" then Saved([mkdir, WriteExcel(path)], None)
      else Saved([mkdir], Some(UnsupportedFormat))
  }

  /** The path of the file an action writes, if it writes one. */
  function Written(e: Effect): Option<string> {
    match e
    case MakeDirs(_) => None
    case WriteCsv(p) => Some(p)
    case WriteJson(p) => Some(p)
    case WriteExcel(p) => Some(p)
  }

  /** The parent directory is always created first, even when the call then
      raises; a file is written exactly when the format is csv, json or excel
      and the name is not empty; a name without a suffix gets `"." + format`
      appended and a name with any suffix is kept as it is. */
  lemma SaveToFileRule(filename: string, format: string)
    ensures var r := SaveToFile(filename, format);
      && |r.effects| >= 1 && r.effects[0] == MakeDirs(Parent(filename))
      && (r.error.None? <==> format in SupportedFormats && Name(filename) != "")
      && (r.error.None? ==> (|r.effects| == 2 && Written(r.effects[1]) ==
            Some(if Suffix(Name(filename)) == "" then filename + "." + format else filename)))
      && (r.error.Some? ==> |r.effects| == 1)
  {
    var name := Name(filename);
    if Suffix(name) != "" { assert name != ""; }
  }

  /** `RFind` is the position of the last occurrence. */
  lemma {:induction false} RFindAt(s: string, c: char, k: nat)
    requires k < |s| && s[k] == c && c !in s[k + 1..]
    ensures RFind(s, c) == k
  {
    if k < |s| - 1 {
      assert s[|s| - 1] in s[k + 1..];
      assert s[..|s| - 1][k + 1..] == s[k + 1..|s| - 1];
      RFindAt(s[..|s| - 1], c, k);
    }
  }

  /** An existing suffix wins over the requested format: `report.v2` is
      written as CSV under its own name. */
  lemma SuffixKeptOverFormat()
    ensures SaveToFile("/out/report.v2", "csv") == Saved([MakeDirs("/out"), WriteCsv("/out/report.v2")], None)
  {
    var a := "/out/report.v2";
    assert a[5..] == "report.v2";
    RFindAt(a, '/', 4);
    assert Name(a) == "report.v2";
    assert "report.v2"[7..] == "v2";
    RFindAt("report.v2", '.', 6);
    assert Suffix("report.v2") == ".v2";
    assert Parent(a) == "/out";
  }

  /** A trailing dot is no suffix, so `archive.` becomes `archive..json`. */
  lemma TrailingDotIsNoSuffix()
    ensures SaveToFile("/out/archive.", "json") == Saved([MakeDirs("/out"), WriteJson("/out/archive..json")], None)
  {
    var b := "/out/archive.";
    assert b[5..] == "archive.";
    RFindAt(b, '/', 4);
    assert Name(b) == "archive.";
    RFindAt("archive.", '.', 7);
    assert Suffix("archive.") == "";
    assert Parent(b) == "/out";
    assert '/' !in "json" && "json" != "csv";
    assert b + "." + "json" == "/out/archive..json";
  }
}
