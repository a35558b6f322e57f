/**
 * `parse_date` (youtube_scraper/utils.py): an eight-digit `YYYYMMDD` string is
 * first rewritten as `YYYY-MM-DD`; then a fixed list of formats is tried in
 * order and the first one `datetime.strptime` accepts decides the result.
 */
module Dates {

  import opened Wrappers
  import opened Text

  datatype DateTime = DateTime(year: int, month: int, day: int, hour: int, minute: int, second: int, microsecond: int)

  /** `datetime.strptime(text, format)`, a library call outside this model;
      None stands for the `ValueError` it raises when `text` does not fit. */
  type Strptime = (string, string) -> Option<DateTime>

  /** The formats `parse_date` tries, in order. */
  const DateFormats: seq<string> :=
    ["%Y-%m-%d", "%Y%m%d", "%Y-%m-%dT%H:%M:%SZ", "%Y-%m-%d %H:%M:%S", "%b %d, %Y", "%Y-%m-%d %H:%M:%S.%f"]

  /** `YYYYMMDD` becomes `YYYY-MM-DD`; any other text is left alone. */
  function NormaliseDate(s: string): (r: string)
  {
    if |s| == 8 && AllDigits(s) then s[..4] + "-" + s[4..6] + "-" + s[6..] else s
  }

  /** The rewrite only inserts two dashes: removing them gives the input back,
      and it touches nothing but eight-digit strings. */
  lemma NormaliseDateInsertsDashes(s: string)
    ensures |s| == 8 && AllDigits(s) ==>
      var r := NormaliseDate(s);
      |r| == 10 && r[4] == '-' && r[7] == '-' && r[..4] + r[5..7] + r[8..] == s
    ensures !(|s| == 8 && AllDigits(s)) ==> NormaliseDate(s) == s
  {
    if |s| == 8 && AllDigits(s) {
      var r := NormaliseDate(s);
      assert r[..4] == s[..4] && r[5..7] == s[4..6] && r[8..] == s[6..];
      assert s == s[..4] + s[4..6] + s[6..];
    }
  }

  /** The format loop: the first format `strptime` accepts gives the result. */
  function FirstFormat(text: string, formats: seq<string>, strptime: Strptime): Option<DateTime>
  {
    if formats == [] then None
    else
      var hit := strptime(text, formats[0]);
      if hit.Some? then hit else FirstFormat(text, formats[1..], strptime)
  }

  /** The loop fails exactly when every format is refused, and otherwise
      returns what the first accepting format gives. */
  lemma {:induction false} FirstFormatRule(text: string, formats: seq<string>, strptime: Strptime)
    ensures var r := FirstFormat(text, formats, strptime);
      && (r.None? <==> forall k :: 0 <= k < |formats| ==> strptime(text, formats[k]).None?)
      && (r.Some? ==> exists k :: (0 <= k < |formats| && strptime(text, formats[k]) == r
            && forall j :: 0 <= j < k ==> strptime(text, formats[j]).None?))
  {
    if formats != [] && strptime(text, formats[0]).None? {
      var tail := formats[1..];
      FirstFormatRule(text, tail, strptime);
      assert forall k :: 1 <= k < |formats| ==> formats[k] == tail[k - 1];
      var r := FirstFormat(text, tail, strptime);
      if r.Some? {
        var k :| 0 <= k < |tail| && strptime(text, tail[k]) == r
          && forall j :: 0 <= j < k ==> strptime(text, tail[j]).None?;
        assert strptime(text, formats[k + 1]) == r;
      }
    }
  }

  /** `parse_date`: None stands for the `ValueError("Unable to parse date")`. */
  function ParseDate(s: string, strptime: Strptime): Option<DateTime>
  {
    FirstFormat(NormaliseDate(s), DateFormats, strptime)
  }

  /** A date fails to parse exactly when `strptime` refuses the normalised
      text in every format; otherwise the first format it accepts decides. */
  lemma ParseDateRule(s: string, strptime: Strptime)
    ensures var r := ParseDate(s, strptime);
      var text := NormaliseDate(s);
      && (r.None? <==> forall k :: 0 <= k < |DateFormats| ==> strptime(text, DateFormats[k]).None?)
      && (r.Some? ==> exists k :: (0 <= k < |DateFormats| && strptime(text, DateFormats[k]) == r
            && forall j :: 0 <= j < k ==> strptime(text, DateFormats[j]).None?))
  {
    FirstFormatRule(NormaliseDate(s), DateFormats, strptime);
  }
}
