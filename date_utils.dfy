/**
 * The Indian-time formatting helpers: `toDate`'s normalisation of timestamp
 * strings before they are parsed, and the "—" fallback every `format*`
 * helper shares. Parsing a timestamp and rendering it in a locale are
 * foreign to the model and are passed in as functions.
 */
module DateUtils {
  import opened Wrappers
  import opened Text

  /** A `Date` object (its time value, `None` for an invalid date) or a string. */
  datatype DateInput = DateValue(time: Option<int>) | DateString(s: string)

  /** What `toDate` hands on: the `Date` it was given, or the string it passes to `new Date(...)`. */
  datatype ToDateResult = Given(time: Option<int>) | ParseText(text: string)

  /** `/Z$/i`. */
  predicate EndsWithZ(s: string) {
    s != [] && (s[|s| - 1] == 'Z' || s[|s| - 1] == 'z')
  }

  predicate IsSign(c: char) {
    c == '+' || c == '-'
  }

  /** `/[+-]\d{2}:\d{2}$/`. */
  predicate EndsWithColonOffset(s: string) {
    |s| >= 6 && IsSign(s[|s| - 6]) && IsDigit(s[|s| - 5]) && IsDigit(s[|s| - 4])
    && s[|s| - 3] == ':' && IsDigit(s[|s| - 2]) && IsDigit(s[|s| - 1])
  }

  /** `/[+-]\d{4}$/`. */
  predicate EndsWithPlainOffset(s: string) {
    |s| >= 5 && IsSign(s[|s| - 5]) && IsDigit(s[|s| - 4]) && IsDigit(s[|s| - 3])
    && IsDigit(s[|s| - 2]) && IsDigit(s[|s| - 1])
  }

  /** The string already says which time zone it is in. */
  predicate HasZone(s: string) {
    EndsWithZ(s) || EndsWithColonOffset(s) || EndsWithPlainOffset(s)
  }

  /**
   * The text `toDate` parses for a string: trimmed; kept as it is when it
   * carries a zone; otherwise read as UTC by appending "Z", after turning
   * the first ' ' into 'T' when there is no 'T' yet.
   */
  function NormalizeTimestamp(s: string): (r: string)
    ensures HasZone(r)
  {
    var t := Trim(s);
    if HasZone(t) then t
    else if 'T' in t then t + "Z"
    else ReplaceFirst(t, ' ', 'T') + "Z"
  }

  /** `toDate`. */
  function ToDate(d: DateInput): ToDateResult {
    match d
    case DateValue(t) => Given(t)
    case DateString(s) => ParseText(NormalizeTimestamp(s))
  }

  /** White space around a timestamp string makes no difference. */
  lemma NormalizeIgnoresPadding(s: string)
    ensures NormalizeTimestamp(s) == NormalizeTimestamp(Trim(s))
  {
    TrimIdempotent(s);
  }

  /** A trimmed string that already carries a zone is parsed exactly as written. */
  lemma NormalizeKeepsZoned(s: string)
    requires HasZone(Trim(s))
    ensures NormalizeTimestamp(s) == Trim(s)
  {
  }

  /** Without a zone: "Z" is appended, and the only other change is the first space becoming 'T' when there is no 'T'. */
  lemma NormalizeAppendsUtc(s: string)
    requires !HasZone(Trim(s))
    ensures var t := Trim(s);
      var i := IndexOf(t, ' ');
      NormalizeTimestamp(s) == (if 'T' in t || i == |t| then t else t[..i] + "T" + t[i + 1..]) + "Z"
  {
    var t := Trim(s);
    if 'T' !in t {
      var i := IndexOf(t, ' ');
      if i == |t| {
        assert ReplaceFirst(t, ' ', 'T') == t;
      }
    }
  }

  /** Normalising twice is normalising once: the result always carries a zone and no padding. */
  lemma NormalizeIdempotent(s: string)
    ensures NormalizeTimestamp(NormalizeTimestamp(s)) == NormalizeTimestamp(s)
  {
    var t := Trim(s);
    TrimmedEnds(s);
    TrimIdempotent(s);
    if !HasZone(t) {
      var u := if 'T' in t then t else ReplaceFirst(t, ' ', 'T');
      if t != [] && 'T' !in t {
        ReplaceFirstHead(t, ' ', 'T');
      }
      var r := u + "Z";
      assert r[0] == (if t == [] then 'Z' else t[0]);
      TrimNoop(r);
    }
  }

  /** The five display styles (`formatIST`, `formatISTDate`, `formatISTTime`, `formatISTShort`, `formatISTMonthYear`). */
  datatype Style = DateTime | DateOnly | TimeOnly | ShortDate | MonthYear

  /** The placeholder shown for a missing or unreadable date. */
  const Placeholder: string := "\U{2014}"

  /**
   * Each `format*` helper: "—" for `null`/`undefined`, "—" for a date whose
   * time value is NaN, otherwise the locale rendering of the time value.
   * `parse` stands for `new Date(text)` and `render` for the `Intl` rendering.
   */
  function Format(date: Option<DateInput>, style: Style, parse: string -> Option<int>, render: (int, Style) -> string): string {
    match date
    case None => Placeholder
    case Some(d) =>
      match TimeOf(ToDate(d), parse)
      case None => Placeholder
      case Some(t) => render(t, style)
  }

  /** The time value of what `toDate` produced; `None` when it is NaN. */
  function TimeOf(r: ToDateResult, parse: string -> Option<int>): Option<int> {
    match r
    case Given(t) => t
    case ParseText(text) => parse(text)
  }

  /** A `Date` is passed through untouched; a string is normalised before it is parsed. */
  lemma ToDateCases(d: DateInput)
    ensures d.DateValue? ==> ToDate(d) == Given(d.time)
    ensures d.DateString? ==> ToDate(d) == ParseText(NormalizeTimestamp(d.s)) && HasZone(ToDate(d).text)
  {
  }

  /** `null` and `undefined` show the placeholder. */
  lemma MissingDateShowsPlaceholder(style: Style, parse: string -> Option<int>, render: (int, Style) -> string)
    ensures Format(None, style, parse, render) == Placeholder
  {
  }

  /** No helper ever fails: an invalid date shows the placeholder, whichever style is asked for. */
  lemma InvalidDateShowsPlaceholder(d: DateInput, style: Style, parse: string -> Option<int>, render: (int, Style) -> string)
    requires TimeOf(ToDate(d), parse).None?
    ensures Format(Some(d), style, parse, render) == Placeholder
  {
  }

  /** A valid `Date` object is rendered directly, without going through any string. */
  lemma ValidDateRendered(t: int, style: Style, parse: string -> Option<int>, render: (int, Style) -> string)
    ensures Format(Some(DateValue(Some(t))), style, parse, render) == render(t, style)
  {
  }
}
