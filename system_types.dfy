/** The few .NET base-library notions the domain relies on: date-time values
    with their kind flag, and the null-or-blank string tests. */
module SystemTypes {
  import opened Results

  /** `DateTimeKind`: whether a date-time is in UTC, local time or unspecified. */
  datatype DateTimeKind = Unspecified | Utc | Local

  /** A `DateTime`: an instant counted in ticks plus its kind. Comparing two
      date-times with `<`, `<=`, `==` looks at the ticks only, as .NET does. */
  datatype DateTime = DateTime(ticks: int, kind: DateTimeKind)

  /** The value `DateTime.UtcNow` yields when the clock reads `now` ticks. */
  function UtcAt(now: int): (d: DateTime)
    ensures d.kind == Utc && d.ticks == now
  {
    DateTime(now, Utc)
  }

  /** `char.IsWhiteSpace`: the Unicode space, line and paragraph separators,
      the tab, line feed, vertical tab, form feed, carriage return, next line
      and no-break space characters. */
  predicate IsWhiteSpace(c: char)
  {
    || ('\t' <= c <= '\r')
    || c == ' '
    || c == '\U{0085}'
    || c == '\U{00A0}'
    || c == '\U{1680}'
    || ('\U{2000}' <= c <= '\U{200A}')
    || c == '\U{2028}'
    || c == '\U{2029}'
    || c == '\U{202F}'
    || c == '\U{205F}'
    || c == '\U{3000}'
  }

  /** `string.IsNullOrWhiteSpace`: null, empty, or made of white space only. */
  predicate IsNullOrWhiteSpace(s: Option<string>)
  {
    s.None? || forall i :: 0 <= i < |s.value| ==> IsWhiteSpace(s.value[i])
  }

  /** `string.IsNullOrEmpty`: null or the empty string. */
  predicate IsNullOrEmpty(s: Option<string>)
  {
    s.None? || s.value == ""
  }
}
