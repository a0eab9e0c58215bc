/** The two display helpers of the post feed (project/src/pages/Dashboard.tsx):
    the excerpt shown under a title and the age label shown beside it.
    Strings are sequences of characters, each counted as one unit of
    `length`. Times are milliseconds since the epoch. */
module Dashboard {
  import opened Common

  const DefaultExcerptLength: int := 150
  const Ellipsis: string := "..."

  /** `getExcerpt(content, maxLength)`: the content when it fits, otherwise
      its first `maxLength` characters followed by "..." (`substring` treats
      a negative length as 0). */
  function Excerpt(content: string, maxLength: int := DefaultExcerptLength): (r: string)
    ensures |content| <= maxLength ==> r == content
    ensures |content| > maxLength >= 0 ==> |r| == maxLength + |Ellipsis|
    ensures |content| > maxLength ==>
              var kept := if maxLength < 0 then 0 else maxLength;
              r[..kept] == content[..kept] && r[kept..] == Ellipsis
  {
    if |content| <= maxLength then content
    else content[..if maxLength < 0 then 0 else maxLength] + Ellipsis
  }

  const DayMs: int := 1000 * 60 * 60 * 24

  /** `Math.floor((now - date) / DayMs)`. The quotient of two integral
      doubles of timestamp size is never rounded onto an integer, so this is
      floor division, which Dafny's `/` is for a positive divisor. */
  function DaysBetween(dateMs: int, nowMs: int): (days: int)
    ensures days * DayMs <= nowMs - dateMs < (days + 1) * DayMs
  {
    (nowMs - dateMs) / DayMs
  }

  function DigitChar(d: nat): char
    requires d < 10
  {
    ('0' as int + d) as char
  }

  /** The decimal numeral of a natural number, as JavaScript prints it. */
  function NatToString(n: nat): (s: string)
    ensures |s| >= 1
    ensures forall i :: 0 <= i < |s| ==> '0' <= s[i] <= '9'
    ensures n < 10 <==> |s| == 1
    ensures n > 0 ==> s[0] != '0'
  {
    if n < 10 then [DigitChar(n)] else NatToString(n / 10) + [DigitChar(n % 10)]
  }

  /** Reading the numeral back gives the number. */
  function DecimalValue(s: string): int
  {
    if s == [] then 0 else DecimalValue(s[..|s| - 1]) * 10 + (s[|s| - 1] as int - '0' as int)
  }

  lemma {:induction false} NatToStringRoundTrip(n: nat)
    ensures DecimalValue(NatToString(n)) == n
  {
    if n >= 10 {
      var s := NatToString(n);
      assert s[..|s| - 1] == NatToString(n / 10);
      assert s[|s| - 1] as int - '0' as int == n % 10;
      NatToStringRoundTrip(n / 10);
      assert n == (n / 10) * 10 + n % 10;
    }
  }

  /** A template literal's rendering of an integer: a minus sign for negatives. */
  function IntToString(n: int): (s: string)
    ensures n >= 0 ==> s == NatToString(n)
    ensures n < 0 ==> s == "-" + NatToString(-n)
    ensures n < 0 <==> s[0] == '-'
    ensures var digits := if n < 0 then s[1..] else s;
            && |digits| >= 1 && (forall i :: 0 <= i < |digits| ==> '0' <= digits[i] <= '9')
            && DecimalValue(digits) == if n < 0 then -n else n
  {
    NatToStringRoundTrip(if n < 0 then -n else n);
    if n >= 0 then NatToString(n) else "-" + NatToString(-n)
  }

  /** The label: fixed words for today and yesterday, `<n>d ago` below a
      week (future dates give negative counts and land here too), and the
      locale date from seven days on. An unparsable date gives NaN, which
      fails every comparison and so reaches the locale branch. */
  datatype DateLabel = Words(text: string) | LocaleDate(dateMs: Option<int>)

  function FormatDate(dateMs: Option<int>, nowMs: int): (tag: DateLabel)
    ensures dateMs.None? ==> tag == LocaleDate(None)
    ensures dateMs.Some? ==>
              var days := DaysBetween(dateMs.value, nowMs);
              && (days == 0 <==> tag == Words("Today"))
              && (days == 1 <==> tag == Words("Yesterday"))
              && (days != 0 && days != 1 && days < 7 <==> tag == Words(IntToString(days) + "d ago"))
              && (days >= 7 <==> tag == LocaleDate(dateMs))
  {
    if dateMs.None? then LocaleDate(None)
    else
      var days := DaysBetween(dateMs.value, nowMs);
      if days == 0 then Words("Today")
      else if days == 1 then Words("Yesterday")
      else if days < 7 then
        var text := IntToString(days) + "d ago";
        assert text[|text| - 1] == 'o';
        Words(text)
      else LocaleDate(dateMs)
  }

  /** Any date after `now`, however slightly, is labelled "-<n>d ago" with
      n >= 1: the floor of a negative quotient. */
  lemma FutureDateIsNegativeDaysAgo(dateMs: int, nowMs: int)
    requires dateMs > nowMs
    ensures DaysBetween(dateMs, nowMs) <= -1
    ensures var n := -DaysBetween(dateMs, nowMs);
            FormatDate(Some(dateMs), nowMs) == Words("-" + NatToString(n) + "d ago")
  {
  }

  /** A date between two and six whole days back is labelled with its one
      digit. */
  lemma RecentDateLabel(dateMs: int, nowMs: int, days: int)
    requires 2 <= days < 7
    requires days * DayMs <= nowMs - dateMs < (days + 1) * DayMs
    ensures FormatDate(Some(dateMs), nowMs) == Words([DigitChar(days)] + "d ago")
  {
    assert DaysBetween(dateMs, nowMs) == days;
  }
}
