/**
 * The album-detail screen's state holder and its duration formatter.
 */
module AlbumDetail {
  import opened Wrappers
  import opened Flows
  import opened Models

  // --- Kotlin `Long` division --------------------------------------------------

  /** Kotlin's `/` on integers: the quotient rounded toward zero. */
  function Quot(a: int, b: int): int
    requires b > 0
  {
    if a >= 0 then a / b else -((-a) / b)
  }

  /** Kotlin's `%` on integers: the remainder takes the sign of `a`. */
  function Rem(a: int, b: int): (r: int)
    requires b > 0
    ensures a == b * Quot(a, b) + r
    ensures a >= 0 ==> 0 <= r < b
    ensures a < 0 ==> -b < r <= 0
  {
    if a >= 0 then a % b else -((-a) % b)
  }

  // --- decimal text --------------------------------------------------------------

  function DigitChar(d: nat): char
    requires d < 10
  {
    ('0' as int + d) as char
  }

  predicate IsDigit(c: char) {
    '0' <= c <= '9'
  }

  predicate AllDigits(s: string) {
    forall i :: 0 <= i < |s| ==> IsDigit(s[i])
  }

  /** The decimal digits of `n`, without leading zeros. */
  function Digits(n: nat): string
  {
    if n < 10 then [DigitChar(n)] else Digits(n / 10) + [DigitChar(n % 10)]
  }

  /** The number a string of decimal digits denotes. */
  function Value(s: string): nat
    requires AllDigits(s)
  {
    if s == [] then 0 else Value(s[..|s| - 1]) * 10 + (s[|s| - 1] as int - '0' as int)
  }

  /** `String.format("%02d", n)`: at least two characters, zero-padded after
      any minus sign. */
  function Pad2(n: int): string {
    if 0 <= n < 10 then "0" + Digits(n)
    else if n >= 10 then Digits(n)
    else "-" + Digits(-n)
  }

  lemma {:induction false} DigitsDenote(n: nat)
    ensures AllDigits(Digits(n)) && Value(Digits(n)) == n
    ensures 1 <= |Digits(n)|
    ensures n < 10 ==> |Digits(n)| == 1
    ensures 10 <= n < 100 ==> |Digits(n)| == 2
    ensures n >= 10 ==> |Digits(n)| >= 2
  {
    if n >= 10 {
      DigitsDenote(n / 10);
      var s := Digits(n);
      assert s[..|s| - 1] == Digits(n / 10);
    }
  }

  lemma {:induction false} LeadingZeroValue(s: string)
    requires AllDigits(s)
    ensures AllDigits("0" + s) && Value("0" + s) == Value(s)
  {
    if s != [] {
      var z := "0" + s;
      assert z[..|z| - 1] == "0" + s[..|s| - 1];
      LeadingZeroValue(s[..|s| - 1]);
    }
  }

  /** A non-negative field prints as at least two digits denoting it,
      exactly two below 100. */
  lemma Pad2Denotes(n: int)
    requires n >= 0
    ensures AllDigits(Pad2(n)) && Value(Pad2(n)) == n
    ensures |Pad2(n)| >= 2
    ensures n < 100 ==> |Pad2(n)| == 2
  {
    DigitsDenote(n);
    if n < 10 {
      LeadingZeroValue(Digits(n));
    }
  }

  // --- the formatter ----------------------------------------------------------------

  /** `seconds`, `minutes` and `hours` of `getDurationAsFormatTimeString`. */
  datatype Clock = Clock(hours: int, minutes: int, seconds: int)

  /** The decomposition of a number of seconds; it adds back up to the
      input, and for a non-negative input minutes and seconds are below 60. */
  function Decompose(secondsDuration: int): (c: Clock)
    ensures c.hours * 3600 + c.minutes * 60 + c.seconds == secondsDuration
    ensures secondsDuration >= 0 ==>
              c.hours == secondsDuration / 3600 && 0 <= c.minutes < 60 && 0 <= c.seconds < 60
    ensures 0 <= secondsDuration < 3600 ==> c.hours == 0
    ensures secondsDuration >= 3600 ==> c.hours >= 1
    ensures secondsDuration < 0 ==>
              c.hours <= 0 && -60 < c.minutes <= 0 && -60 < c.seconds <= 0
  {
    var seconds := Rem(secondsDuration, 60);
    var minutes := Quot(Rem(secondsDuration, 3600), 60);
    var hours := Quot(secondsDuration, 3600);
    RemOfRem(secondsDuration);
    Clock(hours, minutes, seconds)
  }

  /** Since 60 divides 3600, the remainder by 60 of the remainder by 3600 is
      the remainder by 60. */
  lemma RemOfRem(a: int)
    ensures Rem(Rem(a, 3600), 60) == Rem(a, 60)
    ensures Quot(Rem(a, 3600), 60) * 60 + Rem(a, 60) == Rem(a, 3600)
  {
    var r := Rem(a, 3600);
    var q := Quot(a, 3600);
    assert a == 3600 * q + r;
    if a >= 0 {
      assert 0 <= r < 3600;
      assert a == 60 * (60 * q + r / 60) + r % 60;
      ModUnique60(a, 60 * q + r / 60, r % 60);
    } else {
      assert -3600 < r <= 0;
      assert -a == 60 * (-60 * q + (-r) / 60) + (-r) % 60;
      ModUnique60(-a, -60 * q + (-r) / 60, (-r) % 60);
    }
  }

  lemma ModUnique60(a: int, q: int, r: int)
    requires 0 <= r < 60 && a == 60 * q + r
    ensures a % 60 == r && a / 60 == q
  {
  }

  /** `getDurationAsFormatTimeString(totalDuration)`. `inWholeSeconds` of
      a duration of `totalDuration` seconds is `totalDuration` itself. */
  function FormatDuration(totalDuration: int): string {
    ClockText(Decompose(totalDuration))
  }

  /** The `String.format` step: `%02d:%02d:%02d` with hours, `%02d:%02d` without. */
  function ClockText(c: Clock): string {
    if c.hours > 0 then HoursText(c) else MinutesText(c)
  }

  function HoursText(c: Clock): string
    requires c.hours > 0
  {
    Pad2(c.hours) + ":" + Pad2(c.minutes) + ":" + Pad2(c.seconds)
  }

  function MinutesText(c: Clock): string
    requires c.hours <= 0
  {
    Pad2(c.minutes) + ":" + Pad2(c.seconds)
  }

  /** Reads a duration back from `MM:SS` or `H…H:MM:SS` text. */
  function ParseDuration(t: string): Option<int> {
    if |t| == 5 then ParseMinutesForm(t)
    else if |t| >= 8 then ParseHoursForm(t)
    else None
  }

  /** `MM:SS`: two digits, a colon, two digits. */
  function ParseMinutesForm(t: string): Option<int>
    requires |t| == 5
  {
    if t[2] == ':' && AllDigits(t[..2]) && AllDigits(t[3..]) then Some(Value(t[..2]) * 60 + Value(t[3..]))
    else None
  }

  /** `H…H:MM:SS`: at least two digits, a colon, two digits, a colon, two digits. */
  function ParseHoursForm(t: string): Option<int>
    requires |t| >= 8
  {
    if t[|t| - 6] == ':' && t[|t| - 3] == ':'
       && AllDigits(t[..|t| - 6]) && AllDigits(t[|t| - 5..|t| - 3]) && AllDigits(t[|t| - 2..]) then
      Some(Value(t[..|t| - 6]) * 3600 + Value(t[|t| - 5..|t| - 3]) * 60 + Value(t[|t| - 2..]))
    else None
  }

  /** Text whose fields sit where the `MM:SS` form expects them reads back
      as those fields. */
  lemma ParseMinutesFields(t: string, m: string, s: string)
    requires AllDigits(m) && AllDigits(s) && |m| == 2 && |s| == 2
    requires |t| == 5 && t[2] == ':' && t[..2] == m && t[3..] == s
    ensures ParseDuration(t) == Some(Value(m) * 60 + Value(s))
  {
    assert AllDigits(t[..2]) && AllDigits(t[3..]);
    assert ParseDuration(t) == ParseMinutesForm(t);
  }

  /** `MM:SS` text reads back as its minutes and seconds. */
  lemma ParseMinutesSeconds(m: string, s: string)
    requires AllDigits(m) && AllDigits(s) && |m| == 2 && |s| == 2
    ensures |m + ":" + s| == 5
    ensures ParseDuration(m + ":" + s) == Some(Value(m) * 60 + Value(s))
  {
    var t := m + ":" + s;
    assert t[..2] == m;
    assert t[3..] == s;
    ParseMinutesFields(t, m, s);
  }

  /** Text whose fields sit where the `H…H:MM:SS` form expects them reads
      back as those fields. */
  lemma ParseHoursFields(t: string, h: string, m: string, s: string)
    requires AllDigits(h) && AllDigits(m) && AllDigits(s) && |h| >= 2 && |m| == 2 && |s| == 2
    requires |t| >= 8 && t[|t| - 6] == ':' && t[|t| - 3] == ':'
    requires t[..|t| - 6] == h && t[|t| - 5..|t| - 3] == m && t[|t| - 2..] == s
    ensures ParseDuration(t) == Some(Value(h) * 3600 + Value(m) * 60 + Value(s))
  {
    assert AllDigits(t[..|t| - 6]) && AllDigits(t[|t| - 5..|t| - 3]) && AllDigits(t[|t| - 2..]);
    assert ParseDuration(t) == ParseHoursForm(t);
  }

  /** `H…H:MM:SS` text reads back as its hours, minutes and seconds. */
  lemma ParseHoursMinutesSeconds(h: string, m: string, s: string)
    requires AllDigits(h) && AllDigits(m) && AllDigits(s) && |h| >= 2 && |m| == 2 && |s| == 2
    ensures |h + ":" + m + ":" + s| >= 8
    ensures ParseDuration(h + ":" + m + ":" + s) == Some(Value(h) * 3600 + Value(m) * 60 + Value(s))
  {
    var t := h + ":" + m + ":" + s;
    assert t[..|t| - 6] == h;
    assert t[|t| - 5..|t| - 3] == m;
    assert t[|t| - 2..] == s;
    ParseHoursFields(t, h, m, s);
  }

  /** A clock with non-negative fields, minutes and seconds below 60, reads
      back from its text; the text is `MM:SS` without hours and at least
      `HH:MM:SS` with them. */
  lemma ClockTextRoundTrip(c: Clock)
    requires c.hours >= 0 && 0 <= c.minutes < 60 && 0 <= c.seconds < 60
    ensures ParseDuration(ClockText(c)) == Some(c.hours * 3600 + c.minutes * 60 + c.seconds)
    ensures c.hours == 0 ==> |ClockText(c)| == 5
    ensures c.hours > 0 ==> |ClockText(c)| >= 8
  {
    if c.hours > 0 {
      HoursTextRoundTrip(c);
    } else {
      MinutesTextRoundTrip(c);
    }
  }

  lemma HoursTextRoundTrip(c: Clock)
    requires c.hours > 0 && 0 <= c.minutes < 60 && 0 <= c.seconds < 60
    ensures ParseDuration(HoursText(c)) == Some(c.hours * 3600 + c.minutes * 60 + c.seconds)
    ensures |HoursText(c)| >= 8
  {
    Pad2Denotes(c.hours);
    Pad2Denotes(c.minutes);
    Pad2Denotes(c.seconds);
    ParseHoursMinutesSeconds(Pad2(c.hours), Pad2(c.minutes), Pad2(c.seconds));
  }

  lemma MinutesTextRoundTrip(c: Clock)
    requires c.hours == 0 && 0 <= c.minutes < 60 && 0 <= c.seconds < 60
    ensures ParseDuration(MinutesText(c)) == Some(c.minutes * 60 + c.seconds)
    ensures |MinutesText(c)| == 5
  {
    Pad2Denotes(c.minutes);
    Pad2Denotes(c.seconds);
    ParseMinutesSeconds(Pad2(c.minutes), Pad2(c.seconds));
  }

  /** Every non-negative duration reads back from its text: the format loses
      nothing. Under an hour it is `MM:SS` (5 characters), from an hour on
      `HH:MM:SS` or longer (at least 8), every field at least two digits. */
  lemma FormatDurationRoundTrip(d: int)
    requires d >= 0
    ensures ParseDuration(FormatDuration(d)) == Some(d)
    ensures d < 3600 ==> |FormatDuration(d)| == 5
    ensures d >= 3600 ==> |FormatDuration(d)| >= 8
  {
    ClockTextRoundTrip(Decompose(d));
  }

  /** The two durations the tests use. */
  lemma FormatDurationExamples()
    ensures FormatDuration(150) == "02:30"
    ensures FormatDuration(5400) == "01:30:00"
  {
    assert Decompose(150) == Clock(0, 2, 30);
    assert Digits(2) == "2" && Digits(30) == "30";
    assert Decompose(5400) == Clock(1, 30, 0);
    assert Digits(1) == "1" && Digits(0) == "0";
  }

  // --- the view model -----------------------------------------------------------------

  /** The album kept after collecting `items`: the last success, if any. */
  function LastSuccess(current: Option<DetailedAlbum>, items: seq<KResult<DetailedAlbum>>): (r: Option<DetailedAlbum>)
    ensures (forall i :: 0 <= i < |items| ==> items[i].Failure?) ==> r == current
    ensures forall j :: 0 <= j < |items| && items[j].Success? && (forall i :: j < i < |items| ==> items[i].Failure?)
                        ==> r == Some(items[j].value)
  {
    LastSuccessValues(items);
    var albums := Successes(items);
    if albums == [] then current else Some(albums[|albums| - 1])
  }

  class AlbumDetailsViewModel {
    var albumDetails: Option<DetailedAlbum>
    var isError: Option<bool>
    var isLoading: Option<bool>

    constructor ()
      ensures albumDetails == None && isError == None && isLoading == None
    {
      albumDetails, isError, isLoading := None, None, None;
    }

    /** `getAlbumDetails(artist, album)`: loading is set first and cleared by
        a success value (which is stored) or by an upstream throwable (which
        sets the error flag); a failure value changes nothing. `details` is
        the repository's album-details read. */
    method GetAlbumDetails(artist: string, album: string, details: (string, string) -> Flow<KResult<DetailedAlbum>>)
      modifies this
      ensures var f := details(artist, album);
              && albumDetails == LastSuccess(old(albumDetails), f.emitted)
              && isLoading == Some(Successes(f.emitted) == [] && f.failure.None?)
              && isError == if f.failure.Some? then Some(true) else old(isError)
    {
      isLoading := Some(true);
      CollectAlbumDetails(details(artist, album));
    }

    /** The `.catch` and `.collect` of `getAlbumDetails`. */
    method CollectAlbumDetails(flow: Flow<KResult<DetailedAlbum>>)
      modifies this
      ensures albumDetails == LastSuccess(old(albumDetails), flow.emitted)
      ensures isLoading == if Successes(flow.emitted) != [] || flow.failure.Some? then Some(false) else old(isLoading)
      ensures isError == if flow.failure.Some? then Some(true) else old(isError)
    {
      ghost var start, loading := albumDetails, isLoading;
      for i := 0 to |flow.emitted|
        invariant albumDetails == LastSuccess(start, flow.emitted[..i])
        invariant isLoading == if Successes(flow.emitted[..i]) != [] then Some(false) else loading
        invariant isError == old(isError)
      {
        ghost var before := Successes(flow.emitted[..i]);
        SuccessesPrefixStep(flow.emitted, i);
        var result := flow.emitted[i];
        if result.Success? {
          isLoading := Some(false);
          albumDetails := Some(result.value);
        } else {
          assert before + [] == before;
        }
      }
      assert flow.emitted[..|flow.emitted|] == flow.emitted;
      if flow.failure.Some? {
        isError := Some(true);
        isLoading := Some(false);
      }
    }
  }
}
