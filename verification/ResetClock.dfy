/** The reset time a rate-limit message names: reading the clause, and the next
    occurrence of its clock time. Instants are nanoseconds since the Unix epoch. */
module ResetClock {
  import opened Common

  const SECOND: int := 1_000_000_000
  const DAY: int := 86_400 * SECOND

  datatype Clock = Clock(hour: nat, minute: nat, second: nat) {
    predicate Valid() { hour <= 23 && minute <= 59 && second <= 59 }

    function Offset(): int { (hour * 3600 + minute * 60 + second) * SECOND }
  }

  const OPENING := "(at "
  const CLOSING := " UTC)"

  // ---- reading the clause ----

  /** The first occurrence of a pattern. */
  function Find(s: string, pat: string): (at: Option<nat>)
    ensures at.Some? ==> at.value <= |s| && pat <= s[at.value..]
    ensures at.Some? ==> forall k :: 0 <= k < at.value ==> !(pat <= s[k..])
    ensures at.None? ==> forall k :: 0 <= k <= |s| ==> !(pat <= s[k..])
  {
    if pat <= s then Some(0)
    else if s == [] then None
    else
      var rest := Find(s[1..], pat);
      assert forall k :: 0 < k <= |s| ==> s[k..] == s[1..][k - 1..];
      if rest.None? then None else Some(rest.value + 1)
  }

  /** Unicode white space. */
  predicate IsSpace(c: char) {
    || c in {'\t', '\n', '\U{B}', '\U{C}', '\r', ' ', '\U{85}', '\U{A0}', '\U{1680}'}
    || '\U{2000}' <= c <= '\U{200A}'
    || c in {'\U{2028}', '\U{2029}', '\U{202F}', '\U{205F}', '\U{3000}'}
  }

  function TrimStart(s: string): string {
    if s != [] && IsSpace(s[0]) then TrimStart(s[1..]) else s
  }

  function TrimEnd(s: string): string {
    if s != [] && IsSpace(s[|s| - 1]) then TrimEnd(s[..|s| - 1]) else s
  }

  function Trim(s: string): string {
    TrimEnd(TrimStart(s))
  }

  function Split(s: string, sep: char): (parts: seq<string>)
    ensures parts != []
  {
    if s == [] then [[]]
    else
      var rest := Split(s[1..], sep);
      if s[0] == sep then [[]] + rest else [[s[0]] + rest[0]] + rest[1..]
  }

  predicate IsDigit(c: char) {
    '0' <= c <= '9'
  }

  function Value(digits: string): nat
    requires forall k :: 0 <= k < |digits| ==> IsDigit(digits[k])
  {
    if digits == [] then 0
    else
      assert IsDigit(digits[|digits| - 1]);
      Value(digits[..|digits| - 1]) * 10 + (digits[|digits| - 1] as int - '0' as int)
  }

  /** Bare digits, 0 to 255. */
  function ParseU8(text: string): Option<nat> {
    if text == [] || exists k :: 0 <= k < |text| && !IsDigit(text[k]) then None
    else if Value(text) > 255 then None
    else Some(Value(text))
  }

  function ClockFields(parts: seq<string>): Option<Clock> {
    if |parts| == 2 then
      var h, m := ParseU8(parts[0]), ParseU8(parts[1]);
      if h.Some? && m.Some? then Some(Clock(h.value, m.value, 0)) else None
    else if |parts| == 3 then
      var h, m, s := ParseU8(parts[0]), ParseU8(parts[1]), ParseU8(parts[2]);
      if h.Some? && m.Some? && s.Some? then Some(Clock(h.value, m.value, s.value)) else None
    else None
  }

  /** The clock time a message names, if its clause is there and readable. */
  function ClockOf(message: string): (c: Option<Clock>)
    ensures c.Some? ==> c.value.Valid()
  {
    var opening := Find(message, OPENING);
    if opening.None? then None
    else
      var rest := message[opening.value + |OPENING|..];
      var closing := Find(rest, CLOSING);
      if closing.None? then None
      else
        var fields := ClockFields(Split(Trim(rest[..closing.value]), ':'));
        if fields.Some? && fields.value.Valid() then fields else None
  }

  // ---- the next occurrence ----

  function SecondOfDay(at: int): int {
    at % DAY / SECOND
  }

  /** The instant is that time of day in UTC, to the second. */
  predicate Shows(at: int, c: Clock) {
    && at % SECOND == 0
    && SecondOfDay(at) / 3600 == c.hour && SecondOfDay(at) / 60 % 60 == c.minute && SecondOfDay(at) % 60 == c.second
  }

  /** `at` is the next time the clock shows `c`. */
  predicate IsNext(c: Clock, now: int, at: int) {
    now < at <= now + DAY && Shows(at, c)
  }

  lemma Quotient(a: int, m: int, q: int, r: int)
    requires 0 <= r < m && a == q * m + r
    ensures a / m == q && a % m == r
  {
    var d := a / m - q;
    assert d * m == r - a % m;
    assert d > 0 ==> d * m >= m;
    assert d < 0 ==> d * m <= -m;
  }

  /** The seconds of the day, and what is left under one. */
  lemma WithinDay(at: int)
    ensures at % DAY == SecondOfDay(at) * SECOND + at % SECOND
  {
    var r := at % DAY % SECOND;
    assert at == (at / DAY * 86_400 + SecondOfDay(at)) * SECOND + r;
    Quotient(at, SECOND, at / DAY * 86_400 + SecondOfDay(at), r);
  }

  lemma TimeOfDay(s: int, hour: int, minute: int, second: int)
    requires 0 <= minute <= 59 && 0 <= second <= 59
    ensures s == hour * 3600 + minute * 60 + second <==> s / 3600 == hour && s / 60 % 60 == minute && s % 60 == second
  {
  }

  lemma ShowsOffset(at: int, c: Clock)
    requires Shows(at, c)
    ensures at % DAY == c.Offset()
  {
    WithinDay(at);
    TimeOfDay(SecondOfDay(at), c.hour, c.minute, c.second);
  }

  lemma OffsetShows(at: int, c: Clock)
    requires c.Valid() && at % DAY == c.Offset()
    ensures Shows(at, c)
  {
    var s := c.hour * 3600 + c.minute * 60 + c.second;
    Quotient(at % DAY, SECOND, s, 0);
    WithinDay(at);
    TimeOfDay(s, c.hour, c.minute, c.second);
  }

  /** There is only one. */
  lemma NextIsUnique(c: Clock, now: int, a: int, b: int)
    requires IsNext(c, now, a) && IsNext(c, now, b)
    ensures a == b
  {
    ShowsOffset(a, c);
    ShowsOffset(b, c);
    assert a == (a / DAY) * DAY + a % DAY && b == (b / DAY) * DAY + b % DAY;
    assert -1 < a / DAY - b / DAY < 1;
  }

  lemma OffsetWithinDay(c: Clock)
    requires c.Valid()
    ensures 0 <= c.Offset() < DAY
  {
  }

  lemma OnThatDay(midnight: int, offset: int)
    requires midnight % DAY == 0 && 0 <= offset < DAY
    ensures (midnight + offset) % DAY == offset && (midnight + offset + DAY) % DAY == offset
  {
    var d := midnight / DAY;
    assert midnight + offset == d * DAY + offset;
    assert midnight + offset + DAY == (d + 1) * DAY + offset;
  }

  /** Today at the clock's time, or tomorrow if that has passed. */
  method NextOccurrence(c: Clock, now: int) returns (at: int, days: nat)
    requires c.Valid()
    ensures IsNext(c, now, at) && days <= 1
  {
    var midnight := now - now % DAY;
    at, days := midnight + c.Offset(), 0;
    OffsetWithinDay(c);
    assert midnight % DAY == 0 by { assert midnight == (now / DAY) * DAY; }
    OnThatDay(midnight, c.Offset());
    OffsetShows(midnight + c.Offset(), c);
    OffsetShows(midnight + c.Offset() + DAY, c);
    while at <= now
      invariant at == midnight + c.Offset() + days * DAY && days <= 1
      invariant days == 1 ==> midnight + c.Offset() <= now
      decreases now - at
    {
      at := at + DAY;
      days := days + 1;
    }
  }

  /** The reset time: the named clock's next occurrence, found in at most one step
      of the day loop. */
  method ParseResetAt(message: string, now: int) returns (r: Option<int>, days: nat)
    ensures r.Some? <==> ClockOf(message).Some?
    ensures r.Some? ==> IsNext(ClockOf(message).value, now, r.value)
    ensures days <= 1
  {
    days := 0;
    var clock := ClockOf(message);
    if clock.None? { return None, 0; }
    var at;
    at, days := NextOccurrence(clock.value, now);
    r := Some(at);
  }

  // ---- a printed clause reads back ----

  function Digit(n: nat): char
    requires n <= 9
  {
    '0' + n as char
  }

  function TwoDigits(n: nat): string
    requires n <= 99
  {
    [Digit(n / 10), Digit(n % 10)]
  }

  /** The clock as a provider prints it, with or without the seconds. */
  function ClockText(c: Clock, seconds: bool): string
    requires c.Valid()
  {
    TwoDigits(c.hour) + ":" + TwoDigits(c.minute) + if seconds then ":" + TwoDigits(c.second) else ""
  }

  lemma TwoDigitsReadBack(n: nat)
    requires n <= 99
    ensures ParseU8(TwoDigits(n)) == Some(n)
  {
    var t := TwoDigits(n);
    assert t[..1] == [Digit(n / 10)];
    assert Value(t[..1]) == n / 10 by { assert t[..1][..0] == []; }
    assert Value(t) == n / 10 * 10 + n % 10;
  }

  /** A field up to its separator is a part of its own. */
  lemma {:induction false} SplitField(a: string, rest: string, sep: char)
    requires sep !in a
    ensures Split(a + [sep] + rest, sep) == [a] + Split(rest, sep)
  {
    var s := a + [sep] + rest;
    if a == [] {
      assert s[1..] == rest;
    } else {
      assert s[1..] == a[1..] + [sep] + rest;
      SplitField(a[1..], rest, sep);
      assert [s[0]] + a[1..] == a;
    }
  }

  lemma {:induction false} SplitLast(a: string, sep: char)
    requires sep !in a
    ensures Split(a, sep) == [a]
  {
    if a != [] {
      SplitLast(a[1..], sep);
      assert [a[0]] + a[1..] == a;
    }
  }

  lemma NoSpaceInDigits(n: nat)
    requires n <= 99
    ensures forall k :: 0 <= k < 2 ==> !IsSpace(TwoDigits(n)[k]) && TwoDigits(n)[k] != ':' && TwoDigits(n)[k] != 'U'
  {
  }

  lemma TrimLeaves(s: string)
    requires s != [] && !IsSpace(s[0]) && !IsSpace(s[|s| - 1])
    ensures Trim(s) == s
  {
  }

  lemma ClockFieldsReadBack(c: Clock, seconds: bool)
    requires c.Valid()
    ensures ClockFields(Split(ClockText(c, seconds), ':')) == Some(if seconds then c else c.(second := 0))
  {
    var h, m, s := TwoDigits(c.hour), TwoDigits(c.minute), TwoDigits(c.second);
    TwoDigitsReadBack(c.hour);
    TwoDigitsReadBack(c.minute);
    TwoDigitsReadBack(c.second);
    if seconds {
      assert ClockText(c, true) == h + [':'] + (m + [':'] + s);
      SplitField(h, m + [':'] + s, ':');
      SplitField(m, s, ':');
      SplitLast(s, ':');
    } else {
      assert ClockText(c, false) == h + [':'] + m;
      SplitField(h, m, ':');
      SplitLast(m, ':');
    }
  }

  lemma ClockTextIsTight(c: Clock, seconds: bool)
    requires c.Valid()
    ensures ClockText(c, seconds) != [] && Trim(ClockText(c, seconds)) == ClockText(c, seconds)
    ensures !IsSpace(ClockText(c, seconds)[0]) && !IsSpace(ClockText(c, seconds)[|ClockText(c, seconds)| - 1])
    ensures forall k :: 0 <= k < |ClockText(c, seconds)| ==> ClockText(c, seconds)[k] != 'U'
  {
    NoSpaceInDigits(c.hour);
    NoSpaceInDigits(c.minute);
    NoSpaceInDigits(c.second);
    var text := ClockText(c, seconds);
    assert text[0] == TwoDigits(c.hour)[0];
    assert text[|text| - 1] == (if seconds then TwoDigits(c.second) else TwoDigits(c.minute))[1];
    TrimLeaves(text);
  }

  lemma FoundAt(s: string, pat: string, k: nat)
    requires k <= |s| && pat <= s[k..] && forall j :: 0 <= j < k ==> !(pat <= s[j..])
    ensures Find(s, pat) == Some(k)
  {
  }

  /** Inside the text before it, an opening would be that text's own. */
  lemma OpeningInside(before: string, rest: string, j: nat)
    requires j + 4 <= |before| && !(OPENING <= before[j..])
    ensures !(OPENING <= (before + rest)[j..])
  {
    assert (before + rest)[j..] == before[j..] + rest;
    assert (before[j..] + rest)[..4] == before[j..][..4];
  }

  /** The opening begins with a character it does not repeat, so none straddles the
      end of that text. */
  lemma OpeningStraddles(before: string, rest: string, j: nat)
    requires j < |before| < j + 4 && rest != [] && rest[0] == OPENING[0]
    ensures !(OPENING <= (before + rest)[j..])
  {
    var tail := (before + rest)[j..];
    var k := |before| - j;
    assert tail[k] == rest[0];
    assert k == 1 || k == 2 || k == 3;
    assert OPENING[k] != tail[k];
  }

  lemma OpeningFound(before: string, rest: string)
    requires Find(before, OPENING).None?
    ensures Find(before + OPENING + rest, OPENING) == Some(|before|)
  {
    var message := before + OPENING + rest;
    assert message[|before|..] == OPENING + rest;
    assert message == before + (OPENING + rest);
    forall j: nat | j < |before| ensures !(OPENING <= message[j..]) {
      if j + 4 <= |before| {
        OpeningInside(before, OPENING + rest, j);
      } else {
        OpeningStraddles(before, OPENING + rest, j);
      }
    }
    FoundAt(message, OPENING, |before|);
  }

  lemma ClosingFound(text: string, after: string)
    requires forall k :: 0 <= k < |text| ==> text[k] != 'U'
    ensures Find(text + CLOSING + after, CLOSING) == Some(|text|)
  {
    var rest := text + CLOSING + after;
    assert rest[|text|..] == CLOSING + after;
    forall j: nat | j < |text| ensures !(CLOSING <= rest[j..]) {
      assert rest[j..][1] == rest[j + 1] && rest[j + 1] != CLOSING[1];
    }
    FoundAt(rest, CLOSING, |text|);
  }

  /** The clause's text, once its two ends are found. */
  lemma ClockBetween(before: string, between: string, after: string)
    requires Find(before, OPENING).None?
    requires forall k :: 0 <= k < |between| ==> between[k] != 'U'
    ensures var fields := ClockFields(Split(Trim(between), ':'));
      ClockOf(before + OPENING + (between + CLOSING + after))
        == if fields.Some? && fields.value.Valid() then fields else None
  {
    var rest := between + CLOSING + after;
    var message := before + OPENING + rest;
    OpeningFound(before, rest);
    assert message[|before| + |OPENING|..] == rest;
    ClosingFound(between, after);
    assert rest[..|between|] == between;
  }

  ghost predicate AllSpace(s: string) {
    forall k :: 0 <= k < |s| ==> IsSpace(s[k])
  }

  lemma {:induction false} TrimStartPadded(left: string, s: string)
    requires AllSpace(left)
    ensures TrimStart(left + s) == TrimStart(s)
  {
    if left == [] {
      assert left + s == s;
    } else {
      assert (left + s)[1..] == left[1..] + s;
      TrimStartPadded(left[1..], s);
    }
  }

  lemma {:induction false} TrimEndPadded(s: string, right: string)
    requires AllSpace(right)
    ensures TrimEnd(s + right) == TrimEnd(s)
  {
    if right == [] {
      assert s + right == s;
    } else {
      assert (s + right)[..|s + right| - 1] == s + right[..|right| - 1];
      TrimEndPadded(s, right[..|right| - 1]);
    }
  }

  lemma TrimPadded(left: string, text: string, right: string)
    requires AllSpace(left) && AllSpace(right)
    requires text != [] && !IsSpace(text[0]) && !IsSpace(text[|text| - 1])
    ensures Trim(left + text + right) == text
  {
    assert left + text + right == left + (text + right);
    TrimStartPadded(left, text + right);
    assert (text + right)[0] == text[0];
    TrimEndPadded(text, right);
  }

  /** Printing a clock into any message and parsing it gives the clock back, whatever
      white space stands around it, unless the text before the clause holds an opening of
      its own. */
  lemma ClauseReadsBack(before: string, left: string, c: Clock, seconds: bool, right: string, after: string)
    requires c.hour <= 23 && c.minute <= 59 && c.second <= 59
    requires Find(before, OPENING).None? && AllSpace(left) && AllSpace(right)
    ensures ClockOf(before + OPENING + (left + ClockText(c, seconds) + right + CLOSING + after))
      == Some(if seconds then c else c.(second := 0))
  {
    var text := ClockText(c, seconds);
    ClockTextIsTight(c, seconds);
    TrimPadded(left, text, right);
    ClockBetween(before, left + text + right, after);
    ClockFieldsReadBack(c, seconds);
  }

  // ---- nothing else is read ----

  function Joined(parts: seq<string>, sep: char): string
    requires parts != []
  {
    if |parts| == 1 then parts[0] else parts[0] + [sep] + Joined(parts[1..], sep)
  }

  lemma {:induction false} SplitJoins(s: string, sep: char)
    ensures Joined(Split(s, sep), sep) == s
  {
    if s != [] {
      var rest := Split(s[1..], sep);
      SplitJoins(s[1..], sep);
      if s[0] == sep {
        assert ([[]] + rest)[1..] == rest;
      } else {
        assert ([[s[0]] + rest[0]] + rest[1..])[1..] == rest[1..];
      }
    }
  }

  ghost predicate IsField(text: string, value: nat) {
    text != [] && (forall k :: 0 <= k < |text| ==> IsDigit(text[k])) && Value(text) == value
  }

  /** A clock is read only between the first opening and the first closing after it, from
      two or three fields of bare digits, spaces around them aside. */
  lemma OnlyClausesAreRead(message: string)
    returns (before: string, between: string, after: string, fields: seq<string>)
    requires ClockOf(message).Some?
    ensures message == before + OPENING + between + CLOSING + after
    ensures forall k :: 0 <= k < |before| ==> !(OPENING <= message[k..])
    ensures (|fields| == 2 || |fields| == 3) && Trim(between) == Joined(fields, ':')
    ensures var c := ClockOf(message).value;
      && IsField(fields[0], c.hour) && IsField(fields[1], c.minute)
      && (if |fields| == 3 then IsField(fields[2], c.second) else c.second == 0)
  {
    var at := Find(message, OPENING).value;
    var rest := message[at + |OPENING|..];
    var end := Find(rest, CLOSING).value;
    before, between, after := message[..at], rest[..end], rest[end + |CLOSING|..];
    CutAt(message, OPENING, at);
    CutAt(rest, CLOSING, end);
    ClauseIsWithin(before, between, after);
    fields := Split(Trim(between), ':');
    SplitJoins(Trim(between), ':');
    FieldsRead(fields);
  }

  lemma CutAt(s: string, pat: string, k: nat)
    requires k <= |s| && pat <= s[k..]
    ensures k + |pat| <= |s| && s == s[..k] + pat + s[k + |pat|..]
  {
    assert s[k..][..|pat|] == pat;
  }

  lemma ClauseIsWithin(before: string, between: string, after: string)
    ensures before + OPENING + (between + CLOSING + after) == before + OPENING + between + CLOSING + after
  {
  }

  lemma FieldsRead(fields: seq<string>)
    requires ClockFields(fields).Some?
    ensures |fields| == 2 || |fields| == 3
    ensures var c := ClockFields(fields).value;
      && IsField(fields[0], c.hour) && IsField(fields[1], c.minute)
      && (if |fields| == 3 then IsField(fields[2], c.second) else c.second == 0)
  {
  }
}
