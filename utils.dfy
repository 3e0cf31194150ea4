/**
 * The pure helpers of the dashboard: relative-time unit choice, invoice
 * number generation, status colours and status derivation, string helpers,
 * the percentage-change zero guard, the e-mail shape check and the date sort.
 * The clock (`Date.now()`, `new Date()`) and `Math.random()` are parameters.
 */
module Utils {
  import opened Wrappers
  import opened Database
  import opened JsString
  import JsArray

  // ---------------------------------------------------------------------------
  // getRelativeTime: unit selection

  datatype TimeUnit = Second | Minute | Hour | Day | Month | Year

  /** Seconds in one unit (a month is 30 days, a year 365). */
  function UnitSeconds(u: TimeUnit): (n: nat) {
    match u
    case Second => 1
    case Minute => 60
    case Hour => 3600
    case Day => 86400
    case Month => 2592000
    case Year => 31536000
  }

  /** The age, in seconds, from which the next larger unit is used instead of `u`. */
  function UnitLimit(u: TimeUnit): (n: nat)
    requires u != Year
  {
    match u
    case Second => 60
    case Minute => 3600
    case Hour => 86400
    case Day => 2592000
    case Month => 31536000
  }

  function UnitRank(u: TimeUnit): (n: nat) {
    match u
    case Second => 0
    case Minute => 1
    case Hour => 2
    case Day => 3
    case Month => 4
    case Year => 5
  }

  /** Whole seconds elapsed from `dateMs` to `nowMs`, rounded down. */
  function DiffInSeconds(nowMs: int, dateMs: int): (d: int)
    ensures d * 1000 <= nowMs - dateMs < d * 1000 + 1000
  {
    (nowMs - dateMs) / 1000
  }

  /** The unit `getRelativeTime` formats an age of `diff` seconds in. */
  function UnitFor(diff: int): (u: TimeUnit)
    ensures u == Second || UnitSeconds(u) <= diff
    ensures u == Year || diff < UnitLimit(u)
  {
    if diff < 60 then Second
    else if diff < 3600 then Minute
    else if diff < 86400 then Hour
    else if diff < 2592000 then Day
    else if diff < 31536000 then Month
    else Year
  }

  /** The two threshold conditions pick exactly one unit. */
  lemma UnitForUnique(diff: int, u: TimeUnit)
    requires u == Second || UnitSeconds(u) <= diff
    requires u == Year || diff < UnitLimit(u)
    ensures u == UnitFor(diff)
  {
  }

  /** An older date is never shown in a smaller unit. */
  lemma UnitForMonotone(d1: int, d2: int)
    requires d1 <= d2
    ensures UnitRank(UnitFor(d1)) <= UnitRank(UnitFor(d2))
  {
  }

  /** The arguments `getRelativeTime` passes to `Intl.RelativeTimeFormat.format`. */
  datatype RelativeTime = RelativeTime(value: int, unit: TimeUnit)

  function GetRelativeTime(dateMs: int, nowMs: int): (r: RelativeTime)
    ensures r.unit == UnitFor(DiffInSeconds(nowMs, dateMs))
    ensures r.unit == Second ==> r.value == -DiffInSeconds(nowMs, dateMs)
    ensures r.unit != Second ==>
      var n := -r.value;
      1 <= n && n * UnitSeconds(r.unit) <= DiffInSeconds(nowMs, dateMs) < (n + 1) * UnitSeconds(r.unit)
  {
    var diff := DiffInSeconds(nowMs, dateMs);
    if diff < 60 then RelativeTime(-diff, Second)
    else if diff < 3600 then RelativeTime(-(diff / 60), Minute)
    else if diff < 86400 then RelativeTime(-(diff / 3600), Hour)
    else if diff < 2592000 then RelativeTime(-(diff / 86400), Day)
    else if diff < 31536000 then RelativeTime(-(diff / 2592000), Month)
    else RelativeTime(-(diff / 31536000), Year)
  }

  // ---------------------------------------------------------------------------
  // generateInvoiceNumber

  predicate IsUpperBase36(c: char) { IsDigit(c) || IsAsciiUpper(c) }

  /** The characters of a list of base-36 digits. */
  function DigitString(digits: seq<nat>): (s: string)
    requires forall i :: 0 <= i < |digits| ==> digits[i] < 36
    ensures |s| == |digits|
  {
    seq(|digits|, i requires 0 <= i < |digits| => DigitChar(digits[i]))
  }

  /**
   * `Math.random().toString(36)` for a random number whose base-36 expansion is
   * `0.` followed by `fraction`; zero prints as `0`.
   */
  function RandomText(fraction: seq<nat>): (text: string)
    requires forall i :: 0 <= i < |fraction| ==> fraction[i] < 36
  {
    if fraction == [] then "0" else "0." + DigitString(fraction)
  }

  /** `Date.now().toString(36).toUpperCase()` */
  function TimestampPart(nowMs: nat): (s: string)
    ensures |s| >= 1
    ensures forall i :: 0 <= i < |s| ==> IsUpperBase36(s[i])
    ensures ParseDigits(s, 36) == nowMs
  {
    var lower := NumberToString(nowMs, 36);
    ParseNumberToString(nowMs, 36);
    ParseUpperCase(lower, 36);
    var upper := ToUpperCase(lower);
    assert forall i :: 0 <= i < |upper| ==> IsUpperBase36(upper[i]) by {
      forall i | 0 <= i < |upper| ensures IsUpperBase36(upper[i]) {
        assert DigitValue(lower[i]) < 36;
      }
    }
    upper
  }

  /** `Math.random().toString(36).substring(2, 6).toUpperCase()` */
  function RandomPart(fraction: seq<nat>): (s: string)
    requires forall i :: 0 <= i < |fraction| ==> fraction[i] < 36
    ensures |s| <= 4
    ensures s == ToUpperCase(DigitString(fraction[..if |fraction| < 4 then |fraction| else 4]))
    ensures forall i :: 0 <= i < |s| ==> IsUpperBase36(s[i])
  {
    var text := RandomText(fraction);
    var k := if |fraction| < 4 then |fraction| else 4;
    assert Substring(text, 2, 6) == DigitString(fraction[..k]) by {
      if fraction != [] {
        assert text[2..2 + k] == DigitString(fraction)[..k] == DigitString(fraction[..k]);
      }
    }
    ToUpperCase(Substring(text, 2, 6))
  }

  /** `generateInvoiceNumber(prefix)` at time `nowMs` with random expansion `fraction`. */
  function GenerateInvoiceNumber(prefix: string, nowMs: nat, fraction: seq<nat>): (r: string)
    requires forall i :: 0 <= i < |fraction| ==> fraction[i] < 36
    ensures var stamp := TimestampPart(nowMs);
      && |r| >= |prefix| + 1 + |stamp|
      && r[..|prefix|] == prefix
      && r[|prefix|] == '-'
      && r[|prefix| + 1..|prefix| + 1 + |stamp|] == stamp
      && ParseDigits(stamp, 36) == nowMs
      && r[|prefix| + 1 + |stamp|..] == RandomPart(fraction)
      && |r| <= |prefix| + 1 + |stamp| + 4
      && forall i :: |prefix| < i < |r| ==> r[i] == '-' || IsUpperBase36(r[i])
  {
    prefix + "-" + TimestampPart(nowMs) + RandomPart(fraction)
  }

  // ---------------------------------------------------------------------------
  // Status helpers

  /** `getStatusColor`: badge background and text classes. */
  function GetStatusColor(status: Status): (c: string)
    ensures c != ""
  {
    match status
    case Draft => "bg-gray-100 text-gray-600"
    case Sent => "bg-blue-100 text-blue-600"
    case Paid => "bg-green-100 text-green-600"
    case Overdue => "bg-red-100 text-red-600"
    case Cancelled => "bg-gray-100 text-gray-400"
  }

  /** `getStatusDotColor`: the status dot class. */
  function GetStatusDotColor(status: Status): (c: string)
    ensures c != ""
  {
    match status
    case Draft => "bg-orange-500"
    case Sent => "bg-blue-500"
    case Paid => "bg-green-500"
    case Overdue => "bg-red-500"
    case Cancelled => "bg-gray-400"
  }

  /** Every status has its own colour and its own dot colour. */
  lemma StatusColorsDistinct(s: Status, t: Status)
    requires s != t
    ensures GetStatusColor(s) != GetStatusColor(t)
    ensures GetStatusDotColor(s) != GetStatusDotColor(t)
  {
  }

  /** `checkInvoiceStatus(currentStatus, dueDate, isPaid)` evaluated at time `now`. */
  function CheckInvoiceStatus(currentStatus: Status, dueDate: int, isPaid: bool, now: int): (r: Status)
    ensures isPaid ==> r == Paid
    ensures !isPaid && (currentStatus == Cancelled || currentStatus == Draft) ==> r == currentStatus
    ensures !isPaid && currentStatus != Cancelled && currentStatus != Draft ==>
      (r == Overdue <==> dueDate < now) && (r == Sent <==> now <= dueDate)
  {
    if isPaid then Paid
    else if currentStatus == Cancelled then Cancelled
    else if currentStatus == Draft then Draft
    else if dueDate < now then Overdue
    else Sent
  }

  /** Only the payment flag yields `paid`: a `paid` row whose flag is off is demoted. */
  lemma PaidExactlyWhenFlagged(currentStatus: Status, dueDate: int, isPaid: bool, now: int)
    ensures CheckInvoiceStatus(currentStatus, dueDate, isPaid, now) == Paid <==> isPaid
  {
  }

  /** Re-deriving a derived status changes nothing. */
  lemma CheckInvoiceStatusIdempotent(currentStatus: Status, dueDate: int, isPaid: bool, now: int)
    ensures var s := CheckInvoiceStatus(currentStatus, dueDate, isPaid, now);
      CheckInvoiceStatus(s, dueDate, isPaid, now) == s
  {
  }

  /** Once overdue, an invoice stays overdue as time passes. */
  lemma OverdueStaysOverdue(currentStatus: Status, dueDate: int, isPaid: bool, now: int, later: int)
    requires now <= later
    requires CheckInvoiceStatus(currentStatus, dueDate, isPaid, now) == Overdue
    ensures CheckInvoiceStatus(currentStatus, dueDate, isPaid, later) == Overdue
  {
  }

  // ---------------------------------------------------------------------------
  // truncate

  function Truncate(str: string, length: int): (r: string)
    ensures |str| <= length ==> r == str
    ensures |str| > length ==>
      var keep := if length < 0 then 0 else length;
      |r| == keep + 3 && r[..keep] == str[..keep] && r[keep..] == "..."
  {
    if |str| <= length then str else Substring(str, 0, length) + "..."
  }

  // ---------------------------------------------------------------------------
  // slugify

  predicate IsWordChar(c: char) { IsAsciiLower(c) || IsAsciiUpper(c) || IsDigit(c) || c == '_' }

  predicate IsWordOrHyphen(c: char) { IsWordChar(c) || c == '-' }

  /** The characters a slug may hold: lower-case letters, digits, `_` and `-`. */
  predicate IsSlugChar(c: char) { IsAsciiLower(c) || IsDigit(c) || c == '_' || c == '-' }

  predicate NoUpper(s: string) { forall i :: 0 <= i < |s| ==> !IsAsciiUpper(s[i]) }

  predicate NoWhitespace(s: string) { forall i :: 0 <= i < |s| ==> !IsWhitespace(s[i]) }

  predicate AllSlugChars(s: string) { forall i :: 0 <= i < |s| ==> IsSlugChar(s[i]) }

  predicate NoDoubleHyphen(s: string) { forall i :: 0 <= i < |s| - 1 ==> !(s[i] == '-' && s[i + 1] == '-') }

  /** `s.trimStart()` */
  function TrimStart(s: string): (r: string)
    ensures |r| <= |s| && r == s[|s| - |r|..]
    ensures forall i :: 0 <= i < |s| - |r| ==> IsWhitespace(s[i])
    ensures r == [] || !IsWhitespace(r[0])
  {
    if s != [] && IsWhitespace(s[0]) then TrimStart(s[1..]) else s
  }

  /** `s.trimEnd()` */
  function TrimEnd(s: string): (r: string)
    ensures |r| <= |s| && r == s[..|r|]
    ensures forall i :: |r| <= i < |s| ==> IsWhitespace(s[i])
    ensures r == [] || !IsWhitespace(r[|r| - 1])
  {
    if s != [] && IsWhitespace(s[|s| - 1]) then TrimEnd(s[..|s| - 1]) else s
  }

  /** `r` is `s` with `a` whitespace characters cut from the front and only whitespace cut from the back. */
  ghost predicate TrimmedAt(s: string, r: string, a: int) {
    && 0 <= a && a + |r| <= |s| && r == s[a..a + |r|]
    && (forall i :: 0 <= i < a ==> IsWhitespace(s[i]))
    && (forall i :: a + |r| <= i < |s| ==> IsWhitespace(s[i]))
  }

  /** Cutting whitespace from the front and then from the back is cutting it from both ends at once. */
  lemma WhitespaceCutsCompose(s: string, t: string, r: string, a: int)
    requires 0 <= a <= |s| && t == s[a..] && |r| <= |t| && r == t[..|r|]
    requires forall i :: 0 <= i < a ==> IsWhitespace(s[i])
    requires forall i :: |r| <= i < |t| ==> IsWhitespace(t[i])
    ensures TrimmedAt(s, r, a)
  {
    forall i | a + |r| <= i < |s| ensures IsWhitespace(s[i]) {
      assert s[i] == t[i - a];
    }
  }

  /** Trimming cuts whitespace only: what is left is a slice of the input with whitespace on both sides. */
  lemma TrimCutsWhitespace(s: string)
    ensures TrimmedAt(s, TrimEnd(TrimStart(s)), |s| - |TrimStart(s)|)
  {
    var t := TrimStart(s);
    WhitespaceCutsCompose(s, t, TrimEnd(t), |s| - |t|);
  }

  /** Trimming introduces no upper-case letter. */
  lemma TrimKeepsNoUpper(s: string)
    requires NoUpper(s)
    ensures NoUpper(TrimEnd(TrimStart(s)))
  {
    var t := TrimStart(s);
    var r := TrimEnd(t);
    forall i | 0 <= i < |r| ensures !IsAsciiUpper(r[i]) {
      assert r[i] == t[i] == s[|s| - |t| + i];
    }
  }

  /** `s.trim()` */
  function Trim(s: string): (r: string)
    ensures exists a :: TrimmedAt(s, r, a)
    ensures r == [] || (!IsWhitespace(r[0]) && !IsWhitespace(r[|r| - 1]))
    ensures NoUpper(s) ==> NoUpper(r)
  {
    TrimCutsWhitespace(s);
    if NoUpper(s) then TrimKeepsNoUpper(s); TrimEnd(TrimStart(s)) else TrimEnd(TrimStart(s))
  }

  /** `s.replace(/\s+/g, '-')`: each maximal run of whitespace becomes one hyphen. */
  function ReplaceWhitespaceRuns(s: string): (r: string)
    decreases |s|
  {
    if s == [] then []
    else if IsWhitespace(s[0]) then "-" + ReplaceWhitespaceRuns(TrimStart(s[1..]))
    else [s[0]] + ReplaceWhitespaceRuns(s[1..])
  }

  /** The first character of the replacement, and what the replacement continues with. */
  lemma ReplaceWhitespaceRunsStep(s: string) returns (head: char, rest: string)
    requires s != []
    ensures ReplaceWhitespaceRuns(s) == [head] + ReplaceWhitespaceRuns(rest)
    ensures |rest| < |s| && rest == s[|s| - |rest|..]
    ensures head == if IsWhitespace(s[0]) then '-' else s[0]
  {
    if IsWhitespace(s[0]) {
      head, rest := '-', TrimStart(s[1..]);
    } else {
      head, rest := s[0], s[1..];
    }
  }

  /** Replacing whitespace runs leaves no whitespace. */
  lemma {:induction false} ReplaceWhitespaceRunsNoWhitespace(s: string)
    ensures NoWhitespace(ReplaceWhitespaceRuns(s))
    decreases |s|
  {
    if s != [] {
      var head, rest := ReplaceWhitespaceRunsStep(s);
      ReplaceWhitespaceRunsNoWhitespace(rest);
    }
  }

  /** Replacing whitespace runs introduces no upper-case letter. */
  lemma {:induction false} ReplaceWhitespaceRunsNoUpper(s: string)
    requires NoUpper(s)
    ensures NoUpper(ReplaceWhitespaceRuns(s))
    decreases |s|
  {
    if s != [] {
      var head, rest := ReplaceWhitespaceRunsStep(s);
      assert NoUpper(rest);
      ReplaceWhitespaceRunsNoUpper(rest);
    }
  }

  /** `s.replace(/[^\w-]+/g, '')`: every character other than a word character or `-` is dropped. */
  function StripNonWord(s: string): (r: string)
    ensures forall i :: 0 <= i < |r| ==> IsWordOrHyphen(r[i])
    ensures NoUpper(s) ==> AllSlugChars(r)
  {
    JsArray.Filter(s, IsWordOrHyphen)
  }

  /** Leading hyphens removed. */
  function DropHyphens(s: string): (r: string)
    ensures |r| <= |s| && r == s[|s| - |r|..]
    ensures forall i :: 0 <= i < |s| - |r| ==> s[i] == '-'
    ensures r == [] || r[0] != '-'
  {
    if s != [] && s[0] == '-' then DropHyphens(s[1..]) else s
  }

  /** `s.replace(/--+/g, '-')`: each run of hyphens becomes a single hyphen. */
  function CollapseHyphenRuns(s: string): (r: string)
    ensures (r == []) == (s == [])
    ensures s != [] ==> r[0] == s[0]
    decreases |s|
  {
    if s == [] then []
    else if s[0] == '-' then "-" + CollapseHyphenRuns(DropHyphens(s[1..]))
    else [s[0]] + CollapseHyphenRuns(s[1..])
  }

  /** After collapsing, no hyphen follows another, and no other character is introduced. */
  lemma {:induction false} CollapseHyphenRunsSound(s: string)
    ensures NoDoubleHyphen(CollapseHyphenRuns(s))
    ensures AllSlugChars(s) ==> AllSlugChars(CollapseHyphenRuns(s))
    decreases |s|
  {
    if s != [] {
      var r := CollapseHyphenRuns(s);
      if s[0] == '-' {
        var t := DropHyphens(s[1..]);
        CollapseHyphenRunsSound(t);
        var c := CollapseHyphenRuns(t);
        assert r == "-" + c;
        assert c == [] || c[0] != '-';
        if AllSlugChars(s) {
          assert AllSlugChars(t);
        }
      } else {
        CollapseHyphenRunsSound(s[1..]);
        assert r == [s[0]] + CollapseHyphenRuns(s[1..]);
      }
    }
  }

  /** `slugify(text)` */
  function Slugify(text: string): (r: string)
    ensures AllSlugChars(r)
    ensures NoDoubleHyphen(r)
  {
    var stripped := StripNonWord(ReplaceWhitespaceRuns(Trim(ToLowerCase(text))));
    ReplaceWhitespaceRunsNoUpper(Trim(ToLowerCase(text)));
    CollapseHyphenRunsSound(stripped);
    CollapseHyphenRuns(stripped)
  }

  lemma {:induction false} ReplaceWhitespaceRunsIdentity(s: string)
    requires NoWhitespace(s)
    ensures ReplaceWhitespaceRuns(s) == s
    decreases |s|
  {
    if s != [] {
      ReplaceWhitespaceRunsIdentity(s[1..]);
      assert [s[0]] + s[1..] == s;
    }
  }

  lemma {:induction false} CollapseHyphenRunsIdentity(s: string)
    requires NoDoubleHyphen(s)
    ensures CollapseHyphenRuns(s) == s
    decreases |s|
  {
    if s != [] {
      assert NoDoubleHyphen(s[1..]);
      if s[0] == '-' {
        assert DropHyphens(s[1..]) == s[1..];
      }
      CollapseHyphenRunsIdentity(s[1..]);
      assert [s[0]] + s[1..] == s;
    }
  }

  /** Lower-casing and trimming leave a string of slug characters unchanged. */
  lemma SlugSurvivesTrim(s: string)
    requires AllSlugChars(s)
    ensures NoWhitespace(s)
    ensures Trim(ToLowerCase(s)) == s
  {
    assert ToLowerCase(s) == s;
    assert s == [] || !IsWhitespace(s[0]);
    assert TrimStart(s) == s;
    assert s == [] || !IsWhitespace(s[|s| - 1]);
    assert TrimEnd(s) == s;
  }

  /** Every string of slug characters without `--` is its own slug. */
  lemma SlugIsFixpoint(s: string)
    requires AllSlugChars(s) && NoDoubleHyphen(s)
    ensures Slugify(s) == s
  {
    SlugSurvivesTrim(s);
    ReplaceWhitespaceRunsIdentity(s);
    JsArray.FilterKeepsAll(s, IsWordOrHyphen);
    CollapseHyphenRunsIdentity(s);
  }

  /** A slug is its own slug. */
  lemma SlugifyIdempotent(text: string)
    ensures Slugify(Slugify(text)) == Slugify(text)
  {
    var s := Slugify(text);
    SlugSurvivesTrim(s);
    ReplaceWhitespaceRunsIdentity(s);
    JsArray.FilterKeepsAll(s, IsWordOrHyphen);
    CollapseHyphenRunsIdentity(s);
  }

  // ---------------------------------------------------------------------------
  // calculatePercentageChange

  datatype PercentChange = PercentChange(value: real, labelText: string)

  /**
   * `calculatePercentageChange(current, previous)`; `toFixed1` stands for
   * `Number.prototype.toFixed(1)`, whose rounding is not modelled.
   */
  function CalculatePercentageChange(current: real, previous: real, toFixed1: real -> string): (r: PercentChange)
    ensures previous == 0.0 ==> r == PercentChange(0.0, "0%")
    ensures previous != 0.0 ==> r.value * previous == (current - previous) * 100.0
    ensures previous != 0.0 ==> r.labelText == (if r.value > 0.0 then "+" else "") + toFixed1(r.value) + "%"
  {
    if previous == 0.0 then PercentChange(0.0, "0%")
    else
      var change := ((current - previous) / previous) * 100.0;
      var sign := if change > 0.0 then "+" else "";
      PercentChange(change, sign + toFixed1(change) + "%")
  }

  // ---------------------------------------------------------------------------
  // isValidEmail

  predicate IsEmailChar(c: char) { c != '@' && !IsWhitespace(c) }

  predicate AllEmailChars(s: string) { forall i :: 0 <= i < |s| ==> IsEmailChar(s[i]) }

  /** `s` reads local part, `@` at `i`, domain name, `.` at `j`, top-level part; every part non-empty. */
  ghost predicate EmailSplitAt(s: string, i: int, j: int) {
    && 0 < i && i + 1 < j && j + 1 < |s|
    && s[i] == '@' && s[j] == '.'
    && AllEmailChars(s[..i]) && AllEmailChars(s[i + 1..j]) && AllEmailChars(s[j + 1..])
  }

  /** The language of `/^[^\s@]+@[^\s@]+\.[^\s@]+$/`. */
  ghost predicate MatchesEmailPattern(s: string) {
    exists i, j :: EmailSplitAt(s, i, j)
  }

  /** `isValidEmail(email)`, decided by locating the `@`. */
  function IsValidEmail(email: string): (valid: bool) {
    match JsArray.FindIndex(email, c => c == '@')
    case None => false
    case Some(at) =>
      && 0 < at && at + 3 < |email|
      && AllEmailChars(email[..at]) && AllEmailChars(email[at + 1..])
      && '.' in email[at + 2..|email| - 1]
  }

  /** The e-mail test accepts exactly the strings the regular expression matches. */
  lemma IsValidEmailMatchesPattern(email: string)
    ensures IsValidEmail(email) <==> MatchesEmailPattern(email)
  {
    var found := JsArray.FindIndex(email, c => c == '@');
    if IsValidEmail(email) {
      var at := found.value;
      var mid := email[at + 2..|email| - 1];
      var k :| 0 <= k < |mid| && mid[k] == '.';
      var j := at + 2 + k;
      assert email[j] == '.';
      assert email[at + 1..j] == email[at + 1..][..j - at - 1];
      assert email[j + 1..] == email[at + 1..][j - at..];
      assert EmailSplitAt(email, at, j);
    }
    if MatchesEmailPattern(email) {
      var i, j :| EmailSplitAt(email, i, j);
      forall k | 0 <= k < i ensures email[k] != '@' {
        assert email[..i][k] == email[k];
      }
      assert found == Some(i);
      forall k | i + 1 <= k < |email| ensures IsEmailChar(email[k]) {
        if k < j {
          assert email[i + 1..j][k - i - 1] == email[k];
        } else if k > j {
          assert email[j + 1..][k - j - 1] == email[k];
        }
      }
      assert AllEmailChars(email[i + 1..]);
      assert email[i + 2..|email| - 1][j - i - 2] == '.';
    }
  }

  // ---------------------------------------------------------------------------
  // sortByDate

  datatype SortOrder = Asc | Desc

  predicate InOrder(order: SortOrder, a: int, b: int) {
    if order == Asc then a <= b else b <= a
  }

  /** Ordered by creation time: ascending for `Asc`, descending for `Desc`. */
  ghost predicate SortedByDate<T>(s: seq<T>, createdAt: T -> int, order: SortOrder) {
    forall i, j :: 0 <= i < j < |s| ==> InOrder(order, createdAt(s[i]), createdAt(s[j]))
  }

  /** Insert `x` before the first element it may precede. */
  function InsertByDate<T>(x: T, s: seq<T>, createdAt: T -> int, order: SortOrder): (r: seq<T>)
    ensures multiset(r) == multiset(s) + multiset{x}
  {
    if s == [] then [x]
    else if InOrder(order, createdAt(x), createdAt(s[0])) then [x] + s
    else
      assert s == [s[0]] + s[1..];
      [s[0]] + InsertByDate(x, s[1..], createdAt, order)
  }

  lemma {:induction false} InsertByDateSorted<T>(x: T, s: seq<T>, createdAt: T -> int, order: SortOrder)
    requires SortedByDate(s, createdAt, order)
    ensures SortedByDate(InsertByDate(x, s, createdAt, order), createdAt, order)
  {
    if s != [] && !InOrder(order, createdAt(x), createdAt(s[0])) {
      var rest := InsertByDate(x, s[1..], createdAt, order);
      InsertByDateSorted(x, s[1..], createdAt, order);
      forall k | 0 <= k < |rest| ensures InOrder(order, createdAt(s[0]), createdAt(rest[k])) {
        assert rest[k] in multiset(rest);
        if rest[k] != x {
          assert rest[k] in multiset(s[1..]);
          var m :| 0 <= m < |s[1..]| && s[1..][m] == rest[k];
          assert s[m + 1] == rest[k];
        }
      }
    }
  }

  /**
   * `sortByDate(items, order)`: a sorted copy; `createdAt` gives
   * `new Date(item.created_at).getTime()`. The input value is untouched.
   */
  function SortByDate<T>(items: seq<T>, createdAt: T -> int, order: SortOrder): (r: seq<T>)
    ensures multiset(r) == multiset(items)
    ensures SortedByDate(r, createdAt, order)
  {
    if items == [] then []
    else
      var rest := SortByDate(items[1..], createdAt, order);
      InsertByDateSorted(items[0], rest, createdAt, order);
      assert items == [items[0]] + items[1..];
      InsertByDate(items[0], rest, createdAt, order)
  }
}
