/**
 * Storage usage estimator: parses lesson size strings ("25 MB", "1.5 GB"),
 * sums downloaded courses and books, and relates the sum to a fixed 32 GB
 * device. Sizes are exact reals (megabytes).
 */
module StorageUtils {
  import opened Wrappers
  import opened Types
  import opened Decimal
  import opened JsMath

  const TotalDeviceStorageGB: int := 32
  const MBPerGB: int := 1024
  const AverageBookSizeMB: int := 5
  const TotalMB: real := (TotalDeviceStorageGB * MBPerGB) as real

  /**
   * The characters `\s` matches. None of them is a digit, the decimal point
   * or a unit letter, which is why the greedy reading in `MatchAt` is the
   * only one.
   */
  function IsSpace(c: char): (b: bool)
    ensures b ==> !IsDigit(c) && c != '.' && c != 'M' && c != 'm' && c != 'G' && c != 'g'
  {
    || c == ' ' || c == '\t' || c == '\n' || c == '\r' || c == '\U{B}' || c == '\U{C}'
    || c == '\U{A0}' || c == '\U{1680}' || '\U{2000}' <= c <= '\U{200A}' || c == '\U{2028}' || c == '\U{2029}'
    || c == '\U{202F}' || c == '\U{205F}' || c == '\U{3000}' || c == '\U{FEFF}'
  }

  datatype CharClass = Digits | Spaces

  predicate InClass(c: char, cls: CharClass) {
    match cls
    case Digits => IsDigit(c)
    case Spaces => IsSpace(c)
  }

  /** How many characters of class `cls` a greedy `\d+` or `\s*` consumes from position `i`. */
  function RunLength(s: string, i: nat, cls: CharClass): (n: nat)
    requires i <= |s|
    ensures i + n <= |s|
    decreases |s| - i
  {
    if i < |s| && InClass(s[i], cls) then 1 + RunLength(s, i + 1, cls) else 0
  }

  /** The run is maximal: all of it is in the class and the character after it is not. */
  lemma {:induction false} RunLengthMaximal(s: string, i: nat, cls: CharClass)
    requires i <= |s|
    ensures forall j :: i <= j < i + RunLength(s, i, cls) ==> InClass(s[j], cls)
    ensures i + RunLength(s, i, cls) == |s| || !InClass(s[i + RunLength(s, i, cls)], cls)
    decreases |s| - i
  {
    if i < |s| && InClass(s[i], cls) {
      RunLengthMaximal(s, i + 1, cls);
    }
  }

  /**
   * Where a match lies: its digits are `s[start..wholeEnd]`, its fraction
   * digits `s[wholeEnd + 1..fractionEnd]` (none when `fractionEnd ==
   * wholeEnd`), and its unit is GB or MB.
   */
  datatype SizeMatch = SizeMatch(start: nat, wholeEnd: nat, fractionEnd: nat, gigabytes: bool)

  predicate Placed(s: string, m: SizeMatch) {
    m.start < m.wholeEnd <= m.fractionEnd <= |s| && m.fractionEnd != m.wholeEnd + 1
  }

  /** The integer digits a match captures. */
  function Whole(s: string, m: SizeMatch): string
    requires Placed(s, m)
  {
    s[m.start..m.wholeEnd]
  }

  /** The fraction digits a match captures ("" when it has none). */
  function Fraction(s: string, m: SizeMatch): string
    requires Placed(s, m)
  {
    if m.fractionEnd == m.wholeEnd then "" else s[m.wholeEnd + 1..m.fractionEnd]
  }

  predicate UnitAt(s: string, w: nat) {
    && w + 2 <= |s|
    && (s[w] == 'M' || s[w] == 'm' || s[w] == 'G' || s[w] == 'g')
    && (s[w + 1] == 'B' || s[w + 1] == 'b')
  }

  /**
   * The match of /(\d+(?:\.\d+)?)\s*(MB|GB)/i that starts exactly at `i`.
   * Each greedy part is taken whole: giving back a digit or a space leaves a
   * digit or a space where the next part needs something else, so
   * backtracking never finds another match from the same start.
   */
  function MatchAt(s: string, i: nat): (r: Option<SizeMatch>)
    requires i <= |s|
    ensures r.Some? ==> r.value.start == i && Placed(s, r.value)
    ensures r.Some? && r.value.fractionEnd != r.value.wholeEnd ==> s[r.value.wholeEnd] == '.'
  {
    var d := RunLength(s, i, Digits);
    if d == 0 then None
    else
      var j := i + d;
      var f := if j < |s| && s[j] == '.' then RunLength(s, j + 1, Digits) else 0;
      var k := if f > 0 then j + 1 + f else j;
      var w := k + RunLength(s, k, Spaces);
      if UnitAt(s, w) then Some(SizeMatch(i, j, k, s[w] == 'G' || s[w] == 'g')) else None
  }

  /** A match captures a non-empty run of digits and a run of fraction digits. */
  lemma MatchAtDigits(s: string, i: nat)
    requires i <= |s| && MatchAt(s, i).Some?
    ensures |Whole(s, MatchAt(s, i).value)| > 0 && IsDigits(Whole(s, MatchAt(s, i).value))
    ensures IsDigits(Fraction(s, MatchAt(s, i).value))
  {
    var j := i + RunLength(s, i, Digits);
    RunLengthMaximal(s, i, Digits);
    if j < |s| && s[j] == '.' {
      RunLengthMaximal(s, j + 1, Digits);
    }
  }

  /** The first position from `i` on whose flag is set. */
  function FirstSet(flags: seq<bool>, i: nat): (r: Option<nat>)
    requires i <= |flags|
    ensures r.Some? ==> i <= r.value < |flags| && flags[r.value]
    ensures forall j :: i <= j < |flags| && (r.None? || j < r.value) ==> !flags[j]
    decreases |flags| - i
  {
    if i == |flags| then None
    else if flags[i] then Some(i)
    else FirstSet(flags, i + 1)
  }

  /** Which positions of `s` (end included) start a match. */
  function MatchStarts(s: string): (flags: seq<bool>)
    ensures |flags| == |s| + 1
    ensures forall i :: 0 <= i <= |s| ==> flags[i] == MatchAt(s, i).Some?
  {
    seq(|s| + 1, i requires 0 <= i <= |s| => MatchAt(s, i).Some?)
  }

  /** `parseFloat` of the matched number: exact decimal value. */
  function NumberValue(whole: string, fraction: string): (v: real)
    ensures DigitsValue(whole) as real <= v < DigitsValue(whole) as real + 1.0
    ensures fraction == "" ==> v == DigitsValue(whole) as real
  {
    DigitsValueBelowPow10(fraction);
    FractionBelowOne(DigitsValue(fraction) as real, Pow10(|fraction|) as real);
    DigitsValue(whole) as real + DigitsValue(fraction) as real / Pow10(|fraction|) as real
  }

  /** Fraction digits worth less than 10^k make a value in [0, 1) once divided by 10^k. */
  lemma FractionBelowOne(digits: real, scale: real)
    requires 0.0 <= digits < scale
    ensures 0.0 <= digits / scale < 1.0
  {
  }

  /** A value in MB or GB, in megabytes. */
  function InMB(value: real, gigabytes: bool): (mb: real)
    ensures value >= 0.0 ==> mb >= 0.0
  {
    if gigabytes then value * MBPerGB as real else value
  }

  /** A match in megabytes. */
  function MatchMB(s: string, m: SizeMatch): (mb: real)
    requires Placed(s, m)
    ensures mb >= 0.0
  {
    InMB(NumberValue(Whole(s, m), Fraction(s, m)), m.gigabytes)
  }

  /** A match starts at `i` and at no earlier position. */
  predicate IsLeftmostAt(s: string, i: nat) {
    i <= |s| && MatchAt(s, i).Some? && forall j :: 0 <= j < i ==> MatchAt(s, j).None?
  }

  /**
   * `parseSizeToMB`: the leftmost size in the string, in MB; 0 when the
   * string holds none. Never negative: the pattern has no sign.
   */
  function ParseSizeToMB(sizeString: string): (mb: real)
    ensures mb >= 0.0
    ensures (forall i :: 0 <= i <= |sizeString| ==> MatchAt(sizeString, i).None?) ==> mb == 0.0
  {
    var flags := MatchStarts(sizeString);
    var first := FirstSet(flags, 0);
    if first.None? then 0.0 else MatchMB(sizeString, MatchAt(sizeString, first.value).value)
  }

  /** A run that ends where the class ends is what the greedy run consumes. */
  lemma {:induction false} RunLengthExact(s: string, i: nat, n: nat, cls: CharClass)
    requires i + n <= |s|
    requires forall j :: i <= j < i + n ==> InClass(s[j], cls)
    requires i + n == |s| || !InClass(s[i + n], cls)
    ensures RunLength(s, i, cls) == n
    decreases n
  {
    if n > 0 {
      RunLengthExact(s, i + 1, n - 1, cls);
    }
  }

  function Blanks(n: nat): (r: string)
    ensures |r| == n && forall i :: 0 <= i < n ==> r[i] == ' '
  {
    if n == 0 then "" else " " + Blanks(n - 1)
  }

  /** How a size is written: digits, optional ".digits", spaces, and "MB" or "GB" in any case. */
  function RenderSize(whole: string, fraction: string, spaces: nat, unit: string): string {
    whole + (if fraction == "" then "" else "." + fraction) + Blanks(spaces) + unit
  }

  predicate IsUnit(unit: string) {
    |unit| == 2 && UnitAt(unit, 0)
  }

  /** The layout of a written size: digits, the optional fraction, the blanks, the unit. */
  lemma RenderedLayout(whole: string, fraction: string, spaces: nat, unit: string)
    requires |unit| == 2
    ensures var s := RenderSize(whole, fraction, spaces, unit);
      var k := if fraction == "" then |whole| else |whole| + 1 + |fraction|;
      && |s| == k + spaces + 2
      && s[..|whole|] == whole
      && (fraction != "" ==> s[|whole|] == '.' && s[|whole| + 1..k] == fraction)
      && (forall x :: k <= x < k + spaces ==> s[x] == ' ')
      && s[k + spaces] == unit[0] && s[k + spaces + 1] == unit[1]
  {
  }

  /** At position 0 of a written size, the match spans its digits, fraction and unit. */
  lemma RenderedMatch(whole: string, fraction: string, spaces: nat, unit: string)
    requires |whole| > 0 && IsDigits(whole) && IsDigits(fraction)
    requires IsUnit(unit)
    ensures var k := if fraction == "" then |whole| else |whole| + 1 + |fraction|;
      MatchAt(RenderSize(whole, fraction, spaces, unit), 0) ==
        Some(SizeMatch(0, |whole|, k, unit[0] == 'G' || unit[0] == 'g'))
  {
    var s := RenderSize(whole, fraction, spaces, unit);
    var j := |whole|;
    var k := if fraction == "" then j else j + 1 + |fraction|;
    RenderedLayout(whole, fraction, spaces, unit);
    RunLengthExact(s, 0, j, Digits);
    if fraction != "" {
      RunLengthExact(s, j + 1, |fraction|, Digits);
    }
    RunLengthExact(s, k, spaces, Spaces);
  }

  /**
   * A written size parses back to its value: MB as is, GB times 1024, the
   * unit in any letter case.
   */
  lemma ParseRenderedSize(whole: string, fraction: string, spaces: nat, unit: string)
    requires |whole| > 0 && IsDigits(whole) && IsDigits(fraction)
    requires IsUnit(unit)
    ensures ParseSizeToMB(RenderSize(whole, fraction, spaces, unit)) ==
      InMB(NumberValue(whole, fraction), unit[0] == 'G' || unit[0] == 'g')
  {
    var s := RenderSize(whole, fraction, spaces, unit);
    var k := if fraction == "" then |whole| else |whole| + 1 + |fraction|;
    var m := SizeMatch(0, |whole|, k, unit[0] == 'G' || unit[0] == 'g');
    RenderedMatch(whole, fraction, spaces, unit);
    RenderedLayout(whole, fraction, spaces, unit);
    assert Whole(s, m) == whole;
    assert Fraction(s, m) == fraction;
    ParseMatchAtStart(s, m);
  }

  /** A match at position 0 is the leftmost one, so it gives the size. */
  lemma ParseMatchAtStart(s: string, m: SizeMatch)
    requires MatchAt(s, 0) == Some(m)
    ensures ParseSizeToMB(s) == MatchMB(s, m)
  {
    ParseTakesLeftmost(s, 0);
  }

  /** The size parsed is the one the leftmost match reads. */
  lemma ParseTakesLeftmost(s: string, i: nat)
    requires IsLeftmostAt(s, i)
    ensures ParseSizeToMB(s) == MatchMB(s, MatchAt(s, i).value)
  {
    var flags := MatchStarts(s);
    var first := FirstSet(flags, 0);
    assert flags[i];
    assert first == Some(i);
  }

  /** A string without a digit holds no size. */
  lemma NoDigitNoSize(s: string)
    requires forall i :: 0 <= i < |s| ==> !IsDigit(s[i])
    ensures ParseSizeToMB(s) == 0.0
  {
    forall i | 0 <= i <= |s|
      ensures MatchAt(s, i).None?
    {
      assert RunLength(s, i, Digits) == 0;
    }
  }

  /** Text without a size weighs nothing. */
  lemma ParseGarbageExample()
    ensures ParseSizeToMB("garbage") == 0.0
  {
    NoDigitNoSize("garbage");
  }

  /** `reduce` over the lessons: the sum of their parsed sizes. */
  function LessonsSizeMB(lessons: seq<Lesson>): (mb: real)
    ensures mb >= 0.0
  {
    if lessons == [] then 0.0
    else LessonsSizeMB(lessons[..|lessons| - 1]) + ParseSizeToMB(lessons[|lessons| - 1].size)
  }

  /** Sizes add up: the lessons of two lists together weigh what the two lists weigh. */
  lemma {:induction false} LessonsSizeAppend(a: seq<Lesson>, b: seq<Lesson>)
    ensures LessonsSizeMB(a + b) == LessonsSizeMB(a) + LessonsSizeMB(b)
    decreases |b|
  {
    if b == [] {
      assert a + b == a;
    } else {
      assert (a + b)[..|a + b| - 1] == a + b[..|b| - 1];
      assert (a + b)[|a + b| - 1] == b[|b| - 1];
      LessonsSizeAppend(a, b[..|b| - 1]);
    }
  }

  /** `calculateCourseSizeMB`. */
  function CalculateCourseSizeMB(course: DownloadedCourse): (mb: real)
    ensures mb >= 0.0
    ensures course.lessons == [] ==> mb == 0.0
  {
    LessonsSizeMB(course.lessons)
  }

  /** `calculateTotalCoursesSizeMB`: the sum over courses of their sizes. */
  function CalculateTotalCoursesSizeMB(courses: seq<DownloadedCourse>): (mb: real)
    ensures mb >= 0.0
  {
    if courses == [] then 0.0
    else CalculateTotalCoursesSizeMB(courses[..|courses| - 1]) + CalculateCourseSizeMB(courses[|courses| - 1])
  }

  /** The courses total is additive over concatenation. */
  lemma {:induction false} CoursesSizeAppend(a: seq<DownloadedCourse>, b: seq<DownloadedCourse>)
    ensures CalculateTotalCoursesSizeMB(a + b) == CalculateTotalCoursesSizeMB(a) + CalculateTotalCoursesSizeMB(b)
    decreases |b|
  {
    if b == [] {
      assert a + b == a;
    } else {
      assert (a + b)[..|a + b| - 1] == a + b[..|b| - 1];
      assert (a + b)[|a + b| - 1] == b[|b| - 1];
      CoursesSizeAppend(a, b[..|b| - 1]);
    }
  }

  /** `calculateTotalBooksSizeMB`: a flat 5 MB per book. */
  function CalculateTotalBooksSizeMB(books: seq<DownloadedBook>): (mb: real)
    ensures mb == 5.0 * |books| as real
  {
    |books| as real * AverageBookSizeMB as real
  }

  /** `calculateTotalDownloadedSizeMB`: courses plus books. */
  function CalculateTotalDownloadedSizeMB(courses: seq<DownloadedCourse>, books: seq<DownloadedBook>): (mb: real)
    ensures mb == CalculateTotalCoursesSizeMB(courses) + CalculateTotalBooksSizeMB(books)
    ensures mb >= 5.0 * |books| as real && mb >= 0.0
  {
    CalculateTotalCoursesSizeMB(courses) + CalculateTotalBooksSizeMB(books)
  }

  /** `formatSize` without the digits: the unit chosen and the number shown. */
  datatype SizeText = Ko(kilobytes: int) | Mo(megabytes: int) | Go(gigabytes: real)

  /**
   * `formatSize`: kilobytes below 1 MB, megabytes below 1024 MB, gigabytes
   * from there on (shown with two decimals, which is not modelled).
   */
  function FormatSize(sizeMB: real): (t: SizeText)
    ensures t.Ko? <==> sizeMB < 1.0
    ensures t.Mo? <==> 1.0 <= sizeMB < MBPerGB as real
    ensures t.Go? <==> sizeMB >= MBPerGB as real
    ensures t.Ko? ==> t.kilobytes as real - 0.5 <= sizeMB * 1024.0 < t.kilobytes as real + 0.5
    ensures t.Mo? ==> t.megabytes as real - 0.5 <= sizeMB < t.megabytes as real + 0.5 && 1 <= t.megabytes <= 1024
    ensures t.Go? ==> t.gigabytes * 1024.0 == sizeMB && t.gigabytes >= 1.0
  {
    if sizeMB < 1.0 then Ko(Round(sizeMB * 1024.0))
    else if sizeMB < MBPerGB as real then Mo(Round(sizeMB))
    else Go(sizeMB / MBPerGB as real)
  }

  /** `calculateStorageUsagePercentage`: share of the 32 GB device, capped at 100. */
  function CalculateStorageUsagePercentage(usedMB: real): (pct: real)
    ensures pct <= 100.0
    ensures usedMB >= 0.0 ==> pct >= 0.0
    ensures usedMB >= TotalMB ==> pct == 100.0
    ensures usedMB <= TotalMB ==> pct * TotalMB == usedMB * 100.0
  {
    var share := usedMB / TotalMB * 100.0;
    if share < 100.0 then share else 100.0
  }

  /** Free space: what the device has left, never below zero. */
  function FreeSpaceMB(usedMB: real): (free: real)
    ensures free >= 0.0 && free >= TotalMB - usedMB
    ensures usedMB <= TotalMB ==> free == TotalMB - usedMB
    ensures usedMB >= TotalMB ==> free == 0.0
  {
    if TotalMB - usedMB > 0.0 then TotalMB - usedMB else 0.0
  }

  datatype StorageStatus = StorageStatus(
    usedMB: real,
    usedFormatted: SizeText,
    totalGB: int,
    totalFormatted: string,
    usagePercentage: real,
    freeFormatted: SizeText)

  /** `getStorageStatus`: used size, the fixed 32 GB total, capped usage and free space. */
  function GetStorageStatus(courses: seq<DownloadedCourse>, books: seq<DownloadedBook>): (status: StorageStatus)
    ensures status.usedMB == CalculateTotalDownloadedSizeMB(courses, books) && status.usedMB >= 0.0
    ensures status.usedFormatted == FormatSize(status.usedMB)
    ensures status.totalGB == 32 && status.totalFormatted == "32 Go"
    ensures status.usagePercentage == CalculateStorageUsagePercentage(status.usedMB)
    ensures 0.0 <= status.usagePercentage <= 100.0
    ensures status.freeFormatted == FormatSize(FreeSpaceMB(status.usedMB))
  {
    var usedMB := CalculateTotalDownloadedSizeMB(courses, books);
    var freeMB := FreeSpaceMB(usedMB);
    StorageStatus(usedMB, FormatSize(usedMB), TotalDeviceStorageGB, NatToString(TotalDeviceStorageGB) + " Go",
                  CalculateStorageUsagePercentage(usedMB), FormatSize(freeMB))
  }

  /** A device filled to (or past) its 32 GB shows no free space and a full gauge. */
  lemma FullDeviceStatus(courses: seq<DownloadedCourse>, books: seq<DownloadedBook>)
    requires CalculateTotalDownloadedSizeMB(courses, books) >= TotalMB
    ensures GetStorageStatus(courses, books).freeFormatted == Ko(0)
    ensures GetStorageStatus(courses, books).usagePercentage == 100.0
  {
    var status := GetStorageStatus(courses, books);
    assert FreeSpaceMB(status.usedMB) == 0.0;
    assert Round(0.0 * 1024.0) == 0;
  }
}
