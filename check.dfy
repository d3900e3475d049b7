/** packages/main/src/fingerprint/check.ts: the time-zone leak check. The
    page's readings and the expected offset are inputs; the verdict compares
    the page's `getTimezoneOffset()` with the expected offset and its Intl
    zone name with the target zone. */
module Check {
  import opened Js

  /** What the page reports (`leaks`). Only the first two fields take part in
      the verdict; the others are carried through unchanged. */
  datatype Readings = Readings(
    dateOffset: int,          // new Date().getTimezoneOffset(): UTC minus local, in minutes
    intlTimeZone: string,     // Intl.DateTimeFormat().resolvedOptions().timeZone
    dateString: string,
    language: string,
    languages: seq<string>,
    acceptLanguage: string)

  /** One entry of `issues`; the source renders each as a sentence holding the
      expected and the observed value. */
  datatype Issue =
    | OffsetMismatch(expectedOffset: real, actualOffset: int)
    | NameMismatch(expectedZone: string, actualZone: string)

  /** The check's result. `issues` is absent from a successful result. */
  datatype Verdict = Verdict(success: bool, issues: Option<seq<Issue>>, leaks: Readings)

  /** getExpectedOffset: the target zone's wall clock minus UTC's wall clock at
      the same instant, both read back as milliseconds, in minutes (local
      minus UTC). */
  function ExpectedOffset(tzWallMs: int, utcWallMs: int): (m: real)
    ensures m * 60000.0 == (tzWallMs - utcWallMs) as real
  {
    (tzWallMs - utcWallMs) as real / 60000.0
  }

  /** The issues of a set of readings, in the order the checks are made: at
      most two; an offset issue iff the offsets differ, a name issue iff the
      zone names differ, the offset issue first. */
  function LeakIssues(leaks: Readings, target: string, expected: real): (issues: seq<Issue>)
    ensures |issues| <= 2
    ensures OffsetMismatch(expected, leaks.dateOffset) in issues <==> leaks.dateOffset as real != expected
    ensures NameMismatch(target, leaks.intlTimeZone) in issues <==> leaks.intlTimeZone != target
    ensures forall i :: 0 <= i < |issues| && issues[i].NameMismatch? ==> i == |issues| - 1
    ensures |issues| == 2 ==> issues[0].OffsetMismatch? && issues[1].NameMismatch?
    ensures forall i :: 0 <= i < |issues| ==>
      issues[i] == OffsetMismatch(expected, leaks.dateOffset) || issues[i] == NameMismatch(target, leaks.intlTimeZone)
  {
    (if leaks.dateOffset as real != expected then [OffsetMismatch(expected, leaks.dateOffset)] else [])
    + (if leaks.intlTimeZone != target then [NameMismatch(target, leaks.intlTimeZone)] else [])
  }

  /** The result built from the issues found. */
  function VerdictOf(leaks: Readings, issues: seq<Issue>): (v: Verdict)
    ensures v.leaks == leaks
    ensures v.success <==> |issues| == 0
    ensures v.success ==> v.issues.None?
    ensures !v.success ==> v.issues == Some(issues)
  {
    if |issues| > 0 then Verdict(false, Some(issues), leaks) else Verdict(true, None, leaks)
  }

  /** checkTimeZoneLeak with the page evaluation's outcome and
      getExpectedOffset's outcome as parameters. getExpectedOffset throws a
      RangeError for a zone name Intl does not know, the empty name included.
      Either failure is rethrown, the evaluation's first; otherwise the issues
      are pushed one check at a time and the verdict is built from them. */
  method CheckTimeZoneLeak(evaluation: Result<Readings, string>, target: string, expected: Result<real, string>)
    returns (r: Result<Verdict, string>)
    ensures evaluation.Err? ==> r == Err(evaluation.error)
    ensures evaluation.Ok? && expected.Err? ==> r == Err(expected.error)
    ensures evaluation.Ok? && expected.Ok? ==>
      r.Ok? && r.value == VerdictOf(evaluation.value, LeakIssues(evaluation.value, target, expected.value))
  {
    if evaluation.Err? {
      return Err(evaluation.error);
    }
    var leaks := evaluation.value;
    var issues: seq<Issue> := [];
    if expected.Err? {
      return Err(expected.error);
    }
    var expectedOffset := expected.value;
    if leaks.dateOffset as real != expectedOffset {
      issues := issues + [OffsetMismatch(expectedOffset, leaks.dateOffset)];
    }
    if leaks.intlTimeZone != target {
      issues := issues + [NameMismatch(target, leaks.intlTimeZone)];
    }
    assert issues == LeakIssues(leaks, target, expectedOffset);
    if |issues| > 0 {
      return Ok(Verdict(false, Some(issues), leaks));
    }
    return Ok(Verdict(true, None, leaks));
  }

  /** The check succeeds exactly when the offsets and the zone names both agree. */
  lemma SuccessIffNoMismatch(leaks: Readings, target: string, expected: real)
    ensures VerdictOf(leaks, LeakIssues(leaks, target, expected)).success
      <==> leaks.dateOffset as real == expected && leaks.intlTimeZone == target
  {
  }

  /** With the sign conventions as written, a page correctly spoofed to a zone
      whose wall clock is `m != 0` minutes ahead of UTC expects the offset
      `m` (getExpectedOffset) but reports `getTimezoneOffset() == -m`: the
      check flags it. */
  lemma SpoofedZoneFlagged(leaks: Readings, target: string, utcWallMs: int, m: int)
    requires m != 0
    requires leaks.dateOffset == -m && leaks.intlTimeZone == target
    ensures var expected := ExpectedOffset(utcWallMs + m * 60000, utcWallMs);
      var v := VerdictOf(leaks, LeakIssues(leaks, target, expected));
      !v.success && v.issues == Some([OffsetMismatch(m as real, -m)])
  {
    var expected := ExpectedOffset(utcWallMs + m * 60000, utcWallMs);
    assert expected * 60000.0 == (m as real) * 60000.0;
    assert expected == m as real;
    assert leaks.dateOffset as real != m as real;
    var issues := LeakIssues(leaks, target, expected);
    assert issues == [OffsetMismatch(m as real, -m)] + [];
    assert issues == [OffsetMismatch(m as real, -m)];
  }

  /** A page in a zone whose wall clock agrees with UTC, with the right zone
      name, passes. */
  lemma ZeroOffsetZonePasses(leaks: Readings, target: string, wallMs: int)
    requires leaks.dateOffset == 0 && leaks.intlTimeZone == target
    ensures VerdictOf(leaks, LeakIssues(leaks, target, ExpectedOffset(wallMs, wallMs))) == Verdict(true, None, leaks)
  {
  }
}
