/** Limits, retention and the message that a PDF view token signs (worker/src/retention.ts). */
module Retention {
  import opened Basics

  const DAY_MS: int := 24 * 60 * 60 * 1000

  datatype Limits = Limits(pdfMaxBytes: Option<nat>, jobsPerDay: Option<nat>)

  function UsageLimitsForScope(isGuest: bool, exempt: bool): Limits {
    if !isGuest && exempt then Limits(None, None)
    else if isGuest then Limits(Some(5 * 1024 * 1024), Some(3))
    else Limits(Some(20 * 1024 * 1024), Some(10))
  }

  /** A point in time as the database keeps it: milliseconds and the text that toISOString gave. The text
      is left arbitrary: nothing below depends on its form. */
  datatype Instant = Instant(ms: int, text: string)

  function ExpiryText(expires: Option<Instant>): string {
    if expires.Some? then expires.value.text else ""
  }

  function PdfViewTokenMessage(job: string, expiryText: string, exempt: bool): string {
    if exempt then "pdf-job-retention-exempt:v1:" + job
    else "pdf-job:v1:" + job + ":" + expiryText
  }

  predicate IsExpiredAt(expires: Option<Instant>, exempt: bool, now: int) {
    !exempt && ExpiryText(expires) != "" && now > expires.value.ms
  }

  predicate ColonFree(s: string) {
    ':' !in s
  }

  /** Two pieces before the first colon are equal when the whole strings are. */
  lemma FirstColon(a: string, x: string, b: string, y: string)
    requires ColonFree(a) && ColonFree(b)
    requires a + [':'] + x == b + [':'] + y
    ensures a == b && x == y
  {
    var s := a + [':'] + x;
    assert s[|a|] == ':' && s[|b|] == ':';
    assert forall i :: 0 <= i < |a| ==> s[i] == a[i] && a[i] in a;
    assert forall i :: 0 <= i < |b| ==> s[i] == b[i] && b[i] in b;
    assert |a| == |b|;
    assert a == s[..|a|] && b == s[..|b|];
    assert x == s[|a| + 1..] && y == s[|b| + 1..];
  }

  /** For job ids without a colon the message tells the job, the kind of token and, for an ordinary token,
      the expiry text. */
  lemma MessageUnambiguous(job: string, text: string, exempt: bool, job': string, text': string, exempt': bool)
    requires ColonFree(job) && ColonFree(job')
    requires PdfViewTokenMessage(job, text, exempt) == PdfViewTokenMessage(job', text', exempt')
    ensures job == job' && exempt == exempt' && (exempt || text == text')
  {
    var m := PdfViewTokenMessage(job, text, exempt);
    var m' := PdfViewTokenMessage(job', text', exempt');
    var p, q := "pdf-job-retention-exempt:v1:", "pdf-job:v1:";
    assert p[7] == '-' && q[7] == ':';
    assert m[7] == (if exempt then p else q)[7];
    assert m'[7] == (if exempt' then p else q)[7];
    if exempt {
      assert m[|p|..] == job && m'[|p|..] == job';
    } else {
      assert m[|q|..] == job + [':'] + text;
      assert m'[|q|..] == job' + [':'] + text';
      FirstColon(job, text, job', text');
    }
  }

  /** With a colon in a job id the encoding is ambiguous, so the restriction is needed. */
  lemma MessageAmbiguousWithColon()
    ensures PdfViewTokenMessage("a:b", "c", false) == PdfViewTokenMessage("a", "b:c", false)
  {
    var p := "pdf-job:v1:";
    assert "a:b" + ":" + "c" == "a" + ":" + "b:c";
    assert p + "a:b" + ":" + "c" == p + ("a:b" + ":" + "c");
    assert p + "a" + ":" + "b:c" == p + ("a" + ":" + "b:c");
  }
}
