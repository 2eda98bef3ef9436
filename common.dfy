/**
 * Formatting of schema-validation errors (template/src/Core/Common.ts,
 * `formatZodIssue` and `formatZodError`).
 */
module ZodFormat {

  /** One element of an issue's path: an object key or an array index. */
  datatype PathSegment = Key(name: string) | Index(n: nat)

  /** A validation issue: where it occurred and what went wrong. */
  datatype Issue = Issue(path: seq<PathSegment>, message: string)

  /** A validation error: its issues, in the order the validator reported them. */
  datatype ZodError = ZodError(issues: seq<Issue>)

  /** The decimal digit for `d < 10`. */
  function DigitChar(d: nat): (c: char)
    requires d < 10
    ensures '0' <= c <= '9' && c as int - '0' as int == d
  {
    ('0' as int + d) as char
  }

  /** `String(n)` for a non-negative integer: its decimal digits. */
  function Decimal(n: nat): (s: string)
    ensures |s| >= 1
    ensures forall i :: 0 <= i < |s| ==> '0' <= s[i] <= '9'
  {
    if n < 10 then [DigitChar(n)] else Decimal(n / 10) + [DigitChar(n % 10)]
  }

  /** The value of a string of decimal digits. */
  function DecimalValue(s: string): nat
    requires forall i :: 0 <= i < |s| ==> '0' <= s[i] <= '9'
  {
    if s == [] then 0 else 10 * DecimalValue(s[..|s| - 1]) + (s[|s| - 1] as int - '0' as int)
  }

  /** Reading back the digits of `Decimal(n)` gives `n`. */
  lemma {:induction false} DecimalRoundTrip(n: nat)
    ensures DecimalValue(Decimal(n)) == n
  {
    if n >= 10 {
      var s := Decimal(n);
      assert s[..|s| - 1] == Decimal(n / 10);
      DecimalRoundTrip(n / 10);
    }
  }

  /** How a path segment prints when the path is joined. */
  function SegmentText(seg: PathSegment): string {
    match seg
    case Key(name) => name
    case Index(n) => Decimal(n)
  }

  function SegmentTexts(path: seq<PathSegment>): (r: seq<string>)
    ensures |r| == |path| && forall i :: 0 <= i < |path| ==> r[i] == SegmentText(path[i])
  {
    if path == [] then [] else [SegmentText(path[0])] + SegmentTexts(path[1..])
  }

  /** `parts.join(sep)`. */
  function Join(parts: seq<string>, sep: char): string {
    if parts == [] then ""
    else if |parts| == 1 then parts[0]
    else parts[0] + [sep] + Join(parts[1..], sep)
  }

  /** `s.split(sep)`: the pieces between the separators (`[""]` for `""`). */
  function Split(s: string, sep: char): (r: seq<string>)
    ensures |r| >= 1
  {
    if s == [] then [""]
    else
      var rest := Split(s[1..], sep);
      if s[0] == sep then [""] + rest else [[s[0]] + rest[0]] + rest[1..]
  }

  /** A separator-free prefix stays whole in front of the first separator. */
  lemma {:induction false} SplitAfterPrefix(p: string, sep: char, t: string)
    requires sep !in p
    ensures Split(p + t, sep) == [p + Split(t, sep)[0]] + Split(t, sep)[1..]
  {
    if p != [] {
      assert (p + t)[1..] == p[1..] + t;
      SplitAfterPrefix(p[1..], sep, t);
      assert [p[0]] + (p[1..] + Split(t, sep)[0]) == p + Split(t, sep)[0];
    } else {
      assert p + t == t;
      var r := Split(t, sep);
      assert p + r[0] == r[0] && r == [r[0]] + r[1..];
    }
  }

  /** Splitting a joined list of separator-free parts gives the parts back. */
  lemma {:induction false} SplitJoin(parts: seq<string>, sep: char)
    requires |parts| >= 1
    requires forall i :: 0 <= i < |parts| ==> sep !in parts[i]
    ensures Split(Join(parts, sep), sep) == parts
  {
    if |parts| == 1 {
      SplitAfterPrefix(parts[0], sep, "");
      assert parts[0] + "" == parts[0];
    } else {
      var rest := Join(parts[1..], sep);
      SplitJoin(parts[1..], sep);
      assert Split([sep] + rest, sep) == [""] + parts[1..] by {
        assert ([sep] + rest)[1..] == rest;
      }
      assert Join(parts, sep) == parts[0] + ([sep] + rest);
      SplitAfterPrefix(parts[0], sep, [sep] + rest);
      assert parts[0] + "" == parts[0];
      assert parts == [parts[0]] + parts[1..];
    }
  }

  /** `path.join('.')`. */
  function PathText(path: seq<PathSegment>): string {
    Join(SegmentTexts(path), '.')
  }

  /** `formatZodIssue`: the joined path, `": "`, then the message. The text
      always ends with `": "` followed by the message. */
  function FormatIssue(issue: Issue): (s: string)
    ensures |s| >= |issue.message| + 2
    ensures s[|s| - |issue.message| - 2..] == ": " + issue.message
  {
    var s := PathText(issue.path) + ": " + issue.message;
    assert s[|s| - |issue.message| - 2..] == ": " + issue.message;
    s
  }

  /** `formatZodError`: the first issue formatted, or `"Invalid data"` when there is none. */
  function FormatError(error: ZodError): string {
    if |error.issues| > 0 then FormatIssue(error.issues[0]) else "Invalid data"
  }

  /** Only the first issue matters: errors that agree on it format alike. */
  lemma OnlyFirstIssueCounts(a: ZodError, b: ZodError)
    requires a.issues != [] && b.issues != [] && a.issues[0] == b.issues[0]
    ensures FormatError(a) == FormatError(b)
  {
  }

  /** The text before the final `": " + message` is the issue's path: split at
      `.` it gives each segment's text, as long as no key contains a dot. */
  lemma FormatIssueReadsBack(issue: Issue)
    requires issue.path != []
    requires forall i :: 0 <= i < |issue.path| && issue.path[i].Key? ==> '.' !in issue.path[i].name
    ensures var s := FormatIssue(issue);
      Split(s[..|s| - |issue.message| - 2], '.') == SegmentTexts(issue.path)
  {
    var s := FormatIssue(issue);
    assert s[..|s| - |issue.message| - 2] == PathText(issue.path);
    PathTextSplitsBack(issue.path);
  }

  /** `"Invalid data"` is answered exactly when there is no issue: a formatted
      issue always holds a `:`, which `"Invalid data"` does not. */
  lemma InvalidDataIffNoIssues(error: ZodError)
    ensures FormatError(error) == "Invalid data" <==> error.issues == []
  {
    if error.issues != [] {
      var issue := error.issues[0];
      var s := FormatIssue(issue);
      var k := |s| - |issue.message| - 2;
      assert s[k] == ':' by {
        assert s[k..][0] == (": " + issue.message)[0];
      }
      assert ':' !in "Invalid data";
    }
  }

  /** An issue at the root (empty path) formats as `": " + message`. */
  lemma RootIssueFormat(message: string)
    ensures FormatIssue(Issue([], message)) == ": " + message
  {
  }

  /** The formatted path can be taken apart again: splitting it at `.` gives each
      segment's text, as long as no key itself contains a dot. */
  lemma PathTextSplitsBack(path: seq<PathSegment>)
    requires path != []
    requires forall i :: 0 <= i < |path| && path[i].Key? ==> '.' !in path[i].name
    ensures Split(PathText(path), '.') == SegmentTexts(path)
  {
    var texts := SegmentTexts(path);
    forall i | 0 <= i < |texts|
      ensures '.' !in texts[i]
    {
      if path[i].Index? {
        var d := Decimal(path[i].n);
        assert forall j :: 0 <= j < |d| ==> d[j] != '.';
      }
    }
    SplitJoin(texts, '.');
  }
}
