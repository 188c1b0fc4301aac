/** Shared vocabulary of the model: optional values, results, the error shape that
    the AWS client library reports, and the few string operations the Python code
    uses (`in` on strings, `endswith`, `split("/")[-1]`, `replace`, `str(int)`). */
module Common {

  datatype Option<+T> = None | Some(value: T)

  datatype Result<+T, +E> = Success(value: T) | Failure(error: E)

  function GetOr<T>(o: Option<T>, default: T): (r: T)
    ensures o.Some? ==> r == o.value
    ensures o.None? ==> r == default
  {
    match o
    case Some(v) => v
    case None => default
  }

  /** The `Error` part of a botocore `ClientError` response: its code and message. */
  datatype ClientError = ClientError(code: string, message: string)

  /** A CloudFormation tag on a stack. */
  datatype StackTag = StackTag(key: string, value: string)

  /** The tags both apps put on a stage's stack: its stage, project id and project name. */
  function StageTags(projectName: string, projectId: string, stageName: string): seq<StackTag>
  {
    [StackTag("sagemaker:deployment-stage", stageName),
     StackTag("sagemaker:project-id", projectId),
     StackTag("sagemaker:project-name", projectName)]
  }

  function Min(a: int, b: int): int { if a <= b then a else b }

  /** Python's `s[:m]`: a negative bound counts from the end. */
  function PySliceTo<T>(s: seq<T>, m: int): (r: seq<T>)
    ensures 0 <= m ==> r == s[..Min(m, |s|)]
    ensures m < 0 ==> r == s[..if |s| + m < 0 then 0 else |s| + m]
  {
    if 0 <= m then s[..Min(m, |s|)]
    else s[..if |s| + m < 0 then 0 else |s| + m]
  }

  predicate StartsWith(s: string, prefix: string) {
    |prefix| <= |s| && s[..|prefix|] == prefix
  }

  /** Python's `s.endswith(suffix)`. */
  predicate EndsWith(s: string, suffix: string) {
    |suffix| <= |s| && s[|s| - |suffix|..] == suffix
  }

  /** Python's `sub in s` for strings. */
  predicate Contains(s: string, sub: string)
    decreases |s|
  {
    StartsWith(s, sub) || (s != [] && Contains(s[1..], sub))
  }

  lemma {:induction false} ContainsAt(s: string, sub: string, i: nat)
    requires i + |sub| <= |s| && s[i..i + |sub|] == sub
    ensures Contains(s, sub)
    decreases i
  {
    if i > 0 {
      assert s[1..][i - 1..i - 1 + |sub|] == s[i..i + |sub|];
      ContainsAt(s[1..], sub, i - 1);
    }
  }

  /** Index of the last occurrence of `c` in `s`, or -1. */
  function LastIndexOf(s: string, c: char): (r: int)
    ensures -1 <= r < |s|
    ensures r >= 0 ==> s[r] == c
    ensures forall j :: r < j < |s| ==> s[j] != c
    decreases |s|
  {
    if s == [] then -1
    else if s[|s| - 1] == c then |s| - 1
    else LastIndexOf(s[..|s| - 1], c)
  }

  /** Python's `s.split(c)[-1]`: the part after the last `c`, or all of `s`. */
  function AfterLast(s: string, c: char): (r: string)
    ensures c !in r
    ensures |r| <= |s| && r == s[|s| - |r|..]
    ensures |r| < |s| ==> s[|s| - |r| - 1] == c
  {
    var i := LastIndexOf(s, c);
    NoneAfter(s, c, i);
    s[i + 1..]
  }

  lemma NoneAfter(s: string, c: char, i: int)
    requires -1 <= i < |s|
    requires forall j :: i < j < |s| ==> s[j] != c
    ensures c !in s[i + 1..]
  {
    var r := s[i + 1..];
    forall j | 0 <= j < |r| ensures r[j] != c {
      assert r[j] == s[i + 1 + j];
    }
  }

  /** Python's `s.replace(pattern, "")`: every non-overlapping occurrence of
      `pattern`, found left to right, is removed. */
  function RemoveAll(s: string, pattern: string): (r: string)
    requires pattern != []
    ensures |r| <= |s|
    decreases |s|
  {
    if |s| < |pattern| then s
    else if s[..|pattern|] == pattern then RemoveAll(s[|pattern|..], pattern)
    else [s[0]] + RemoveAll(s[1..], pattern)
  }

  /** `pattern` occurs in `s` at index `i`. */
  predicate OccursAt(s: string, pattern: string, i: int) {
    0 <= i && i + |pattern| <= |s| && s[i..i + |pattern|] == pattern
  }

  /** `pattern` occurs nowhere in `s`. */
  ghost predicate Absent(s: string, pattern: string) {
    forall i :: !OccursAt(s, pattern, i)
  }

  /** Removing a pattern that does not occur changes nothing. */
  lemma {:induction false} RemoveAllAbsent(s: string, pattern: string)
    requires pattern != [] && Absent(s, pattern)
    ensures RemoveAll(s, pattern) == s
    decreases |s|
  {
    if |s| >= |pattern| {
      assert !OccursAt(s, pattern, 0);
      AbsentTail(s, pattern);
      RemoveAllAbsent(s[1..], pattern);
      assert [s[0]] + s[1..] == s;
    }
  }

  /** When the first character of `pattern` does not recur in it, the first
      occurrence after a stretch free of the pattern is removed and the
      stretch kept: removal goes on with what follows. */
  lemma {:induction false} RemoveAllSkipsPrefix(prefix: string, pattern: string, rest: string)
    requires pattern != [] && pattern[0] !in pattern[1..]
    requires Absent(prefix, pattern)
    ensures RemoveAll(prefix + pattern + rest, pattern) == prefix + RemoveAll(rest, pattern)
    decreases |prefix|
  {
    var s := prefix + pattern + rest;
    if prefix == [] {
      assert s[..|pattern|] == pattern;
      assert s[|pattern|..] == rest;
    } else {
      NoOccurrenceAtStart(prefix, pattern, rest);
      AbsentTail(prefix, pattern);
      RemoveAllSkipsPrefix(prefix[1..], pattern, rest);
      assert s[1..] == prefix[1..] + pattern + rest;
      assert [s[0]] + (prefix[1..] + RemoveAll(rest, pattern)) == prefix + RemoveAll(rest, pattern);
    }
  }

  /** A pattern whose first character does not recur in it cannot start
      inside a pattern-free stretch and end in an occurrence after it. */
  lemma NoOccurrenceAtStart(prefix: string, pattern: string, rest: string)
    requires prefix != [] && pattern != [] && pattern[0] !in pattern[1..]
    requires Absent(prefix, pattern)
    ensures (prefix + pattern + rest)[..|pattern|] != pattern
  {
    var s := prefix + pattern + rest;
    if |prefix| >= |pattern| {
      assert s[..|pattern|] == prefix[0..|pattern|];
      assert !OccursAt(prefix, pattern, 0);
    } else {
      var k := |prefix|;
      assert pattern[1..][k - 1] == pattern[k];
      assert s[..|pattern|][k] == pattern[0] != pattern[k];
    }
  }

  /** A pattern-free string stays pattern-free without its first character. */
  lemma AbsentTail(s: string, pattern: string)
    requires s != [] && Absent(s, pattern)
    ensures Absent(s[1..], pattern)
  {
    forall i | OccursAt(s[1..], pattern, i)
      ensures false
    {
      assert s[1..][i..i + |pattern|] == s[i + 1..i + 1 + |pattern|];
      assert OccursAt(s, pattern, i + 1);
    }
  }

  /** An occurrence appended to a string free of the pattern is exactly what
      gets removed. */
  lemma RemoveAllStripsSuffix(prefix: string, pattern: string)
    requires pattern != [] && pattern[0] !in pattern[1..]
    requires Absent(prefix, pattern)
    ensures RemoveAll(prefix + pattern, pattern) == prefix
  {
    RemoveAllSkipsPrefix(prefix, pattern, []);
    assert prefix + pattern + [] == prefix + pattern;
  }

  function DigitChar(d: nat): (c: char)
    requires d < 10
    ensures '0' <= c <= '9'
  {
    ['0', '1', '2', '3', '4', '5', '6', '7', '8', '9'][d]
  }

  /** Python's `str(n)` for a non-negative integer. */
  function DecimalString(n: nat): (r: string)
    ensures r != []
    ensures forall i :: 0 <= i < |r| ==> '0' <= r[i] <= '9'
    ensures |r| > 1 ==> r[0] != '0'
    decreases n
  {
    if n < 10 then [DigitChar(n)]
    else
      var front := DecimalString(n / 10);
      front + [DigitChar(n % 10)]
  }

  /** Python's `str(xs)` for a list of non-negative integers: `[1, 2]`. */
  function ListString(xs: seq<nat>): (r: string)
    ensures StartsWith(r, "[") && EndsWith(r, "]")
  {
    "[" + JoinDecimal(xs) + "]"
  }

  function JoinDecimal(xs: seq<nat>): string
  {
    if xs == [] then ""
    else if |xs| == 1 then DecimalString(xs[0])
    else DecimalString(xs[0]) + ", " + JoinDecimal(xs[1..])
  }
}
