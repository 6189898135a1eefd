/** The validation and serialisation logic of `schemas.py`: the email check that every
    `UserBase` (and so every `UserCreate`) runs when it is constructed, and
    `TestResult.to_dict`. The regular expression
    `^[a-zA-Z0-9_.+-]+@[a-zA-Z0-9-]+\.[a-zA-Z0-9-.]+$` is modelled twice: as the language it
    denotes (`IsEmailBody`, an address split at its `@` and at a dot) and as the greedy scan a
    backtracking matcher ends up doing (`ScanEmailBody`); `ScanMatchesLanguage` proves them
    equal. */
module UserSchemas {
  import opened Wrappers
  import Text

  // ------------------------------------------------------------------
  // Character classes of the pattern

  predicate IsAsciiAlnum(c: char) { ('a' <= c <= 'z') || ('A' <= c <= 'Z') || ('0' <= c <= '9') }

  /** `[a-zA-Z0-9_.+-]`, the local part. */
  predicate IsLocalChar(c: char) { IsAsciiAlnum(c) || c == '_' || c == '.' || c == '+' || c == '-' }

  /** `[a-zA-Z0-9-]`, the run between `@` and the dot. */
  predicate IsDomainChar(c: char) { IsAsciiAlnum(c) || c == '-' }

  /** `[a-zA-Z0-9-.]`, the rest after the dot. */
  predicate IsTailChar(c: char) { IsAsciiAlnum(c) || c == '-' || c == '.' }

  predicate AllIn(s: string, p: char -> bool) { forall i :: 0 <= i < |s| ==> p(s[i]) }

  // ------------------------------------------------------------------
  // The language of the pattern

  /** `s` is `local@domain.tail` with its `@` at `at` and the dot after the domain at `dot`. */
  predicate ShapedAt(s: string, at: int, dot: int) {
    0 < at && at + 1 < dot && dot + 1 < |s|
    && s[at] == '@' && s[dot] == '.'
    && AllIn(s[..at], IsLocalChar) && AllIn(s[at + 1..dot], IsDomainChar) && AllIn(s[dot + 1..], IsTailChar)
  }

  /** The strings the pattern matches between `^` and the end of the string. */
  ghost predicate IsEmailBody(s: string) {
    exists at, dot :: ShapedAt(s, at, dot)
  }

  /** Python's `$` (without MULTILINE) matches at the end of the string and also just before
      a line break that ends it. */
  ghost predicate IsEmail(s: string) {
    IsEmailBody(s) || (|s| > 0 && s[|s| - 1] == '\n' && IsEmailBody(s[..|s| - 1]))
  }

  // ------------------------------------------------------------------
  // The scan

  /** Length of the longest prefix of `s` whose characters satisfy `p`: how far a greedy
      `[...]+` runs. */
  function Span(s: string, p: char -> bool): (k: nat)
    ensures k <= |s| && AllIn(s[..k], p)
    ensures k < |s| ==> !p(s[k])
  {
    if s == [] || !p(s[0]) then 0
    else
      var k := Span(s[1..], p);
      assert s[..k + 1] == [s[0]] + s[1..][..k];
      k + 1
  }

  /** The only prefix run that stops at a character outside the class is the longest one. */
  lemma SpanUnique(s: string, p: char -> bool, k: nat)
    requires k < |s| && AllIn(s[..k], p) && !p(s[k])
    ensures Span(s, p) == k
  {
  }

  /** Where the scan puts the `@`: the end of the local run. */
  function AtOf(s: string): nat {
    Span(s, IsLocalChar)
  }

  /** Where the scan looks for the dot: the end of the domain run after the `@`. */
  function DotOf(s: string): nat
    requires AtOf(s) < |s|
  {
    AtOf(s) + 1 + Span(s[AtOf(s) + 1..], IsDomainChar)
  }

  /** The classes' runs stop exactly at the delimiters: the local run at the `@`, the domain
      run at the dot, and the tail must reach the end. */
  function ScanEmailBody(s: string): (b: bool) {
    var at := AtOf(s);
    if at == 0 || at == |s| || s[at] != '@' then false
    else
      var dot := DotOf(s);
      dot > at + 1 && dot < |s| - 1 && s[dot] == '.' && AllIn(s[dot + 1..], IsTailChar)
  }

  /** `email_pattern.match(email)` is truthy. */
  function Matches(s: string): (b: bool) {
    ScanEmailBody(s) || (|s| > 0 && s[|s| - 1] == '\n' && ScanEmailBody(s[..|s| - 1]))
  }

  /** What the scan accepts splits at the `@` and the dot it found. */
  lemma ScanSound(s: string)
    requires ScanEmailBody(s)
    ensures ShapedAt(s, AtOf(s), DotOf(s))
  {
    var at, dot := AtOf(s), DotOf(s);
    assert s[at + 1..dot] == s[at + 1..][..dot - at - 1];
  }

  /** A split of the pattern's shape is the scan's: the `@` and the dot of an accepted
      address are determined by it. */
  lemma ScanComplete(s: string, at: int, dot: int)
    requires ShapedAt(s, at, dot)
    ensures AtOf(s) == at && DotOf(s) == dot && ScanEmailBody(s)
  {
    SpanUnique(s, IsLocalChar, at);
    var rest := s[at + 1..];
    assert rest[..dot - at - 1] == s[at + 1..dot];
    SpanUnique(rest, IsDomainChar, dot - at - 1);
  }

  /** The scan accepts exactly the language of the pattern. */
  lemma ScanMatchesLanguage(s: string)
    ensures ScanEmailBody(s) <==> IsEmailBody(s)
  {
    if ScanEmailBody(s) {
      ScanSound(s);
    }
    if IsEmailBody(s) {
      var at, dot :| ShapedAt(s, at, dot);
      ScanComplete(s, at, dot);
    }
  }

  /** `Matches` is the pattern with Python's reading of `$`. */
  lemma MatchesIsEmail(s: string)
    ensures Matches(s) <==> IsEmail(s)
  {
    ScanMatchesLanguage(s);
    if |s| > 0 {
      ScanMatchesLanguage(s[..|s| - 1]);
    }
  }

  // ------------------------------------------------------------------
  // What an accepted address looks like

  /** An accepted address has a non-empty local part of `[A-Za-z0-9_.+-]`, exactly one `@`,
      then a non-empty domain run, a dot and a non-empty tail. */
  lemma {:induction false} AcceptedShape(s: string, at: int, dot: int)
    requires ShapedAt(s, at, dot)
    ensures Text.CountChar(s, '@') == 1
    ensures forall k :: 0 <= k < |s| && s[k] == '@' ==> k == at
  {
    var local, domain, tail := s[..at], s[at + 1..dot], s[dot + 1..];
    assert s == local + "@" + domain + "." + tail;
    Text.CountCharAbsent(local, '@');
    Text.CountCharAbsent(domain, '@');
    Text.CountCharAbsent(tail, '@');
    Text.CountCharAppend(local, "@", '@');
    Text.CountCharAppend(local + "@", domain, '@');
    Text.CountCharAppend(local + "@" + domain, ".", '@');
    Text.CountCharAppend(local + "@" + domain + ".", tail, '@');
    assert "@"[..0] == [] && "."[..0] == [];
    assert forall k :: 0 <= k < |s| && s[k] == '@' ==> k == at;
  }

  /** None of the pattern's classes holds a line break. */
  lemma {:induction false} ShapedHasNoBreak(b: string, at: int, dot: int)
    requires ShapedAt(b, at, dot)
    ensures '\n' !in b
  {
    forall k | 0 <= k < |b| ensures b[k] != '\n' {
      if k < at {
        assert b[..at][k] == b[k];
      } else if at < k < dot {
        assert b[at + 1..dot][k - at - 1] == b[k];
      } else if k > dot {
        assert b[dot + 1..][k - dot - 1] == b[k];
      }
    }
  }

  /** No line break inside an accepted address: only the final character may be one. */
  lemma AcceptedLineBreaks(s: string)
    requires Matches(s)
    ensures forall k :: 0 <= k < |s| - 1 ==> s[k] != '\n'
    ensures ScanEmailBody(s) ==> '\n' !in s
  {
    if ScanEmailBody(s) {
      ScanSound(s);
      ShapedHasNoBreak(s, AtOf(s), DotOf(s));
    } else {
      var b := s[..|s| - 1];
      ScanSound(b);
      ShapedHasNoBreak(b, AtOf(b), DotOf(b));
      assert forall k :: 0 <= k < |s| - 1 ==> s[k] == b[k];
    }
  }

  /** The scan only accepts text whose last character is of the tail's class. */
  lemma ScanEndsInTail(s: string)
    requires ScanEmailBody(s)
    ensures |s| > 0 && IsTailChar(s[|s| - 1])
  {
    var dot := DotOf(s);
    assert s[dot + 1..][|s| - dot - 2] == s[|s| - 1];
  }

  /** One trailing line break is accepted, as Python's `$` allows, but not two. */
  lemma TrailingLineBreakAccepted(s: string)
    requires Matches(s) && (|s| == 0 || s[|s| - 1] != '\n')
    ensures Matches(s + "\n")
    ensures !Matches(s + "\n\n")
  {
    var t := s + "\n";
    assert t[..|s|] == s;
    assert (t + "\n")[..|t|] == t;
    assert s + "\n\n" == t + "\n";
    if ScanEmailBody(t) {
      ScanEndsInTail(t);
      assert false;
    }
    if ScanEmailBody(t + "\n") {
      ScanEndsInTail(t + "\n");
      assert false;
    }
  }

  /** `a@b.c` and `a@b.c\n` are accepted; `a@bc`, `@b.c` and `a@.c` are not. */
  lemma Examples()
    ensures Matches("a@b.c") && Matches("a@b.c\n")
    ensures !Matches("a@bc") && !Matches("@b.c") && !Matches("a@.c")
  {
    assert "a@b.c"[..1] == "a" && "a@b.c"[2..3] == "b" && "a@b.c"[4..] == "c";
    ScanComplete("a@b.c", 1, 3);
    assert "a@b.c\n"[..5] == "a@b.c";
  }

  // ------------------------------------------------------------------
  // validate_email and the user dataclasses

  /** `validate_email`: the address itself, or `ValueError("Invalid email: ...")`. */
  function ValidateEmail(email: string): (r: Result<string>)
    ensures r.Ok? <==> Matches(email)
    ensures r.Ok? ==> r.value == email
    ensures r.Err? ==> r.error == "ValueError: Invalid email: " + email
  {
    if Matches(email) then Ok(email) else Err("ValueError: Invalid email: " + email)
  }

  datatype UserBase = UserBase(username: string, email: string)

  datatype UserCreate = UserCreate(username: string, email: string, password: string)

  /** `UserBase(username, email)`: `__post_init__` runs the email check. */
  function NewUserBase(username: string, email: string): (r: Result<UserBase>)
    ensures r.Ok? <==> Matches(email)
    ensures r.Ok? ==> r.value == UserBase(username, email)
    ensures r.Err? ==> r == Err(ValidateEmail(email).error)
  {
    var check := ValidateEmail(email);
    if check.Err? then Err(check.error) else Ok(UserBase(username, email))
  }

  /** `UserCreate(username, email, password)`: the inherited `__post_init__` runs the same
      check. */
  function NewUserCreate(username: string, email: string, password: string): (r: Result<UserCreate>)
    ensures r.Ok? <==> NewUserBase(username, email).Ok?
    ensures r.Ok? ==> r.value == UserCreate(username, email, password)
    ensures r.Err? ==> r.error == NewUserBase(username, email).error
  {
    var check := ValidateEmail(email);
    if check.Err? then Err(check.error) else Ok(UserCreate(username, email, password))
  }

  /** Every constructed user carries an address of the pattern's shape. */
  lemma ConstructedUsersHaveEmails(username: string, email: string, password: string)
    requires NewUserBase(username, email).Ok? || NewUserCreate(username, email, password).Ok?
    ensures IsEmail(email)
  {
    MatchesIsEmail(email);
  }

  // ------------------------------------------------------------------
  // TestResult.to_dict

  /** A naive `datetime`. */
  datatype DateTime = DateTime(year: int, month: int, day: int, hour: int, minute: int, second: int, microsecond: int)

  /** The values a `TestResult` holds. */
  datatype PyValue = PyInt(i: int) | PyStr(s: string) | PyDateTime(d: DateTime) | PyNone

  /** One entry of `__dict__`, in insertion order. */
  datatype Item = Item(key: string, value: PyValue)

  predicate HoldsNoDateTime(items: seq<Item>) {
    forall i :: 0 <= i < |items| ==> !items[i].value.PyDateTime?
  }

  /** `str(v) if isinstance(v, datetime) else v`, with `str` of a `datetime` given as
      `dateText`. */
  function Converted(v: PyValue, dateText: DateTime -> string): PyValue {
    if v.PyDateTime? then PyStr(dateText(v.d)) else v
  }

  /** The dict comprehension of `to_dict` over `__dict__.items()`. */
  function ToDict(items: seq<Item>, dateText: DateTime -> string): (r: seq<Item>) {
    seq(|items|, i requires 0 <= i < |items| => Item(items[i].key, Converted(items[i].value, dateText)))
  }

  /** The same keys in the same order; every `datetime` becomes its text and every other
      value is kept; no `datetime` is left. */
  lemma ToDictShape(items: seq<Item>, dateText: DateTime -> string)
    ensures var r := ToDict(items, dateText);
            |r| == |items| && HoldsNoDateTime(r)
            && (forall i :: 0 <= i < |r| ==> r[i].key == items[i].key)
            && (forall i :: 0 <= i < |r| ==> items[i].value.PyDateTime? ==> r[i].value == PyStr(dateText(items[i].value.d)))
            && (forall i :: 0 <= i < |r| ==> !items[i].value.PyDateTime? ==> r[i].value == items[i].value)
  {
  }

  /** A dictionary without `datetime` values is returned as it is, so converting twice is
      converting once. */
  lemma ToDictIdempotent(items: seq<Item>, dateText: DateTime -> string)
    ensures HoldsNoDateTime(items) ==> ToDict(items, dateText) == items
    ensures ToDict(ToDict(items, dateText), dateText) == ToDict(items, dateText)
  {
    var r := ToDict(items, dateText);
    assert |ToDict(r, dateText)| == |r|;
    if HoldsNoDateTime(items) {
      assert forall i :: 0 <= i < |items| ==> r[i] == items[i];
    }
  }

  datatype TestResult = TestResult(
    id: int, testId: int, totalRequests: int, successfulRequests: int, failedRequests: int,
    averageResponseTimeMs: int, minResponseTimeMs: int, maxResponseTimeMs: int,
    startTime: DateTime, endTime: Option<DateTime>)

  /** `__dict__.items()` of a `TestResult`: its fields in declaration order. */
  function Items(t: TestResult): (items: seq<Item>)
    ensures |items| == 10
  {
    [Item("id", PyInt(t.id)), Item("test_id", PyInt(t.testId)),
     Item("total_requests", PyInt(t.totalRequests)),
     Item("successful_requests", PyInt(t.successfulRequests)),
     Item("failed_requests", PyInt(t.failedRequests)),
     Item("average_response_time_ms", PyInt(t.averageResponseTimeMs)),
     Item("min_response_time_ms", PyInt(t.minResponseTimeMs)),
     Item("max_response_time_ms", PyInt(t.maxResponseTimeMs)),
     Item("start_time", PyDateTime(t.startTime)),
     Item("end_time", if t.endTime.Some? then PyDateTime(t.endTime.value) else PyNone)]
  }

  /** `TestResult.to_dict` */
  function TestResultToDict(t: TestResult, dateText: DateTime -> string): seq<Item> {
    ToDict(Items(t), dateText)
  }

  /** The start time becomes its text, an end time its text or `None`, and the counters are
      kept. */
  lemma TestResultToDictValues(t: TestResult, dateText: DateTime -> string)
    ensures var r := TestResultToDict(t, dateText);
            |r| == 10 && r[8] == Item("start_time", PyStr(dateText(t.startTime)))
            && r[9] == Item("end_time", if t.endTime.Some? then PyStr(dateText(t.endTime.value)) else PyNone)
            && (forall i :: 0 <= i < 8 ==> r[i] == Items(t)[i] && r[i].value.PyInt?)
  {
  }
}
