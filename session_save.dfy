/** Saving a training session: the step and dog ids may arrive as strings
    from the route parameters and are parsed as base-10 integers the way
    JavaScript's `parseInt` does; every other field is passed on untouched. */
module SessionSave {
  import opened Text

  /** The JavaScript value of an id field. */
  datatype IdValue = Num(n: int) | NaN | Str(s: string)

  /** The whitespace `parseInt` skips before the number. */
  predicate IsJsSpace(c: char) {
    c == ' ' || c == '\t' || c == '\n' || c == '\r' || c == '\U{B}' || c == '\U{C}' ||
    c == '\U{A0}' || c == '\U{FEFF}' || c == '\U{2028}' || c == '\U{2029}'
  }

  function SkipSpaces(s: string): (r: string)
    ensures |r| <= |s| && r == s[|s| - |r|..]
    ensures r == [] || !IsJsSpace(r[0])
    ensures forall i :: 0 <= i < |s| - |r| ==> IsJsSpace(s[i])
  {
    if s != [] && IsJsSpace(s[0]) then SkipSpaces(s[1..]) else s
  }

  /** The longest prefix of s made of decimal digits. */
  function LeadingDigits(s: string): (d: string)
    ensures |d| <= |s| && d == s[..|d|]
    ensures forall i :: 0 <= i < |d| ==> IsDigit(d[i])
    ensures |d| < |s| ==> !IsDigit(s[|d|])
  {
    if s != [] && IsDigit(s[0]) then [s[0]] + LeadingDigits(s[1..]) else []
  }

  /** The value of the leading run of digits, or NaN when there is none. */
  function ParseDigits(body: string): (r: IdValue)
    ensures !r.Str?
  {
    var ds := LeadingDigits(body);
    if ds == [] then NaN else Num(DigitsValue(ds))
  }

  function Negate(v: IdValue): IdValue {
    if v.Num? then Num(-v.n) else v
  }

  /** `parseInt(s, 10)`: skip leading whitespace, read an optional sign, then
      the longest run of digits; no digits gives NaN. Trailing text is ignored. */
  function ParseInt(s: string): (r: IdValue)
    ensures !r.Str?
  {
    var t := SkipSpaces(s);
    if t != [] && t[0] == '-' then Negate(ParseDigits(t[1..]))
    else if t != [] && t[0] == '+' then ParseDigits(t[1..])
    else ParseDigits(t)
  }

  /** The digits of a number, followed by anything that is not a digit, read as themselves. */
  lemma {:induction false} LeadingDigitsOfDigits(ds: string, rest: string)
    requires forall i :: 0 <= i < |ds| ==> IsDigit(ds[i])
    requires rest == [] || !IsDigit(rest[0])
    ensures LeadingDigits(ds + rest) == ds
  {
    if ds != [] {
      assert (ds + rest)[1..] == ds[1..] + rest;
      LeadingDigitsOfDigits(ds[1..], rest);
    } else {
      assert ds + rest == rest;
    }
  }

  /** The canonical decimal text of an integer. */
  function IntString(n: int): string {
    if n < 0 then "-" + DecimalString(-n) else DecimalString(n)
  }

  /** Text that starts with a digit or a sign has no leading whitespace. */
  lemma NoLeadingSpace(s: string)
    requires s != [] && (IsDigit(s[0]) || s[0] == '-')
    ensures SkipSpaces(s) == s
  {
  }

  /** A run of digits followed by a non-digit has that run as its value. */
  lemma ParseDigitsOfDigits(digits: string, rest: string)
    requires digits != [] && forall i :: 0 <= i < |digits| ==> IsDigit(digits[i])
    requires rest == [] || !IsDigit(rest[0])
    ensures ParseDigits(digits + rest) == Num(DigitsValue(digits))
  {
    LeadingDigitsOfDigits(digits, rest);
  }

  /** Text starting with a digit is read without a sign; after a minus sign it is negated. */
  lemma ParseIntOfDigitStart(body: string)
    requires body != [] && IsDigit(body[0])
    ensures ParseInt(body) == ParseDigits(body)
    ensures ParseInt("-" + body) == Negate(ParseDigits(body))
  {
    NoLeadingSpace(body);
    var s := "-" + body;
    assert s[0] == '-' && s[1..] == body;
    NoLeadingSpace(s);
  }

  /** Text starting with a digit reads as the value of its digits, and
      after a minus sign as the negation of that value. */
  lemma ParseIntOfDigitRun(body: string, k: int)
    requires body != [] && IsDigit(body[0])
    requires ParseDigits(body) == Num(k)
    ensures ParseInt(body) == Num(k)
    ensures ParseInt("-" + body) == Num(-k)
  {
    ParseIntOfDigitStart(body);
    assert ParseInt(body) == ParseDigits(body);
    assert ParseInt("-" + body) == Negate(Num(k));
  }

  /** The decimal text of a natural number, then a non-digit, has that number as its digit value. */
  lemma DecimalDigitRun(m: nat, rest: string)
    requires rest == [] || !IsDigit(rest[0])
    ensures var body := DecimalString(m) + rest;
      body != [] && IsDigit(body[0]) && ParseDigits(body) == Num(m)
  {
    var digits := DecimalString(m);
    DigitsValueOfDecimalString(m);
    ParseDigitsOfDigits(digits, rest);
    assert (digits + rest)[0] == digits[0];
  }

  /** `parseInt` reads back the decimal text of any integer, even with trailing
      text that does not start with a digit. */
  lemma ParseIntReadsDecimal(n: int, rest: string)
    requires rest == [] || !IsDigit(rest[0])
    ensures ParseInt(IntString(n) + rest) == Num(n)
  {
    var m: nat := if n < 0 then -n else n;
    var digits := DecimalString(m);
    var body := digits + rest;
    DecimalDigitRun(m, rest);
    ParseIntOfDigitRun(body, m);
    if n < 0 {
      SignedText(digits, rest);
    } else {
      assert IntString(n) == digits;
    }
  }

  /** A minus sign before digits and then trailing text is the sign before the whole run. */
  lemma SignedText(digits: string, rest: string)
    ensures ("-" + digits) + rest == "-" + (digits + rest)
  {
  }

  /** Text without any digit parses to NaN. */
  lemma {:induction false} NoDigitsIsNaN(s: string)
    requires forall i :: 0 <= i < |s| ==> !IsDigit(s[i])
    ensures ParseInt(s) == NaN
  {
    var t := SkipSpaces(s);
    assert forall i :: 0 <= i < |t| ==> t[i] == s[|s| - |t| + i];
    if t != [] {
      assert forall i :: 0 <= i < |t[1..]| ==> t[1..][i] == t[i + 1];
    }
  }

  /** A string id is parsed, any other value is left as it is. */
  function SanitizeId(id: IdValue): (r: IdValue)
    ensures !r.Str?
    ensures id.Str? ==> r == ParseInt(id.s)
    ensures !id.Str? ==> r == id
  {
    if id.Str? then ParseInt(id.s) else id
  }

  /** The session fields other than the two ids. */
  datatype SessionFields = SessionFields(
    completedAt: string,
    achievements: string,
    challenges: string,
    durationMinutes: int,
    repetitions: int,
    environmentNotes: string,
    dogMood: string,
    rating: int,
    treatsUsed: string,
    trainerMood: string,
    nextSteps: string)

  datatype SessionInput = SessionInput(stepId: IdValue, dogId: IdValue, fields: SessionFields)

  /** `{...session, step_id: ..., dog_id: ...}`: only the ids change. */
  function SanitizeSession(s: SessionInput): (r: SessionInput)
    ensures r.fields == s.fields
    ensures !r.stepId.Str? && !r.dogId.Str?
    ensures r.stepId == SanitizeId(s.stepId) && r.dogId == SanitizeId(s.dogId)
  {
    s.(stepId := SanitizeId(s.stepId), dogId := SanitizeId(s.dogId))
  }

  /** Sanitising twice is the same as once. */
  lemma SanitizeIdempotent(s: SessionInput)
    ensures SanitizeSession(SanitizeSession(s)) == SanitizeSession(s)
  {
  }

  /** A session whose ids are the decimal text of integers is saved with those integers. */
  lemma SanitizeDecimalIds(stepId: int, dogId: int, fields: SessionFields)
    ensures SanitizeSession(SessionInput(Str(IntString(stepId)), Str(IntString(dogId)), fields)) ==
            SessionInput(Num(stepId), Num(dogId), fields)
  {
    ParseIntReadsDecimal(stepId, []);
    ParseIntReadsDecimal(dogId, []);
    assert IntString(stepId) + [] == IntString(stepId);
    assert IntString(dogId) + [] == IntString(dogId);
  }
}
