/**
 * The persisted records of the application (the session's profile and the
 * held ticket) are stored as the JSON text of flat objects whose member
 * values are integers, strings or null.  This module gives that text
 * format a concrete shape, a writer (`Stringify`) and a reader (`Parse`),
 * and proves that reading back what was written gives the members back.
 *
 * The writer produces the compact form (no white space); strings escape
 * only the quote and the backslash.  The reader accepts exactly that
 * form and fails on anything else.
 */
module Json {
  import opened Wrappers

  /** A member value of a flat JSON object. */
  datatype Scalar = JInt(i: int) | JStr(s: string) | JNull

  /** A member of a JSON object: its name and its value. */
  type Member = (string, Scalar)

  predicate IsDigit(c: char) {
    '0' <= c <= '9'
  }

  predicate AllDigits(s: string) {
    forall i :: 0 <= i < |s| ==> IsDigit(s[i])
  }

  /** True when `s` does not start with a digit (so a number before it ends there). */
  predicate NoDigitFirst(s: string) {
    s == [] || !IsDigit(s[0])
  }

  // ---------------------------------------------------------------------
  // Numbers
  // ---------------------------------------------------------------------

  function DigitChar(d: nat): (c: char)
    requires d < 10
    ensures IsDigit(c) && c as int - '0' as int == d
  {
    (d + '0' as int) as char
  }

  /** Decimal notation of `n`, most significant digit first, no leading zero. */
  function NatToString(n: nat): (r: string)
    ensures |r| > 0 && AllDigits(r)
    decreases n
  {
    if n < 10 then [DigitChar(n)] else NatToString(n / 10) + [DigitChar(n % 10)]
  }

  /** The number a string of decimal digits denotes. */
  function DigitsValue(ds: string): nat
    requires AllDigits(ds)
    decreases |ds|
  {
    if ds == [] then 0
    else DigitsValue(ds[..|ds| - 1]) * 10 + (ds[|ds| - 1] as int - '0' as int)
  }

  lemma {:induction false} DigitsValueOfNatToString(n: nat)
    ensures DigitsValue(NatToString(n)) == n
    decreases n
  {
    var ds := NatToString(n);
    if n < 10 {
      assert ds[..|ds| - 1] == [];
    } else {
      assert ds[..|ds| - 1] == NatToString(n / 10);
      DigitsValueOfNatToString(n / 10);
    }
  }

  /** Splits `s` into its longest prefix of digits and the rest. */
  function SpanDigits(s: string): (r: (string, string))
    ensures AllDigits(r.0) && r.0 + r.1 == s
    ensures NoDigitFirst(r.1)
    decreases |s|
  {
    if s != [] && IsDigit(s[0]) then
      var tail := SpanDigits(s[1..]);
      var ds := [s[0]] + tail.0;
      assert ds + tail.1 == s by {
        assert ds + tail.1 == [s[0]] + (tail.0 + tail.1);
      }
      assert AllDigits(ds) by {
        forall i | 0 <= i < |ds| ensures IsDigit(ds[i]) {
          if i > 0 {
            assert ds[i] == tail.0[i - 1];
          }
        }
      }
      (ds, tail.1)
    else
      ([], s)
  }

  lemma {:induction false} SpanDigitsOf(ds: string, rest: string)
    requires AllDigits(ds) && NoDigitFirst(rest)
    ensures SpanDigits(ds + rest) == (ds, rest)
    decreases |ds|
  {
    if ds == [] {
      assert ds + rest == rest;
    } else {
      assert (ds + rest)[1..] == ds[1..] + rest;
      SpanDigitsOf(ds[1..], rest);
      assert [ds[0]] + ds[1..] == ds;
    }
  }

  /** Decimal notation of an integer, with a leading `-` when negative. */
  function IntToString(i: int): (r: string)
    ensures |r| > 0 && (IsDigit(r[0]) || r[0] == '-')
  {
    if i < 0 then "-" + NatToString(-i) else NatToString(i)
  }

  /** Reads an unsigned decimal integer at the front of `s`. */
  function ParseNat(s: string): (r: Option<(nat, string)>)
    ensures r.Some? ==> |r.value.1| < |s| && NoDigitFirst(r.value.1)
  {
    var span := SpanDigits(s);
    if span.0 == [] then None else Some((DigitsValue(span.0), span.1))
  }

  /** Reads an optionally negative decimal integer at the front of `s`. */
  function ParseInt(s: string): (r: Option<(int, string)>)
    ensures r.Some? ==> |r.value.1| < |s| && NoDigitFirst(r.value.1)
  {
    if s != [] && s[0] == '-' then
      match ParseNat(s[1..])
      case None => None
      case Some((n, rest)) => Some((-(n as int), rest))
    else
      match ParseNat(s)
      case None => None
      case Some((n, rest)) => Some((n as int, rest))
  }

  lemma ParseNatOf(n: nat, rest: string)
    requires NoDigitFirst(rest)
    ensures ParseNat(NatToString(n) + rest) == Some((n, rest))
  {
    SpanDigitsOf(NatToString(n), rest);
    DigitsValueOfNatToString(n);
  }

  lemma ParseNegativeOf(n: nat, rest: string)
    requires NoDigitFirst(rest)
    ensures ParseInt("-" + (NatToString(n) + rest)) == Some((-(n as int), rest))
  {
    var t := NatToString(n) + rest;
    var s := "-" + t;
    assert s[0] == '-' && s[1..] == t;
    ParseNatOf(n, rest);
  }

  lemma ParseUnsignedOf(n: nat, rest: string)
    requires NoDigitFirst(rest)
    ensures ParseInt(NatToString(n) + rest) == Some((n as int, rest))
  {
    var ds := NatToString(n);
    assert (ds + rest)[0] == ds[0] && IsDigit(ds[0]);
    ParseNatOf(n, rest);
  }

  lemma ParseIntOf(i: int, rest: string)
    requires NoDigitFirst(rest)
    ensures ParseInt(IntToString(i) + rest) == Some((i, rest))
  {
    if i < 0 {
      assert IntToString(i) + rest == "-" + (NatToString(-i) + rest);
      ParseNegativeOf(-i, rest);
    } else {
      ParseUnsignedOf(i, rest);
    }
  }

  // ---------------------------------------------------------------------
  // Strings
  // ---------------------------------------------------------------------

  function EscapeChar(c: char): string {
    if c == '"' || c == '\\' then ['\\', c] else [c]
  }

  /** The body of a JSON string literal for `s` (without the quotes), followed by `tail`. */
  function Escape(s: string, tail: string): string
    decreases |s|
  {
    if s == [] then tail else EscapeChar(s[0]) + Escape(s[1..], tail)
  }

  /**
   * Reads the body of a string literal whose opening quote has already been
   * consumed: returns the content and what follows the closing quote.
   */
  function ParseStringBody(s: string): (r: Option<(string, string)>)
    ensures r.Some? ==> |r.value.1| < |s|
    decreases |s|
  {
    if s == [] then None
    else if s[0] == '"' then Some(([], s[1..]))
    else if s[0] == '\\' then
      if |s| < 2 then None
      else match ParseStringBody(s[2..])
        case None => None
        case Some((c, rest)) => Some(([s[1]] + c, rest))
    else
      match ParseStringBody(s[1..])
      case None => None
      case Some((c, rest)) => Some(([s[0]] + c, rest))
  }

  lemma {:induction false} ParseStringBodyOf(x: string, rest: string)
    ensures ParseStringBody(Escape(x, ['"'] + rest)) == Some((x, rest))
    decreases |x|
  {
    if x == [] {
      assert Escape(x, ['"'] + rest) == ['"'] + rest;
    } else {
      var tail := Escape(x[1..], ['"'] + rest);
      ParseStringBodyOf(x[1..], rest);
      var s := EscapeChar(x[0]) + tail;
      assert Escape(x, ['"'] + rest) == s;
      if x[0] == '"' || x[0] == '\\' {
        assert s[0] == '\\' && s[1] == x[0] && s[2..] == tail;
      } else {
        assert s[0] == x[0] && s[1..] == tail;
      }
      assert [x[0]] + x[1..] == x;
    }
  }

  // ---------------------------------------------------------------------
  // Values, members, objects
  // ---------------------------------------------------------------------

  /** The text of a scalar, followed by `tail`. */
  function EncodeValue(v: Scalar, tail: string): string {
    match v
    case JInt(i) => IntToString(i) + tail
    case JStr(x) => ['"'] + Escape(x, ['"'] + tail)
    case JNull => "null" + tail
  }

  function ParseValue(s: string): (r: Option<(Scalar, string)>)
    ensures r.Some? ==> |r.value.1| < |s|
  {
    if s == [] then None
    else if s[0] == '"' then
      match ParseStringBody(s[1..])
      case None => None
      case Some((c, rest)) => Some((JStr(c), rest))
    else if s[0] == 'n' then
      if |s| >= 4 && s[..4] == "null" then Some((JNull, s[4..])) else None
    else
      match ParseInt(s)
      case None => None
      case Some((i, rest)) => Some((JInt(i), rest))
  }

  lemma ParseValueOf(v: Scalar, rest: string)
    requires NoDigitFirst(rest)
    ensures ParseValue(EncodeValue(v, rest)) == Some((v, rest))
  {
    var s := EncodeValue(v, rest);
    match v
    case JInt(i) =>
      assert s[0] == IntToString(i)[0];
      ParseIntOf(i, rest);
    case JStr(x) =>
      assert s[0] == '"' && s[1..] == Escape(x, ['"'] + rest);
      ParseStringBodyOf(x, rest);
    case JNull =>
      assert s[0] == 'n' && s[..4] == "null" && s[4..] == rest;
  }

  /** The text `"name":value` of a member, followed by `tail`. */
  function EncodeMember(m: Member, tail: string): (r: string)
    ensures |r| > 0 && r[0] == '"'
  {
    ['"'] + Escape(m.0, ['"'] + ([':'] + EncodeValue(m.1, tail)))
  }

  function ParseMember(s: string): (r: Option<(Member, string)>)
    ensures r.Some? ==> |r.value.1| < |s|
  {
    if s == [] || s[0] != '"' then None
    else match ParseStringBody(s[1..])
      case None => None
      case Some((k, rest)) =>
        if rest == [] || rest[0] != ':' then None
        else match ParseValue(rest[1..])
          case None => None
          case Some((v, after)) => Some(((k, v), after))
  }

  lemma ParseMemberOf(m: Member, rest: string)
    requires NoDigitFirst(rest)
    ensures ParseMember(EncodeMember(m, rest)) == Some((m, rest))
  {
    var s := EncodeMember(m, rest);
    var r := [':'] + EncodeValue(m.1, rest);
    assert s[1..] == Escape(m.0, ['"'] + r);
    ParseStringBodyOf(m.0, r);
    assert r[0] == ':' && r[1..] == EncodeValue(m.1, rest);
    ParseValueOf(m.1, rest);
  }

  /** The members' texts separated by commas, followed by `tail`. */
  function EncodeMembers(ms: seq<Member>, tail: string): (r: string)
    requires ms != []
    ensures |r| > 0 && r[0] == '"'
    decreases |ms|
  {
    if |ms| == 1 then EncodeMember(ms[0], tail)
    else EncodeMember(ms[0], [','] + EncodeMembers(ms[1..], tail))
  }

  /** JSON text of the object with members `ms`, in order (`JSON.stringify`). */
  function Stringify(ms: seq<Member>): (r: string)
    ensures |r| >= 2 && r[0] == '{'
  {
    if ms == [] then "{}" else ['{'] + EncodeMembers(ms, "}")
  }

  /** Reads `member (',' member)* '}'` and requires the text to end there. */
  function ParseMembers(s: string): Option<seq<Member>>
    decreases |s|
  {
    match ParseMember(s)
    case None => None
    case Some((m, rest)) =>
      if rest == ['}'] then Some([m])
      else if rest != [] && rest[0] == ',' then
        match ParseMembers(rest[1..])
        case None => None
        case Some(ms) => Some([m] + ms)
      else None
  }

  /** Reads the JSON text of a flat object (`JSON.parse`); `None` when it is not one. */
  function Parse(s: string): Option<seq<Member>> {
    if s == "{}" then Some([])
    else if s != [] && s[0] == '{' then ParseMembers(s[1..])
    else None
  }

  /** One step of `ParseMembers`: a member followed by a comma, then the remaining members. */
  lemma ParseMembersStep(s: string, m: Member, rest: string)
    requires ParseMember(s) == Some((m, rest)) && rest != [] && rest[0] == ','
    ensures ParseMembers(s) ==
      match ParseMembers(rest[1..])
      case None => None
      case Some(ms) => Some([m] + ms)
  {
    assert rest != ['}'];
  }

  lemma {:induction false} ParseMembersOf(ms: seq<Member>)
    requires ms != []
    ensures ParseMembers(EncodeMembers(ms, "}")) == Some(ms)
    decreases |ms|
  {
    if |ms| == 1 {
      ParseMemberOf(ms[0], "}");
      assert [ms[0]] == ms;
    } else {
      var tail := [','] + EncodeMembers(ms[1..], "}");
      assert EncodeMembers(ms, "}") == EncodeMember(ms[0], tail);
      ParseMemberOf(ms[0], tail);
      assert tail[1..] == EncodeMembers(ms[1..], "}");
      ParseMembersStep(EncodeMembers(ms, "}"), ms[0], tail);
      ParseMembersOf(ms[1..]);
      assert [ms[0]] + ms[1..] == ms;
    }
  }

  /** Reading back the text written for any members gives those members. */
  lemma ParseStringify(ms: seq<Member>)
    ensures Parse(Stringify(ms)) == Some(ms)
  {
    if ms != [] {
      var s := Stringify(ms);
      var body := EncodeMembers(ms, "}");
      assert s[0] == '{' && s[1..] == body;
      assert s != "{}" by {
        assert s[1] == '"';
      }
      ParseMembersOf(ms);
    }
  }

  /**
   * The value of the member named `k`; with several such members the LAST
   * one wins, as with `JSON.parse`.
   */
  function Lookup(ms: seq<Member>, k: string): Option<Scalar>
    decreases |ms|
  {
    if ms == [] then None
    else if ms[|ms| - 1].0 == k then Some(ms[|ms| - 1].1)
    else Lookup(ms[..|ms| - 1], k)
  }

  /** A member is absent exactly when none has the name; otherwise it is the last one with the name. */
  lemma {:induction false} LookupFindsLast(ms: seq<Member>, k: string)
    ensures Lookup(ms, k).None? <==> forall i :: 0 <= i < |ms| ==> ms[i].0 != k
    ensures Lookup(ms, k).Some? ==>
      exists i :: 0 <= i < |ms| && ms[i] == (k, Lookup(ms, k).value) &&
        forall j :: i < j < |ms| ==> ms[j].0 != k
    decreases |ms|
  {
    if ms == [] {
    } else if ms[|ms| - 1].0 == k {
      var last := |ms| - 1;
      assert ms[last] == (k, Lookup(ms, k).value);
    } else {
      var init := ms[..|ms| - 1];
      LookupFindsLast(init, k);
      assert Lookup(ms, k) == Lookup(init, k);
      if Lookup(ms, k).Some? {
        var i :| 0 <= i < |init| && init[i] == (k, Lookup(init, k).value) &&
          forall j :: i < j < |init| ==> init[j].0 != k;
        assert ms[i] == init[i];
        assert forall j :: i < j < |ms| ==> ms[j].0 != k by {
          forall j | i < j < |ms| ensures ms[j].0 != k {
            if j < |init| {
              assert ms[j] == init[j];
            }
          }
        }
      } else {
        assert forall i :: 0 <= i < |ms| ==> ms[i].0 != k by {
          forall i | 0 <= i < |ms| ensures ms[i].0 != k {
            if i < |init| {
              assert ms[i] == init[i];
            }
          }
        }
      }
    }
  }

  /** A member whose name no other member has is what `Lookup` finds. */
  lemma {:induction false} LookupUnique(ms: seq<Member>, i: nat, k: string)
    requires i < |ms| && ms[i].0 == k
    requires forall j :: 0 <= j < |ms| && j != i ==> ms[j].0 != k
    ensures Lookup(ms, k) == Some(ms[i].1)
    decreases |ms|
  {
    if i < |ms| - 1 {
      var init := ms[..|ms| - 1];
      assert ms[|ms| - 1].0 != k;
      assert init[i] == ms[i];
      assert forall j :: 0 <= j < |init| && j != i ==> init[j].0 != k by {
        forall j | 0 <= j < |init| && j != i ensures init[j].0 != k {
          assert init[j] == ms[j];
        }
      }
      LookupUnique(init, i, k);
    }
  }

  /** A member appended at the end hides the earlier ones of its name and no other. */
  lemma LookupAppend(ms: seq<Member>, m: Member, k: string)
    ensures Lookup(ms + [m], k) == if m.0 == k then Some(m.1) else Lookup(ms, k)
  {
    assert (ms + [m])[..|ms|] == ms;
  }
}
