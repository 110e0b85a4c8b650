/** Normalisation of Kenyan phone numbers to the international `+254…` form.
    The raw text is stripped of surrounding white space, filtered down to
    digits and `+`, rewritten by a prefix rule table and checked for length;
    each failure is one of three errors. */
module Phone {
  import opened Wrappers

  datatype PhoneError = Required | InvalidFormat | BadLength

  /** The message each error is raised with. */
  function Message(e: PhoneError): (m: string)
    ensures m != ""
  {
    match e
    case Required => "Phone number is required"
    case InvalidFormat => "Invalid phone number format"
    case BadLength => "Phone number must be between 10 and 15 digits including country code"
  }

  /** The three errors can be told apart by their messages. */
  lemma MessagesDistinct(e: PhoneError, e': PhoneError)
    requires Message(e) == Message(e')
    ensures e == e'
  {
  }

  /** Bounds on the length of a normalised number, its `+` included. */
  const MinLength: nat := 10
  const MaxLength: nat := 15

  predicate IsDigit(c: char) {
    '0' <= c <= '9'
  }

  /** The characters the filter keeps: ASCII digits and `+`. */
  predicate IsKept(c: char) {
    IsDigit(c) || c == '+'
  }

  /** White space as Python's `str.isspace` defines it, which `str.strip`
      removes from both ends. */
  predicate IsSpace(c: char) {
    ('\t' <= c <= '\r') || ('\U{1C}' <= c <= ' ') || c == '\U{85}' || c == '\U{A0}'
    || c == '\U{1680}' || ('\U{2000}' <= c <= '\U{200A}') || c == '\U{2028}' || c == '\U{2029}'
    || c == '\U{202F}' || c == '\U{205F}' || c == '\U{3000}'
  }

  lemma SpaceIsNotKept(c: char)
    requires IsSpace(c)
    ensures !IsKept(c)
  {
  }

  /** Removes leading white space. */
  function StripLeading(s: string): (r: string)
    ensures |r| <= |s| && r == s[|s| - |r|..]
    ensures r != [] ==> !IsSpace(r[0])
    ensures forall i :: 0 <= i < |s| - |r| ==> IsSpace(s[i])
  {
    if s != [] && IsSpace(s[0]) then
      var t := StripLeading(s[1..]);
      assert s[1..][|s| - 1 - |t|..] == s[|s| - |t|..];
      assert forall i :: 1 <= i < |s| - |t| ==> s[i] == s[1..][i - 1];
      t
    else s
  }

  /** Removes trailing white space. */
  function StripTrailing(s: string): (r: string)
    ensures |r| <= |s| && r == s[..|r|]
    ensures r != [] ==> !IsSpace(r[|r| - 1])
    ensures forall i :: |r| <= i < |s| ==> IsSpace(s[i])
  {
    if s != [] && IsSpace(s[|s| - 1]) then StripTrailing(s[..|s| - 1]) else s
  }

  /** Python's `str.strip()` without arguments. */
  function Strip(s: string): (r: string)
    ensures |r| <= |s|
    ensures r != [] ==> !IsSpace(r[0]) && !IsSpace(r[|r| - 1])
    ensures (s == [] || (!IsSpace(s[0]) && !IsSpace(s[|s| - 1]))) ==> r == s
  {
    var t := StripLeading(s);
    var r := StripTrailing(t);
    assert r != [] ==> r[0] == t[0];
    r
  }

  /** The stripped text is the slice of the input between its leading and
      trailing runs of white space. */
  lemma StripIsSlice(s: string)
    ensures var r := Strip(s); var i := |s| - |StripLeading(s)|;
      i + |r| <= |s| && r == s[i..i + |r|]
      && (forall k :: 0 <= k < i ==> IsSpace(s[k]))
      && (forall k :: i + |r| <= k < |s| ==> IsSpace(s[k]))
  {
    var t := StripLeading(s);
    var r := StripTrailing(t);
    var i := |s| - |t|;
    assert t == s[i..];
    assert r == t[..|r|];
    forall k | i + |r| <= k < |s|
      ensures IsSpace(s[k])
    {
      assert s[k] == t[k - i];
    }
  }

  /** Deletes every character other than a digit or `+`, keeping the order
      of the rest. */
  function Filter(s: string): (r: string)
    ensures |r| <= |s|
    ensures forall i :: 0 <= i < |r| ==> IsKept(r[i])
  {
    if s == [] then [] else (if IsKept(s[0]) then [s[0]] else []) + Filter(s[1..])
  }

  lemma {:induction false} FilterAppend(a: string, b: string)
    ensures Filter(a + b) == Filter(a) + Filter(b)
  {
    if a == [] {
      assert a + b == b;
    } else {
      assert (a + b)[1..] == a[1..] + b;
      FilterAppend(a[1..], b);
    }
  }

  /** Filtering leaves a string of digits and `+` as it is. */
  lemma {:induction false} FilterOfKept(s: string)
    requires forall i :: 0 <= i < |s| ==> IsKept(s[i])
    ensures Filter(s) == s
  {
    if s != [] {
      FilterOfKept(s[1..]);
    }
  }

  /** Filtering removes every character that is neither a digit nor `+`. */
  lemma {:induction false} FilterOfDropped(s: string)
    requires forall i :: 0 <= i < |s| ==> !IsKept(s[i])
    ensures Filter(s) == []
  {
    if s != [] {
      FilterOfDropped(s[1..]);
    }
  }

  lemma {:induction false} FilterOfLeadingStripped(s: string)
    ensures Filter(StripLeading(s)) == Filter(s)
  {
    if s != [] && IsSpace(s[0]) {
      SpaceIsNotKept(s[0]);
      FilterOfLeadingStripped(s[1..]);
    }
  }

  lemma {:induction false} FilterOfTrailingStripped(s: string)
    ensures Filter(StripTrailing(s)) == Filter(s)
  {
    if s != [] && IsSpace(s[|s| - 1]) {
      var init, last := s[..|s| - 1], s[|s| - 1];
      assert s == init + [last];
      FilterAppend(init, [last]);
      SpaceIsNotKept(last);
      assert Filter([last]) == [];
      FilterOfTrailingStripped(init);
    }
  }

  /** Stripping before filtering makes no difference: the filter drops the
      white space that `strip` would have removed. */
  lemma StripIsRedundant(s: string)
    ensures Filter(Strip(s)) == Filter(s)
  {
    FilterOfTrailingStripped(StripLeading(s));
    FilterOfLeadingStripped(s);
  }

  /** The cleaned text: stripped, then filtered down to digits and `+`. */
  function Clean(raw: string): (r: string)
    ensures forall i :: 0 <= i < |r| ==> IsKept(r[i])
    ensures r == Filter(raw)
  {
    StripIsRedundant(raw);
    Filter(Strip(raw))
  }

  predicate StartsWith(s: string, prefix: string) {
    |prefix| <= |s| && s[..|prefix|] == prefix
  }

  /** The prefix rule table, tried in order; `None` when no rule applies. */
  function Rewrite(cleaned: string): (r: Option<string>)
    ensures r.Some? <==> StartsWith(cleaned, "+") || StartsWith(cleaned, "07") || StartsWith(cleaned, "2547")
    ensures r.Some? ==> |r.value| > 0 && r.value[0] == '+'
    ensures r.Some? && (forall i :: 0 <= i < |cleaned| ==> IsKept(cleaned[i])) ==>
      forall i :: 0 <= i < |r.value| ==> IsKept(r.value[i])
  {
    if StartsWith(cleaned, "+2547") then Some(cleaned)
    else if StartsWith(cleaned, "07") then Some("+254" + cleaned[1..])
    else if StartsWith(cleaned, "2547") then Some("+" + cleaned)
    else if StartsWith(cleaned, "+") then Some(cleaned)
    else None
  }

  /** Normalises a phone number; an absent number is the empty string. A
      normalised number has 10 to 15 characters, all digits or `+`, and
      begins with `+`. */
  function Normalize(raw: string): (r: Result<string, PhoneError>)
    ensures r.Success? ==> MinLength <= |r.value| <= MaxLength
    ensures r.Success? ==> r.value[0] == '+'
    ensures r.Success? ==> forall i :: 0 <= i < |r.value| ==> IsKept(r.value[i])
  {
    if raw == "" then Failure(Required)
    else
      var cleaned := Clean(raw);
      match Rewrite(cleaned)
      case None => Failure(InvalidFormat)
      case Some(normalized) =>
        if |normalized| < MinLength || |normalized| > MaxLength then Failure(BadLength)
        else Success(normalized)
  }

  /** Exactly the empty input is rejected as missing. */
  lemma NormalizeRequired(raw: string)
    ensures Normalize(raw) == Failure(Required) <==> raw == ""
  {
  }

  /** A local number `07…` gets the country code in place of its leading 0. */
  lemma NormalizeLocalRule(raw: string)
    requires raw != "" && StartsWith(Clean(raw), "07")
    ensures var c := Clean(raw);
      Normalize(raw) == if MinLength <= |c| + 3 <= MaxLength then Success("+254" + c[1..]) else Failure(BadLength)
  {
    var c := Clean(raw);
    assert c[0] == '0';
    assert !StartsWith(c, "+2547");
  }

  /** A number `2547…` without the plus sign gets one. */
  lemma NormalizeCountryCodeRule(raw: string)
    requires raw != "" && StartsWith(Clean(raw), "2547")
    ensures var c := Clean(raw);
      Normalize(raw) == if MinLength <= |c| + 1 <= MaxLength then Success("+" + c) else Failure(BadLength)
  {
    var c := Clean(raw);
    assert c[0] == '2';
    assert !StartsWith(c, "+2547") && !StartsWith(c, "07");
  }

  /** A number already starting with `+` (`+2547…` among them) is kept as
      it was cleaned. */
  lemma NormalizePlusRule(raw: string)
    requires raw != "" && StartsWith(Clean(raw), "+")
    ensures var c := Clean(raw);
      Normalize(raw) == if MinLength <= |c| <= MaxLength then Success(c) else Failure(BadLength)
  {
    var c := Clean(raw);
    assert c[0] == '+';
    assert !StartsWith(c, "07") && !StartsWith(c, "2547");
    assert Rewrite(c) == Some(c);
  }

  /** The format is rejected exactly when the input is present but its
      cleaned text matches none of the three prefixes. */
  lemma NormalizeInvalidFormat(raw: string)
    ensures Normalize(raw) == Failure(InvalidFormat) <==>
      raw != "" && !StartsWith(Clean(raw), "+") && !StartsWith(Clean(raw), "07") && !StartsWith(Clean(raw), "2547")
  {
  }

  /** A string in normal form: 10 to 15 digits or `+`, the first a `+`. */
  predicate IsNormalForm(n: string) {
    MinLength <= |n| <= MaxLength && n[0] == '+' && forall i :: 0 <= i < |n| ==> IsKept(n[i])
  }

  /** Every string in normal form is left as it is. */
  lemma NormalFormIsFixed(n: string)
    requires IsNormalForm(n)
    ensures Normalize(n) == Success(n)
  {
    FilterOfKept(n);
    PlusPrefixIsKept(n);
  }

  /** The rule table keeps a number that already starts with `+`. */
  lemma PlusPrefixIsKept(n: string)
    requires |n| > 0 && n[0] == '+'
    ensures Rewrite(n) == Some(n)
  {
    assert StartsWith(n, "+") && !StartsWith(n, "07") && !StartsWith(n, "2547");
  }

  /** Normalising a normalised number gives it back unchanged. */
  lemma NormalizeIdempotent(raw: string, normalized: string)
    requires Normalize(raw) == Success(normalized)
    ensures Normalize(normalized) == Success(normalized)
  {
    NormalFormIsFixed(normalized);
  }
}
