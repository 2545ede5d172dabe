/**
 * The few pieces of Python semantics the app relies on: exceptions that escape,
 * truthiness of an optional string, `q in s` on strings, and how an f-string
 * renders `None` and an `int`.
 */
module Python {
  import opened Wrappers

  /** Exceptions that the modelled code does not catch; Streamlit shows them and ends the run. */
  datatype Raised =
    | NullNamespace   // the Kubernetes client rejects `namespace=None` before sending (not an ApiException)
    | NoneNotAString  // `None in pod.metadata.name` raises TypeError
    | NoneHasNoGet    // `None.get(...)` raises AttributeError

  /** `if s:` for a value that is a string or None. */
  predicate Truthy(o: Option<string>) {
    o.Some? && o.value != ""
  }

  /** `f"{s}"` for a value that is a string or None. */
  function Format(o: Option<string>): (r: string)
    ensures o.Some? ==> r == o.value
    ensures o.None? ==> r == "None"
  {
    match o
    case Some(s) => s
    case None => "None"
  }

  /** `q in s` for two strings: q occurs in s as a contiguous block (the empty string occurs everywhere). */
  predicate Contains(s: string, q: string)
    decreases |s|
  {
    q <= s || (|s| > 0 && Contains(s[1..], q))
  }

  /** Contains agrees with the positional definition of a substring. */
  lemma {:induction false} ContainsIffOccurs(s: string, q: string)
    ensures Contains(s, q) <==> exists i :: 0 <= i <= |s| && q <= s[i..]
    decreases |s|
  {
    if |s| > 0 {
      ContainsIffOccurs(s[1..], q);
    }
    if Contains(s, q) {
      if q <= s {
        assert s[0..] == s;
      } else {
        var i :| 0 <= i <= |s| - 1 && q <= s[1..][i..];
        assert s[1..][i..] == s[i + 1..];
      }
    }
    if exists i :: 0 <= i <= |s| && q <= s[i..] {
      var i :| 0 <= i <= |s| && q <= s[i..];
      if i == 0 {
        assert s[0..] == s;
      } else {
        assert s[1..][i - 1..] == s[i..];
      }
    }
  }

  // ----- str(int), as used by `f"{replicas}"` -----

  predicate AllDigits(s: string) {
    forall i :: 0 <= i < |s| ==> '0' <= s[i] <= '9'
  }

  function DigitChar(d: nat): (c: char)
    requires d < 10
    ensures '0' <= c <= '9'
  {
    ('0' as int + d) as char
  }

  function DigitValue(c: char): (d: nat)
    requires '0' <= c <= '9'
    ensures d < 10
  {
    c as int - '0' as int
  }

  /** Decimal digits of a natural number, most significant first, no leading zeros. */
  function Digits(n: nat): (s: string)
    ensures |s| > 0 && AllDigits(s)
    decreases n
  {
    if n < 10 then [DigitChar(n)] else Digits(n / 10) + [DigitChar(n % 10)]
  }

  /** Python's `str(n)` for an `int`. */
  function ShowInt(n: int): (s: string)
    ensures IsIntLiteral(s)
  {
    if n < 0 then "-" + Digits(-n) else Digits(n)
  }

  predicate IsIntLiteral(s: string) {
    |s| > 0 &&
    if s[0] == '-' then |s| > 1 && AllDigits(s[1..]) else AllDigits(s)
  }

  function ParseDigits(s: string): nat
    requires |s| > 0 && AllDigits(s)
    decreases |s|
  {
    if |s| == 1 then DigitValue(s[0])
    else 10 * ParseDigits(s[..|s| - 1]) + DigitValue(s[|s| - 1])
  }

  /** Python's `int(s)` on a decimal literal. */
  function ParseInt(s: string): int
    requires IsIntLiteral(s)
  {
    if s[0] == '-' then 0 - ParseDigits(s[1..]) else ParseDigits(s)
  }

  lemma {:induction false} DigitsRoundTrip(n: nat)
    ensures ParseDigits(Digits(n)) == n
    decreases n
  {
    if n >= 10 {
      var s := Digits(n);
      assert s == Digits(n / 10) + [DigitChar(n % 10)];
      assert s[..|s| - 1] == Digits(n / 10);
      DigitsRoundTrip(n / 10);
    }
  }

  /** The replica count written into a message can be read back exactly. */
  lemma {:induction false} ShowIntRoundTrip(n: int)
    ensures ParseInt(ShowInt(n)) == n
  {
    if n < 0 {
      assert ShowInt(n)[1..] == Digits(-n);
      DigitsRoundTrip(-n);
    } else {
      DigitsRoundTrip(n);
    }
  }
}
