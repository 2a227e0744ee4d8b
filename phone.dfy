// The WhatsApp phone-number sanitiser of src/lib/utils.ts: drop every
// non-digit, then drop one leading '0'.
module PhoneUtils {

  predicate IsDigit(c: char) { '0' <= c <= '9' }

  predicate AllDigits(s: string) { forall i :: 0 <= i < |s| ==> IsDigit(s[i]) }

  /** `phone.replace(/\D/g, '')`: the digits of `s`, in order. */
  function Digits(s: string): (r: string)
    ensures AllDigits(r)
    ensures |r| <= |s|
    ensures AllDigits(s) ==> r == s
  {
    if s == [] then []
    else if IsDigit(s[0]) then [s[0]] + Digits(s[1..])
    else Digits(s[1..])
  }

  /** `sanitizePhoneNumberForWhatsApp`. An empty string is falsy and gives "".
      Otherwise the result is the input's digits, in order, with one leading
      '0' removed exactly when the digits start with '0'; it is all digits and
      never longer than the digits. */
  function Sanitize(phone: string): (r: string)
    ensures phone == [] ==> r == []
    ensures AllDigits(r)
    ensures |r| <= |Digits(phone)| <= |phone|
    ensures Digits(phone) == r || Digits(phone) == ['0'] + r
    ensures Digits(phone) == ['0'] + r <==> |Digits(phone)| > 0 && Digits(phone)[0] == '0'
  {
    if phone == [] then []
    else
      var d := Digits(phone);
      if |d| > 0 && d[0] == '0' then
        assert d == ['0'] + d[1..];
        d[1..]
      else d
  }

  /** A single character: a digit is kept, anything else dropped. With
      `DigitsAppend` this determines `Digits` on every input. */
  lemma DigitsOfChar(c: char)
    ensures Digits([c]) == if IsDigit(c) then [c] else []
  {
    assert [c][1..] == [];
  }

  /** Text without digits sanitises to nothing: every non-digit is dropped. */
  lemma {:induction false} DigitsOfNonDigits(s: string)
    requires forall i :: 0 <= i < |s| ==> !IsDigit(s[i])
    ensures Digits(s) == []
  {
    if s != [] {
      DigitsOfNonDigits(s[1..]);
    }
  }

  /** The digits are kept in order: appending text appends its digits. */
  lemma {:induction false} DigitsAppend(s: string, t: string)
    ensures Digits(s + t) == Digits(s) + Digits(t)
  {
    if s == [] {
      assert s + t == t;
    } else {
      assert (s + t)[1..] == s[1..] + t;
      DigitsAppend(s[1..], t);
    }
  }

  /** Each digit of the input survives the removal of non-digits. */
  lemma {:induction false} DigitsKeepsEveryDigit(s: string, i: nat)
    requires i < |s| && IsDigit(s[i])
    ensures s[i] in Digits(s)
  {
    if i == 0 {
      assert Digits(s)[0] == s[0];
    } else {
      DigitsKeepsEveryDigit(s[1..], i - 1);
      assert s[1..][i - 1] == s[i];
    }
  }

  /** The doc comment promises a result that never starts with '0'; the code
      strips a single '0', so "00123" keeps a leading zero. */
  lemma LeadingZeroSurvives()
    ensures Sanitize("00123") == "0123"
    ensures Sanitize("00123")[0] == '0'
  {
    assert Digits("00123") == "00123";
  }

  /** Sanitising is not idempotent once the digits start with "00". */
  lemma NotIdempotent()
    ensures Sanitize(Sanitize("00123")) == "123"
    ensures Sanitize(Sanitize("00123")) != Sanitize("00123")
  {
    LeadingZeroSurvives();
    assert Digits("0123") == "0123";
  }

  /** A second pass changes nothing exactly when the first result does not start with '0'. */
  lemma {:induction false} SanitizeTwice(phone: string)
    ensures var once := Sanitize(phone);
      (Sanitize(once) == once) <==> (once == [] || once[0] != '0')
  {
    var once := Sanitize(phone);
    assert Digits(once) == once;
    if once != [] && once[0] == '0' {
      assert |Sanitize(once)| == |once| - 1;
    }
  }
}
