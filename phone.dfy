/** Phone numbers on the invoice form: validation (exactly ten digits once
    every non-digit is dropped), removal of the "+91 " country code from an
    edited value before it is stored, and the display value that puts the
    code back in front of a stored number. */
module Phone {

  /** The country code shown in front of a stored number. */
  const CountryCode: string := "+91 "

  /** The characters `\d` matches: the ASCII digits. */
  predicate IsDigit(c: char) {
    '0' <= c <= '9'
  }

  /** The digits of `s` in their order: `s` with every non-digit removed. */
  function Digits(s: string): (r: string)
    ensures |r| <= |s|
    ensures forall i :: 0 <= i < |r| ==> IsDigit(r[i])
    ensures (forall i :: 0 <= i < |s| ==> IsDigit(s[i])) ==> r == s
  {
    if s == [] then []
    else Digits(s[..|s| - 1]) + (if IsDigit(s[|s| - 1]) then [s[|s| - 1]] else [])
  }

  /** The positions of `s` that hold a digit. */
  ghost function DigitPositions(s: string): set<nat> {
    set i: nat | i < |s| && IsDigit(s[i])
  }

  /** A phone number is valid when it holds exactly ten digits. */
  function ValidatePhoneNumber(phone: string): (ok: bool)
    ensures ok ==> |phone| >= 10
    ensures (forall i :: 0 <= i < |phone| ==> IsDigit(phone[i])) ==> (ok <==> |phone| == 10)
  {
    |Digits(phone)| == 10
  }

  /** The value shown in a phone field: empty for an empty number, otherwise
      the country code followed by the number. */
  function DisplayPhone(phone: string): (r: string)
    ensures r == "" <==> phone == ""
    ensures phone != "" ==> |r| == |CountryCode| + |phone| && r[..|CountryCode|] == CountryCode
    ensures phone != "" ==> r[|CountryCode|..] == phone
  {
    if phone == "" then "" else CountryCode + phone
  }

  /** The country code occurs in `v` starting at position `k`. */
  predicate CodeAt(v: string, k: int) {
    0 <= k && k + |CountryCode| <= |v| && v[k..k + |CountryCode|] == CountryCode
  }

  /** `k` is the first position of `v` where the country code occurs. */
  predicate FirstCodeAt(v: string, k: int) {
    CodeAt(v, k) && forall j :: 0 <= j < k ==> !CodeAt(v, j)
  }

  /** An edited phone value with its first occurrence of the country code
      removed (wherever it stands); a value without the code is kept as is. */
  function StripCountryCode(v: string): (r: string)
    ensures (forall k :: !CodeAt(v, k)) ==> r == v
    ensures forall k :: FirstCodeAt(v, k) ==> r == v[..k] + v[k + |CountryCode|..]
    decreases |v|
  {
    if |v| < |CountryCode| then v
    else if v[..|CountryCode|] == CountryCode then
      assert CodeAt(v, 0);
      v[|CountryCode|..]
    else
      var rest := StripCountryCode(v[1..]);
      StripPastFirstChar(v, rest);
      [v[0]] + rest
  }

  /** When the code does not start `v`, stripping `v` keeps its first
      character and strips the rest. */
  lemma StripPastFirstChar(v: string, rest: string)
    requires |v| >= |CountryCode| && !CodeAt(v, 0)
    requires (forall k :: !CodeAt(v[1..], k)) ==> rest == v[1..]
    requires forall k :: FirstCodeAt(v[1..], k) ==> rest == v[1..][..k] + v[1..][k + |CountryCode|..]
    ensures (forall k :: !CodeAt(v, k)) ==> [v[0]] + rest == v
    ensures forall k :: FirstCodeAt(v, k) ==> [v[0]] + rest == v[..k] + v[k + |CountryCode|..]
  {
    if forall k :: !CodeAt(v, k) {
      NoCodeInTail(v);
      assert rest == v[1..];
      assert v == [v[0]] + v[1..];
    }
    forall k | FirstCodeAt(v, k) ensures [v[0]] + rest == v[..k] + v[k + |CountryCode|..] {
      FirstCodeInTail(v, k);
      RemoveAfterFirstChar(v, k, rest);
    }
  }

  /** Removing the code at `k` from `v` is keeping the first character and
      removing it at `k - 1` from the tail. */
  lemma RemoveAfterFirstChar(v: string, k: int, rest: string)
    requires 1 <= k && k + |CountryCode| <= |v|
    requires rest == v[1..][..k - 1] + v[1..][k - 1 + |CountryCode|..]
    ensures [v[0]] + rest == v[..k] + v[k + |CountryCode|..]
  {
    assert v[..k] == [v[0]] + v[1..][..k - 1];
    assert v[k + |CountryCode|..] == v[1..][k - 1 + |CountryCode|..];
  }

  /** The code occurs at `k + 1` in `v` exactly when it occurs at `k` in the
      tail of `v`. */
  lemma CodeAtShift(v: string, k: int)
    requires v != [] && k >= 0
    ensures CodeAt(v, k + 1) <==> CodeAt(v[1..], k)
  {
    if k + 1 + |CountryCode| <= |v| {
      assert v[k + 1..k + 1 + |CountryCode|] == v[1..][k..k + |CountryCode|];
    }
  }

  /** A value without the code has a tail without the code. */
  lemma NoCodeInTail(v: string)
    requires v != [] && forall k :: !CodeAt(v, k)
    ensures forall k :: !CodeAt(v[1..], k)
  {
    forall k ensures !CodeAt(v[1..], k) {
      if k >= 0 {
        CodeAtShift(v, k);
      }
    }
  }

  /** When the code does not start `v`, its first occurrence in `v` is one
      place after its first occurrence in the tail. */
  lemma FirstCodeInTail(v: string, k: int)
    requires v != [] && !CodeAt(v, 0) && FirstCodeAt(v, k)
    ensures k >= 1 && FirstCodeAt(v[1..], k - 1)
  {
    CodeAtShift(v, k - 1);
    forall j | 0 <= j < k - 1 ensures !CodeAt(v[1..], j) {
      CodeAtShift(v, j);
    }
  }

  /** Storing what is displayed gives back the stored number. */
  lemma StripDisplayRoundTrip(phone: string)
    ensures StripCountryCode(DisplayPhone(phone)) == phone
  {
    if phone != "" {
      assert FirstCodeAt(DisplayPhone(phone), 0);
    }
  }

  /** Displaying what is stored from a value made of the code and a
      non-empty number gives back that value. */
  lemma DisplayStripRoundTrip(v: string)
    requires |v| > |CountryCode| && v[..|CountryCode|] == CountryCode
    ensures DisplayPhone(StripCountryCode(v)) == v
  {
    assert FirstCodeAt(v, 0);
  }

  /** A value in which the user has broken the code (say by deleting its
      space) is stored whole, so its display shows the code twice. */
  lemma BrokenCodeIsKept(v: string)
    requires v != "" && forall k :: !CodeAt(v, k)
    ensures StripCountryCode(v) == v
    ensures DisplayPhone(StripCountryCode(v)) == CountryCode + v
  {
  }

  /** Digits distributes over concatenation. */
  lemma {:induction false} DigitsAppend(a: string, b: string)
    ensures Digits(a + b) == Digits(a) + Digits(b)
    decreases |b|
  {
    if b == [] {
      assert a + b == a;
    } else {
      var b' := b[..|b| - 1];
      assert (a + b)[..|a + b| - 1] == a + b';
      assert (a + b)[|a + b| - 1] == b[|b| - 1];
      DigitsAppend(a, b');
    }
  }

  /** The number of digits kept is the number of positions holding a digit. */
  lemma {:induction false} DigitsCountsPositions(s: string)
    ensures |Digits(s)| == |DigitPositions(s)|
    decreases |s|
  {
    if s != [] {
      var s' := s[..|s| - 1];
      var n := |s| - 1;
      DigitsCountsPositions(s');
      if IsDigit(s[n]) {
        assert DigitPositions(s) == DigitPositions(s') + {n};
        assert n !in DigitPositions(s');
      } else {
        assert DigitPositions(s) == DigitPositions(s');
      }
    }
  }

  /** A number is valid exactly when ten of its positions hold a digit. */
  lemma ValidateCountsDigits(phone: string)
    ensures ValidatePhoneNumber(phone) <==> |DigitPositions(phone)| == 10
  {
    DigitsCountsPositions(phone);
  }

  /** Validation ignores non-digits: inserting one anywhere changes nothing. */
  lemma ValidIgnoresNonDigit(a: string, c: char, b: string)
    requires !IsDigit(c)
    ensures ValidatePhoneNumber(a + [c] + b) == ValidatePhoneNumber(a + b)
  {
    DigitsAppend(a + [c], b);
    DigitsAppend(a, [c]);
    DigitsAppend(a, b);
    assert Digits([c]) == Digits([]) + [];
    assert [c][..0] == [];
  }

  /** The displayed value carries two more digits than the stored number,
      which is why the code is removed before validation. */
  lemma DisplayAddsTwoDigits(phone: string)
    requires phone != ""
    ensures |Digits(DisplayPhone(phone))| == |Digits(phone)| + 2
  {
    DigitsAppend(CountryCode, phone);
    assert CountryCode == "+91" + " ";
    assert "+91" == "+9" + "1";
    assert "+9" == "+" + "9";
    assert "+" == [] + "+";
    DigitsAppend("+91", " ");
    DigitsAppend("+9", "1");
    DigitsAppend("+", "9");
    DigitsAppend([], "+");
  }

  /** Eight digits are too few; ten digits are valid. */
  lemma ValidationExamples()
    ensures !ValidatePhoneNumber("98765432")
    ensures ValidatePhoneNumber("9876543210")
  {
  }

  /** Separators between groups of digits are dropped; the groups are kept. */
  lemma {:induction false} DigitGroups(a: string, x: char, b: string, y: char, c: string)
    requires forall i :: 0 <= i < |a| ==> IsDigit(a[i])
    requires forall i :: 0 <= i < |b| ==> IsDigit(b[i])
    requires forall i :: 0 <= i < |c| ==> IsDigit(c[i])
    requires !IsDigit(x) && !IsDigit(y)
    ensures Digits(a + [x] + b + [y] + c) == a + b + c
  {
    var ax, axb, axby := a + [x], a + [x] + b, a + [x] + b + [y];
    assert Digits(ax) == a by {
      assert ax[..|ax| - 1] == a;
      assert Digits(a) == a;
    }
    assert Digits(axb) == a + b by {
      DigitsAppend(ax, b);
      assert Digits(b) == b;
    }
    assert Digits(axby) == a + b by {
      assert axby[..|axby| - 1] == axb;
    }
    assert Digits(axby + c) == a + b + c by {
      DigitsAppend(axby, c);
      assert Digits(c) == c;
    }
  }

  /** Dashes between the digit groups do not make ten digits invalid. */
  lemma DashedExample()
    ensures ValidatePhoneNumber("987-654-3210")
  {
    assert "987-654-3210" == "987" + ['-'] + "654" + ['-'] + "3210";
    DigitGroups("987", '-', "654", '-', "3210");
  }
}
