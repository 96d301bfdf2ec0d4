/** Invoice numbers as text: `<reference>_<sequence, at least three digits>`, with `-R` for a recoupment. */
module InvoiceNumbers {

  function DigitChar(d: nat): char
    requires d < 10
  {
    ['0', '1', '2', '3', '4', '5', '6', '7', '8', '9'][d]
  }

  function DigitValue(c: char): nat {
    if '0' <= c <= '9' then (c as int - '0' as int) as nat else 0
  }

  function Decimal(n: nat): (s: string)
    ensures |s| > 0 && '0' <= s[|s| - 1] <= '9'
  {
    if n < 10 then [DigitChar(n)] else Decimal(n / 10) + [DigitChar(n % 10)]
  }

  /** Zero-padding on the left to three characters; longer text is unchanged. */
  function PadTo3(s: string): (r: string)
    requires |s| > 0
    ensures |r| >= 3 && r[|r| - 1] == s[|s| - 1]
    decreases 3 - |s|
  {
    if |s| >= 3 then s else PadTo3("0" + s)
  }

  function InvoiceNumber(reference: string, sequence: nat): string {
    reference + "_" + PadTo3(Decimal(sequence))
  }

  function RecoupmentNumber(original: string): string {
    original + "-R"
  }

  /** Reading decimal text back, the inverse used to prove the numbering injective. */
  function ReadDecimal(s: string): nat {
    if s == "" then 0 else 10 * ReadDecimal(s[..|s| - 1]) + DigitValue(s[|s| - 1])
  }

  lemma {:induction false} ReadDecimalInverse(n: nat)
    ensures ReadDecimal(Decimal(n)) == n
  {
    if n < 10 {
      assert Decimal(n)[..0] == "";
    } else {
      ReadDecimalInverse(n / 10);
      var s := Decimal(n);
      assert s[..|s| - 1] == Decimal(n / 10);
    }
  }

  lemma {:induction false} ReadLeadingZero(s: string)
    ensures ReadDecimal("0" + s) == ReadDecimal(s)
  {
    if s == "" {
      assert "0" + s == "0";
      assert "0"[..0] == "";
    } else {
      var t := "0" + s;
      assert t[..|t| - 1] == "0" + s[..|s| - 1];
      ReadLeadingZero(s[..|s| - 1]);
    }
  }

  lemma {:induction false} ReadPadded(s: string)
    requires |s| > 0
    ensures ReadDecimal(PadTo3(s)) == ReadDecimal(s)
    decreases 3 - |s|
  {
    if |s| < 3 {
      ReadPadded("0" + s);
      ReadLeadingZero(s);
    }
  }

  /** With references of one fixed length, an invoice number determines claim and sequence number. */
  lemma InvoiceNumberInjective(r1: string, n1: nat, r2: string, n2: nat)
    requires |r1| == |r2|
    requires InvoiceNumber(r1, n1) == InvoiceNumber(r2, n2)
    ensures r1 == r2 && n1 == n2
  {
    var s1, s2 := InvoiceNumber(r1, n1), InvoiceNumber(r2, n2);
    assert r1 == s1[..|r1|] && r2 == s2[..|r2|];
    assert PadTo3(Decimal(n1)) == s1[|r1| + 1..] && PadTo3(Decimal(n2)) == s2[|r2| + 1..];
    ReadPadded(Decimal(n1));
    ReadPadded(Decimal(n2));
    ReadDecimalInverse(n1);
    ReadDecimalInverse(n2);
  }

  lemma RecoupmentNumberInjective(a: string, b: string)
    requires RecoupmentNumber(a) == RecoupmentNumber(b)
    ensures a == b
  {
    assert a == RecoupmentNumber(a)[..|RecoupmentNumber(a)| - 2];
    assert b == RecoupmentNumber(b)[..|RecoupmentNumber(b)| - 2];
  }

  /** A claim's own number ends in a digit, so it is never a recoupment number. */
  lemma OwnNumberIsNoRecoupment(reference: string, sequence: nat, original: string)
    ensures InvoiceNumber(reference, sequence) != RecoupmentNumber(original)
  {
    var own, rec := InvoiceNumber(reference, sequence), RecoupmentNumber(original);
    assert own[|own| - 1] == PadTo3(Decimal(sequence))[|PadTo3(Decimal(sequence))| - 1];
    assert rec[|rec| - 1] == 'R';
  }

  predicate IsDigit(c: char) { '0' <= c <= '9' }

  lemma {:induction false} DecimalDigits(n: nat)
    ensures forall k | 0 <= k < |Decimal(n)| :: IsDigit(Decimal(n)[k])
    ensures n > 0 ==> Decimal(n)[0] != '0'
  {
    if n >= 10 {
      DecimalDigits(n / 10);
    }
  }

  lemma {:induction false} PaddedDigits(s: string)
    requires |s| > 0 && forall k | 0 <= k < |s| :: IsDigit(s[k])
    ensures var r := PadTo3(s);
            && (forall k | 0 <= k < |r| :: IsDigit(r[k]))
            && (if |s| >= 3 then r == s else |r| == 3)
    decreases 3 - |s|
  {
    if |s| < 3 {
      PaddedDigits("0" + s);
    }
  }

  /**
   An invoice number is the reference, an underscore and the sequence number in decimal: three digits, or all it takes
   without a leading zero.
   */
  lemma InvoiceNumberText(reference: string, sequence: nat) returns (digits: string)
    ensures InvoiceNumber(reference, sequence) == reference + "_" + digits
    ensures (forall k | 0 <= k < |digits| :: IsDigit(digits[k])) && ReadDecimal(digits) == sequence
    ensures |digits| == 3 || (|digits| > 3 && digits[0] != '0')
  {
    digits := PadTo3(Decimal(sequence));
    DecimalDigits(sequence);
    PaddedDigits(Decimal(sequence));
    ReadPadded(Decimal(sequence));
    ReadDecimalInverse(sequence);
    assert sequence == 0 ==> Decimal(sequence) == "0";
  }

  lemma NumbersAsText()
    ensures InvoiceNumber("INQC-ACEF-HJKL", 7) == "INQC-ACEF-HJKL_007"
    ensures InvoiceNumber("INQC-ACEF-HJKL", 1000) == "INQC-ACEF-HJKL_1000"
    ensures RecoupmentNumber("INQC-ACEF-HJKL_007") == "INQC-ACEF-HJKL_007-R"
  {
    assert PadTo3(Decimal(7)) == "007" by {
      assert Decimal(7) == "7";
      assert "0" + "7" == "07" && "0" + "07" == "007";
    }
    assert PadTo3(Decimal(1000)) == "1000" by {
      assert Decimal(10) == "10";
      assert Decimal(100) == "100";
      assert Decimal(1000) == "1000";
    }
    hide Decimal, PadTo3;
  }
}
