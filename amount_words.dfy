/**
 * `numberToWords` of the printed invoice: a rupee amount, rounded to a whole
 * number, in English words with the Indian grouping (crore = 10^7,
 * lakh = 10^5, thousand, and the last three digits).
 *
 * The component as written puts a space in front of `threeDigits` whenever
 * the hundreds digit is 0, so 42 prints "INR  Forty Two Only" with two
 * spaces; `NumberToWordsAsWritten` keeps that, and `NumberToWords` is the
 * corrected form, with single spaces throughout.
 */
module AmountWords {
  import opened Text
  import opened JsNumber

  /** `ones[i]` inside a template literal: "undefined" past the end of the array. */
  function Ones(i: nat): string {
    match i
    case 0 => ""
    case 1 => "One"
    case 2 => "Two"
    case 3 => "Three"
    case 4 => "Four"
    case 5 => "Five"
    case 6 => "Six"
    case 7 => "Seven"
    case 8 => "Eight"
    case 9 => "Nine"
    case 10 => "Ten"
    case 11 => "Eleven"
    case 12 => "Twelve"
    case 13 => "Thirteen"
    case 14 => "Fourteen"
    case 15 => "Fifteen"
    case 16 => "Sixteen"
    case 17 => "Seventeen"
    case 18 => "Eighteen"
    case 19 => "Nineteen"
    case _ => "undefined"
  }

  /** `tens[i]` inside a template literal. */
  function Tens(i: nat): string {
    match i
    case 0 => ""
    case 1 => ""
    case 2 => "Twenty"
    case 3 => "Thirty"
    case 4 => "Forty"
    case 5 => "Fifty"
    case 6 => "Sixty"
    case 7 => "Seventy"
    case 8 => "Eighty"
    case 9 => "Ninety"
    case _ => "undefined"
  }

  /** `twoDigits`. */
  function TwoDigits(n: nat): string {
    if n < 20 then Ones(n) else Tens(n / 10) + (if n % 10 != 0 then " " + Ones(n % 10) else "")
  }

  /** `threeDigits` as written: the tens part always gets a leading space, even when there are no hundreds. */
  function ThreeDigitsAsWritten(n: nat): string {
    (if n / 100 != 0 then Ones(n / 100) + " Hundred" else "") + (if n % 100 != 0 then " " + TwoDigits(n % 100) else "")
  }

  /** The hundreds and the rest of a number below 1000, those that are not zero. */
  function HundredsPieces(n: nat): seq<string> {
    (if n / 100 != 0 then [Ones(n / 100) + " Hundred"] else []) + (if n % 100 != 0 then [TwoDigits(n % 100)] else [])
  }

  /** `threeDigits` corrected: its pieces joined by single spaces. */
  function ThreeDigits(n: nat): string {
    Join(HundredsPieces(n), " ")
  }

  /** The crore, lakh and thousand parts of `n`, those that are not zero, in that order. */
  function LeadingParts(n: nat): seq<string> {
    var crore, lakh, thousand := n / 10000000, (n % 10000000) / 100000, (n % 100000) / 1000;
    (if crore != 0 then [TwoDigits(crore) + " Crore"] else [])
    + (if lakh != 0 then [TwoDigits(lakh) + " Lakh"] else [])
    + (if thousand != 0 then [TwoDigits(thousand) + " Thousand"] else [])
  }

  /** The words for an amount, the last three digits written by `three`. */
  function WordsWith(amount: real, three: nat -> string): string {
    var n := JsRound(amount);
    if n < 0 then "INR 0 Only"
    else if n == 0 then "INR Zero Only"
    else
      var rest := n % 1000;
      "INR " + Join(LeadingParts(n) + (if rest != 0 then [three(rest)] else []), " ") + " Only"
  }

  /** What the component prints. */
  function WordsAsWritten(amount: real): string {
    WordsWith(amount, ThreeDigitsAsWritten)
  }

  /** What the component evidently means to print. */
  function Words(amount: real): string {
    WordsWith(amount, ThreeDigits)
  }

  /**
   * The crore, lakh and thousand steps of `numberToWords`: each pushes its
   * part when its count is not zero and then keeps only the remainder in
   * `num`, which ends as the last three digits.
   */
  method GroupParts(n: nat) returns (parts: seq<string>, num: nat)
    ensures parts == LeadingParts(n)
    ensures num == n % 1000
  {
    num := n;
    parts := [];
    var crore := num / 10000000;
    if crore != 0 {
      parts := parts + [TwoDigits(crore) + " Crore"];
      num := num % 10000000;
    }
    assert num == n % 10000000;
    NestedMod(n);
    var lakh := num / 100000;
    if lakh != 0 {
      parts := parts + [TwoDigits(lakh) + " Lakh"];
      num := num % 100000;
    }
    assert num == n % 100000;
    var thousand := num / 1000;
    if thousand != 0 {
      parts := parts + [TwoDigits(thousand) + " Thousand"];
      num := num % 1000;
    }
    assert num == n % 1000;
  }

  /** Taking a remainder by a multiple first changes nothing. */
  lemma NestedMod(n: nat)
    ensures (n % 10000000) % 100000 == n % 100000 && (n % 100000) % 1000 == n % 1000
  {
    var r7 := n % 10000000;
    assert n == (n / 10000000) * 10000000 + r7;
    ModUnique(n, 100000, (n / 10000000) * 100 + r7 / 100000, r7 % 100000);
    var r5 := n % 100000;
    ModUnique(n, 1000, (n / 100000) * 100 + r5 / 1000, r5 % 1000);
  }

  /** The remainder is the only one in range. */
  lemma ModUnique(n: int, d: int, k: int, m: int)
    requires d == 100000 || d == 1000
    requires n == k * d + m && 0 <= m < d
    ensures n % d == m
  {
  }

  /** `numberToWords` as written. */
  method NumberToWordsAsWritten(amount: real) returns (r: string)
    ensures r == WordsAsWritten(amount)
  {
    var n := JsRound(amount);
    if n < 0 {
      return "INR 0 Only";
    }
    if n == 0 {
      return "INR Zero Only";
    }
    var parts, num := GroupParts(n);
    if num != 0 {
      parts := parts + [ThreeDigitsAsWritten(num)];
    }
    assert parts == LeadingParts(n) + (if n % 1000 != 0 then [ThreeDigitsAsWritten(n % 1000)] else []);
    r := "INR " + Join(parts, " ") + " Only";
  }

  /** `numberToWords` with `threeDigits` corrected. */
  method NumberToWords(amount: real) returns (r: string)
    ensures r == Words(amount)
  {
    var n := JsRound(amount);
    if n < 0 {
      return "INR 0 Only";
    }
    if n == 0 {
      return "INR Zero Only";
    }
    var parts, num := GroupParts(n);
    if num != 0 {
      parts := parts + [ThreeDigits(num)];
    }
    assert parts == LeadingParts(n) + (if n % 1000 != 0 then [ThreeDigits(n % 1000)] else []);
    r := "INR " + Join(parts, " ") + " Only";
  }

  /** The Indian grouping: `n` is its crores, lakhs, thousands and last three digits, each in range. */
  lemma IndianGrouping(n: nat)
    requires n < 1000000000
    ensures var crore, lakh, thousand, rest := n / 10000000, (n % 10000000) / 100000, (n % 100000) / 1000, n % 1000;
      && n == crore * 10000000 + lakh * 100000 + thousand * 1000 + rest
      && crore < 100 && lakh < 100 && thousand < 100 && rest < 1000
  {
    var r7 := n % 10000000;
    assert n == (n / 10000000) * 10000000 + r7;
    assert r7 == (r7 / 100000) * 100000 + r7 % 100000;
    assert (n % 10000000) % 100000 == n % 100000;
    var r5 := n % 100000;
    assert r5 == (r5 / 1000) * 1000 + r5 % 1000;
    assert (n % 100000) % 1000 == n % 1000;
  }

  /** Amounts that round to a negative number print "INR 0 Only". */
  lemma NegativeWords(amount: real)
    requires amount < -0.5
    ensures Words(amount) == "INR 0 Only" && WordsAsWritten(amount) == "INR 0 Only"
  {
  }

  /** Amounts that round to 0 print "INR Zero Only". */
  lemma ZeroWords(amount: real)
    requires -0.5 <= amount < 0.5
    ensures Words(amount) == "INR Zero Only" && WordsAsWritten(amount) == "INR Zero Only"
  {
    assert JsRound(amount) == 0;
  }

  /** The words for an amount that rounds to `n > 0`, from the parts they join. */
  lemma WordsUnfold(amount: real, three: nat -> string, n: nat, parts: seq<string>)
    requires JsRound(amount) == n && n > 0
    requires parts == LeadingParts(n) + (if n % 1000 != 0 then [three(n % 1000)] else [])
    ensures WordsWith(amount, three) == "INR " + Join(parts, " ") + " Only"
  {
  }

  /** The parts of one lakh, one crore, one thousand and five, and 100 crore. */
  lemma LakhParts()
    ensures LeadingParts(100000) == ["One Lakh"] && 100000 % 1000 == 0
  {
    assert 100000 / 10000000 == 0 && (100000 % 10000000) / 100000 == 1 && (100000 % 100000) / 1000 == 0;
    assert TwoDigits(1) == "One";
    assert TwoDigits(1) + " Lakh" == "One Lakh";
  }

  lemma CroreParts()
    ensures LeadingParts(10000000) == ["One Crore"] && 10000000 % 1000 == 0
  {
    assert 10000000 / 10000000 == 1 && (10000000 % 10000000) / 100000 == 0 && (10000000 % 100000) / 1000 == 0;
    assert TwoDigits(1) == "One";
    assert TwoDigits(1) + " Crore" == "One Crore";
  }

  lemma ThousandFiveParts()
    ensures LeadingParts(1005) == ["One Thousand"] && 1005 % 1000 == 5
  {
    assert 1005 / 10000000 == 0 && (1005 % 10000000) / 100000 == 0 && (1005 % 100000) / 1000 == 1;
    assert TwoDigits(1) == "One";
    assert TwoDigits(1) + " Thousand" == "One Thousand";
  }

  lemma HundredCroreParts()
    ensures LeadingParts(1000000000) == ["undefined Crore"] && 1000000000 % 1000 == 0
  {
    assert 1000000000 / 10000000 == 100 && (1000000000 % 10000000) / 100000 == 0 && (1000000000 % 100000) / 1000 == 0;
    assert TwoDigits(100) == "undefined";
    assert TwoDigits(100) + " Crore" == "undefined Crore";
  }

  /** The words for a single part. */
  lemma WordsOfOnePart(amount: real, three: nat -> string, n: nat, part: string)
    requires JsRound(amount) == n && n > 0
    requires LeadingParts(n) + (if n % 1000 != 0 then [three(n % 1000)] else []) == [part]
    ensures WordsWith(amount, three) == "INR " + part + " Only"
  {
    WordsUnfold(amount, three, n, [part]);
  }

  /** One lakh and one crore. */
  lemma LakhAndCrore()
    ensures Words(100000.0) == "INR One Lakh Only" && WordsAsWritten(100000.0) == "INR One Lakh Only"
    ensures Words(10000000.0) == "INR One Crore Only" && WordsAsWritten(10000000.0) == "INR One Crore Only"
  {
    JsRoundOfInt(100000);
    JsRoundOfInt(10000000);
    LakhParts();
    CroreParts();
    WordsOfOnePart(100000.0, ThreeDigits, 100000, "One Lakh");
    WordsOfOnePart(100000.0, ThreeDigitsAsWritten, 100000, "One Lakh");
    WordsOfOnePart(10000000.0, ThreeDigits, 10000000, "One Crore");
    WordsOfOnePart(10000000.0, ThreeDigitsAsWritten, 10000000, "One Crore");
  }

  lemma FortyTwoAsWritten()
    ensures LeadingParts(42) == [] && TwoDigits(42) == "Forty Two" && ThreeDigitsAsWritten(42) == " Forty Two"
  {
    assert 42 / 10000000 == 0 && (42 % 10000000) / 100000 == 0 && (42 % 100000) / 1000 == 0;
    assert TwoDigits(42) == "Forty" + " " + "Two";
    assert 42 / 100 == 0 && 42 % 100 == 42;
  }

  lemma FortyTwoCorrected()
    ensures LeadingParts(42) == [] && ThreeDigits(42) == "Forty Two"
  {
    FortyTwoAsWritten();
    assert 42 / 100 == 0 && 42 % 100 == 42;
    assert HundredsPieces(42) == [] + [TwoDigits(42)];
  }

  /** The as-written words put two spaces before a last group with no hundreds. */
  lemma DoubleSpaceAsWritten()
    ensures WordsAsWritten(42.0) == "INR  Forty Two Only"
    ensures !Tidy(WordsAsWritten(42.0))
  {
    JsRoundOfInt(42);
    FortyTwoAsWritten();
    WordsOfOnePart(42.0, ThreeDigitsAsWritten, 42, " Forty Two");
    assert "INR " + " Forty Two" + " Only" == "INR  Forty Two Only";
    NotTidyExhibit();
  }

  lemma NotTidyExhibit()
    ensures !Tidy("INR  Forty Two Only")
  {
    var s := "INR  Forty Two Only";
    assert s[3] == ' ' && s[4] == ' ';
  }

  /** The same double space after a thousand. */
  lemma DoubleSpaceAfterThousand()
    ensures WordsAsWritten(1005.0) == "INR One Thousand  Five Only"
  {
    JsRoundOfInt(1005);
    ThousandFiveParts();
    FiveAsWritten();
    var parts := ["One Thousand", " Five"];
    WordsUnfold(1005.0, ThreeDigitsAsWritten, 1005, parts);
    JoinTwo("One Thousand", " Five");
  }

  lemma FiveAsWritten()
    ensures ThreeDigitsAsWritten(5) == " Five"
  {
    assert 5 / 100 == 0 && 5 % 100 == 5;
    assert TwoDigits(5) == "Five";
  }

  lemma JoinTwo(a: string, b: string)
    ensures "INR " + Join([a, b], " ") + " Only" == "INR " + a + " " + b + " Only"
  {
    assert [a, b][1..] == [b];
  }

  /** The corrected words have a single space where the as-written ones have two. */
  lemma SingleSpaceCorrected()
    ensures Words(42.0) == "INR Forty Two Only"
  {
    JsRoundOfInt(42);
    FortyTwoCorrected();
    WordsOfOnePart(42.0, ThreeDigits, 42, "Forty Two");
  }

  /** At 100 crore the crore count has three digits and `tens` is read past its end. */
  lemma HundredCroreUndefined()
    ensures WordsAsWritten(1000000000.0) == "INR undefined Crore Only"
    ensures Words(1000000000.0) == "INR undefined Crore Only"
  {
    JsRoundOfInt(1000000000);
    HundredCroreParts();
    WordsOfOnePart(1000000000.0, ThreeDigits, 1000000000, "undefined Crore");
    WordsOfOnePart(1000000000.0, ThreeDigitsAsWritten, 1000000000, "undefined Crore");
  }

  /** Words separated by single spaces: not empty, no space at either end, never two spaces in a row. */
  predicate Tidy(s: string) {
    && s != [] && s[0] != ' ' && s[|s| - 1] != ' '
    && forall i :: 0 <= i < |s| - 1 ==> !(s[i] == ' ' && s[i + 1] == ' ')
  }

  /** A non-empty word without spaces. */
  predicate Word(s: string) {
    s != [] && forall i :: 0 <= i < |s| ==> s[i] != ' '
  }

  lemma WordIsTidy(s: string)
    requires Word(s)
    ensures Tidy(s)
  {
  }

  /** Two tidy texts joined by one space are tidy. */
  lemma TidyJoin(a: string, b: string)
    requires Tidy(a) && Tidy(b)
    ensures Tidy(a + " " + b)
  {
    var s := a + " " + b;
    assert s[0] == a[0];
    assert s[|s| - 1] == b[|b| - 1];
    forall i | 0 <= i < |s| - 1
      ensures !(s[i] == ' ' && s[i + 1] == ' ')
    {
      if i < |a| - 1 {
        assert s[i] == a[i] && s[i + 1] == a[i + 1];
      } else if i == |a| - 1 {
        assert s[i] == a[i];
      } else if i == |a| {
        assert s[i + 1] == b[0];
      } else {
        assert s[i] == b[i - |a| - 1] && s[i + 1] == b[i - |a|];
      }
    }
  }

  lemma {:induction false} TidyJoinAll(parts: seq<string>)
    requires parts != [] && AllTidy(parts)
    ensures Tidy(Join(parts, " "))
  {
    if |parts| > 1 {
      TidyJoinAll(parts[1..]);
      TidyJoin(parts[0], Join(parts[1..], " "));
    }
  }

  lemma OnesWord(i: nat)
    requires 1 <= i < 20
    ensures Word(Ones(i))
  {
  }

  lemma TensWord(i: nat)
    requires 2 <= i < 10
    ensures Word(Tens(i))
  {
  }

  /** `twoDigits` of 1..99 is tidy. */
  lemma TwoDigitsTidy(n: nat)
    requires 1 <= n < 100
    ensures Tidy(TwoDigits(n))
  {
    if n < 20 {
      OnesWord(n);
      WordIsTidy(Ones(n));
    } else {
      var t, o := n / 10, n % 10;
      assert 2 <= t < 10 && o < 10;
      TensWord(t);
      WordIsTidy(Tens(t));
      if o != 0 {
        OnesWord(o);
        WordIsTidy(Ones(o));
        TidyJoin(Tens(t), Ones(o));
        assert TwoDigits(n) == Tens(t) + " " + Ones(o);
      } else {
        assert TwoDigits(n) == Tens(t) + "";
        assert Tens(t) + "" == Tens(t);
      }
    }
  }

  /** "<digit> Hundred" is tidy. */
  lemma HundredTidy(h: nat)
    requires 1 <= h < 10
    ensures Tidy(Ones(h) + " Hundred")
  {
    OnesWord(h);
    assert Word("Hundred");
    TidyJoin(Ones(h), "Hundred");
    assert Ones(h) + " " + "Hundred" == Ones(h) + " Hundred";
  }

  /** The corrected `threeDigits` of 1..999 is tidy. */
  lemma ThreeDigitsTidy(n: nat)
    requires 1 <= n < 1000
    ensures Tidy(ThreeDigits(n))
  {
    var pieces := HundredsPieces(n);
    if n / 100 != 0 {
      HundredTidy(n / 100);
    }
    if n % 100 != 0 {
      TwoDigitsTidy(n % 100);
    }
    TidyJoinAll(pieces);
  }

  /** A count of 1..99 followed by a group name is tidy. */
  lemma GroupTidy(k: nat)
    requires 1 <= k < 100
    ensures Tidy(TwoDigits(k) + " Crore") && Tidy(TwoDigits(k) + " Lakh") && Tidy(TwoDigits(k) + " Thousand")
  {
    TwoDigitsTidy(k);
    assert Word("Crore") && Word("Lakh") && Word("Thousand");
    TidyJoin(TwoDigits(k), "Crore");
    TidyJoin(TwoDigits(k), "Lakh");
    TidyJoin(TwoDigits(k), "Thousand");
    assert TwoDigits(k) + " " + "Crore" == TwoDigits(k) + " Crore";
    assert TwoDigits(k) + " " + "Lakh" == TwoDigits(k) + " Lakh";
    assert TwoDigits(k) + " " + "Thousand" == TwoDigits(k) + " Thousand";
  }

  /** "INR ", tidy words and " Only" are tidy. */
  lemma FramedTidy(w: string)
    requires Tidy(w)
    ensures Tidy("INR " + w + " Only")
  {
    assert Word("INR") && Word("Only");
    TidyJoin("INR", w);
    TidyJoin("INR" + " " + w, "Only");
    assert "INR " + w + " Only" == "INR" + " " + w + " " + "Only";
  }

  /** Every text of the list is tidy. */
  predicate AllTidy(parts: seq<string>) {
    forall i :: 0 <= i < |parts| ==> Tidy(parts[i])
  }

  lemma AllTidyConcat(a: seq<string>, b: seq<string>)
    requires AllTidy(a) && AllTidy(b)
    ensures AllTidy(a + b)
  {
    assert forall i :: |a| <= i < |a + b| ==> (a + b)[i] == b[i - |a|];
  }

  /** Every part the corrected words join is tidy, and below 100 crore there is at least one. */
  lemma PartsTidy(n: nat)
    requires 1 <= n < 1000000000
    ensures var parts := LeadingParts(n) + (if n % 1000 != 0 then [ThreeDigits(n % 1000)] else []);
      parts != [] && AllTidy(parts)
  {
    var crore, lakh, thousand, rest := n / 10000000, (n % 10000000) / 100000, (n % 100000) / 1000, n % 1000;
    assert crore < 100 && lakh < 100 && thousand < 100 && rest < 1000;
    var c := if crore != 0 then [TwoDigits(crore) + " Crore"] else [];
    var l := if lakh != 0 then [TwoDigits(lakh) + " Lakh"] else [];
    var t := if thousand != 0 then [TwoDigits(thousand) + " Thousand"] else [];
    var r := if rest != 0 then [ThreeDigits(rest)] else [];
    assert AllTidy(c) by { if crore != 0 { GroupTidy(crore); } }
    assert AllTidy(l) by { if lakh != 0 { GroupTidy(lakh); } }
    assert AllTidy(t) by { if thousand != 0 { GroupTidy(thousand); } }
    assert AllTidy(r) by { if rest != 0 { ThreeDigitsTidy(rest); } }
    AllTidyConcat(c, l);
    AllTidyConcat(c + l, t);
    AllTidyConcat(c + l + t, r);
    assert LeadingParts(n) == c + l + t;
  }

  /**
   * Below 100 crore the corrected words are "INR ", a tidy run of words and
   * " Only": no doubled space anywhere, for every amount.
   */
  lemma WordsTidy(amount: real)
    requires JsRound(amount) < 1000000000
    ensures Tidy(Words(amount))
  {
    var n := JsRound(amount);
    if n > 0 {
      var parts := LeadingParts(n) + (if n % 1000 != 0 then [ThreeDigits(n % 1000)] else []);
      PartsTidy(n);
      TidyJoinAll(parts);
      FramedTidy(Join(parts, " "));
    } else {
      FramedTidy("0");
      FramedTidy("Zero");
    }
  }
}
