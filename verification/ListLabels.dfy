/** The label of an ordered list item: letters in bijective base 26, Roman numerals, or decimal. */
module ListLabels {
  import opened Basics
  import opened Decimal

  /** "A" is 1, "Z" is 26, "AA" is 27. */
  function Letters(n: nat): string {
    if n == 0 then "" else Letters((n - 1) / 26) + ['A' + ((n - 1) % 26) as char]
  }

  const ROMAN_VALUES: seq<nat> := [1000, 900, 500, 400, 100, 90, 50, 40, 10, 9, 5, 4, 1]
  const ROMAN_SYMBOLS: seq<string> := ["M", "CM", "D", "CD", "C", "XC", "L", "XL", "X", "IX", "V", "IV", "I"]

  /** What is written for n with the symbols from the i-th on, taking the largest that fits. */
  function Roman(n: nat, i: nat): string
    decreases n, 13 - i
  {
    if i >= 13 then ""
    else if n >= ROMAN_VALUES[i] then ROMAN_SYMBOLS[i] + Roman(n - ROMAN_VALUES[i], i)
    else Roman(n, i + 1)
  }

  lemma RomanStep(done: string, n: nat, i: nat)
    requires i < 13
    ensures n >= ROMAN_VALUES[i] ==> done + ROMAN_SYMBOLS[i] + Roman(n - ROMAN_VALUES[i], i) == done + Roman(n, i)
    ensures n < ROMAN_VALUES[i] ==> Roman(n, i + 1) == Roman(n, i)
  {
    if n >= ROMAN_VALUES[i] {
      assert done + ROMAN_SYMBOLS[i] + Roman(n - ROMAN_VALUES[i], i) == done + (ROMAN_SYMBOLS[i] + Roman(n - ROMAN_VALUES[i], i));
    }
  }

  lemma NothingMore(n: nat, i: nat)
    requires i >= 13
    ensures Roman(n, i) == ""
  {
  }

  predicate IsUpper(c: char) { 'A' <= c <= 'Z' }

  function LowerChar(c: char): char { if IsUpper(c) then ('a' as int + (c as int - 'A' as int)) as char else c }

  /** strings.ToLower on ASCII text. */
  function Lower(s: string): string { seq(|s|, i requires 0 <= i < |s| => LowerChar(s[i])) }

  predicate IsLettered(number: int, listType: string) { listType in {"a", "A"} && number > 0 }

  predicate IsRoman(number: int, listType: string) { listType in {"i", "I"} && 0 < number < 4000 }

  function Label(number: int, listType: string): string {
    (if IsLettered(number, listType) then
       (if listType == "a" then Lower(Letters(number)) else Letters(number))
     else if IsRoman(number, listType) then
       (if listType == "i" then Lower(Roman(number, 0)) else Roman(number, 0))
     else Itoa(number)) + "."
  }

  method OrderedListLabel(number: int, listType: string) returns (text: string)
    ensures text == Label(number, listType)
  {
    hide Itoa, Lower, Roman;
    if (listType == "a" || listType == "A") && number > 0 {
      var result, n := "", number;
      while n > 0
        invariant n >= 0 && Letters(n) + result == Letters(number)
      {
        n := n - 1;
        result := ['A' + (n % 26) as char] + result;
        n := n / 26;
      }
      assert result == Letters(0) + result;
      if listType == "a" { result := Lower(result); }
      return result + ".";
    }
    if (listType == "i" || listType == "I") && number > 0 && number < 4000 {
      var result, left, i := "", number, 0;
      while i < 13
        invariant 0 <= i <= 13 && left >= 0
        invariant result + Roman(left, i) == Roman(number, 0)
      {
        while left >= ROMAN_VALUES[i]
          invariant left >= 0
          invariant result + Roman(left, i) == Roman(number, 0)
        {
          RomanStep(result, left, i);
          result := result + ROMAN_SYMBOLS[i];
          left := left - ROMAN_VALUES[i];
        }
        RomanStep(result, left, i);
        i := i + 1;
      }
      NothingMore(left, i);
      assert result == result + Roman(left, i);
      if listType == "i" { result := Lower(result); }
      return result + ".";
    }
    return Itoa(number) + ".";
  }

  // ---- Reading a label back ----

  predicate IsLetter(c: char) { 'a' <= c <= 'z' || 'A' <= c <= 'Z' }

  /** The place of a letter in the alphabet, in either case. */
  function Place(c: char): int
    requires IsLetter(c)
  {
    if IsUpper(c) then c as int - 'A' as int + 1 else c as int - 'a' as int + 1
  }

  predicate AllLetters(s: string) { forall i | 0 <= i < |s| :: IsLetter(s[i]) }

  function ReadLetters(s: string): int
    requires AllLetters(s)
  {
    if s == [] then 0 else 26 * ReadLetters(s[..|s| - 1]) + Place(s[|s| - 1])
  }

  function Worth(c: char): int {
    match c
    case 'M' | 'm' => 1000
    case 'D' | 'd' => 500
    case 'C' | 'c' => 100
    case 'L' | 'l' => 50
    case 'X' | 'x' => 10
    case 'V' | 'v' => 5
    case 'I' | 'i' => 1
    case _ => 0
  }

  /** A Roman numeral as it is read: a symbol before a greater one counts against it. */
  function ReadRoman(s: string): int {
    if s == [] then 0
    else (if |s| > 1 && Worth(s[0]) < Worth(s[1]) then -Worth(s[0]) else Worth(s[0])) + ReadRoman(s[1..])
  }

  /** The number a label of a list of the given type stands for, without its final dot. */
  function ReadBody(s: string, listType: string): Option<int> {
    if s == "" || !AllLetters(s) then ParseInt(s)
    else if listType in {"a", "A"} then Some(ReadLetters(s))
    else Some(ReadRoman(s))
  }

  function Read(text: string, listType: string): Option<int> {
    if text == "" || text[|text| - 1] != '.' then None else ReadBody(text[..|text| - 1], listType)
  }

  lemma {:induction false} LettersRoundTrip(n: nat)
    ensures AllLetters(Letters(n)) && (n > 0 ==> Letters(n) != "")
    ensures ReadLetters(Letters(n)) == n
    ensures AllLetters(Lower(Letters(n))) && ReadLetters(Lower(Letters(n))) == n
  {
    if n > 0 {
      var rest := Letters((n - 1) / 26);
      LettersRoundTrip((n - 1) / 26);
      assert Letters(n)[..|rest|] == rest;
      assert Lower(Letters(n))[..|rest|] == Lower(rest);
    }
  }

  lemma ReadRomanAfter(symbol: string, rest: string)
    requires 1 <= |symbol| <= 2
    requires rest != "" ==> Worth(symbol[|symbol| - 1]) >= Worth(rest[0])
    ensures ReadRoman(symbol + rest) == ReadRoman(symbol) + ReadRoman(rest)
  {
    var s := symbol + rest;
    if |symbol| == 1 {
      assert s[1..] == rest;
    } else {
      assert s[1..][1..] == rest;
      assert symbol[1..][1..] == [];
    }
  }

  lemma {:induction false} RomanRoundTrip(n: nat, i: nat)
    requires i < 13 || n == 0
    ensures AllLetters(Roman(n, i)) && ReadRoman(Roman(n, i)) == n
    ensures n > 0 ==> Roman(n, i) != "" && Worth(Roman(n, i)[0]) <= ROMAN_VALUES[i]
    decreases n, 13 - i
  {
    if i < 13 && n >= ROMAN_VALUES[i] {
      hide ReadRoman, Worth;
      var rest := n - ROMAN_VALUES[i];
      RomanRoundTrip(rest, i);
      SymbolReads(i);
      if rest == 0 { NothingLeft(i); }
      ReadRomanAfter(ROMAN_SYMBOLS[i], Roman(rest, i));
    } else if i < 13 {
      RomanRoundTrip(n, i + 1);
    }
  }

  lemma {:induction false} NothingLeft(i: nat)
    ensures Roman(0, i) == ""
    decreases 13 - i
  {
    if i < 13 { NothingLeft(i + 1); }
  }

  lemma SymbolReads(i: nat)
    requires i < 13
    ensures var s := ROMAN_SYMBOLS[i];
      1 <= |s| <= 2 && AllLetters(s) && ReadRoman(s) == ROMAN_VALUES[i]
      && Worth(s[0]) <= ROMAN_VALUES[i] <= Worth(s[|s| - 1])
  {
  }

  lemma WorthLower(c: char)
    ensures Worth(LowerChar(c)) == Worth(c)
  {
  }

  lemma {:induction false} LowerReadsTheSame(s: string)
    requires AllLetters(s)
    ensures AllLetters(Lower(s)) && ReadRoman(Lower(s)) == ReadRoman(s)
  {
    if s != [] {
      hide Worth;
      LowerReadsTheSame(s[1..]);
      assert Lower(s)[1..] == Lower(s[1..]);
      WorthLower(s[0]);
      if |s| > 1 { WorthLower(s[1]); }
    }
  }

  lemma LetteredReads(n: nat, listType: string)
    requires n > 0 && listType in {"a", "A"}
    ensures ReadBody(Letters(n), listType) == ReadBody(Lower(Letters(n)), listType) == Some(n)
  {
    hide Letters, ReadLetters;
    LettersRoundTrip(n);
    assert |Lower(Letters(n))| == |Letters(n)|;
  }

  lemma RomanReads(n: nat, listType: string)
    requires n > 0 && listType !in {"a", "A"}
    ensures ReadBody(Roman(n, 0), listType) == ReadBody(Lower(Roman(n, 0)), listType) == Some(n)
  {
    hide Roman, ReadRoman;
    RomanRoundTrip(n, 0);
    LowerReadsTheSame(Roman(n, 0));
  }

  lemma DecimalReads(number: int, listType: string)
    ensures ReadBody(Itoa(number), listType) == Some(number)
  {
    hide ParseInt;
    ItoaRoundTrip(number);
    assert !IsLetter(Itoa(number)[0]);
  }

  /** A label gives its number back, for every int and every list type. */
  lemma LabelRoundTrip(number: int, listType: string)
    ensures Read(Label(number, listType), listType) == Some(number)
  {
    hide Letters, Roman, Lower, Itoa, ReadBody;
    var text := Label(number, listType);
    if IsLettered(number, listType) {
      LetteredReads(number, listType);
      assert text == (if listType == "a" then Lower(Letters(number)) else Letters(number)) + ".";
    } else if IsRoman(number, listType) {
      RomanReads(number, listType);
      assert text == (if listType == "i" then Lower(Roman(number, 0)) else Roman(number, 0)) + ".";
    } else {
      DecimalReads(number, listType);
      assert text == Itoa(number) + ".";
    }
    assert text == text[..|text| - 1] + ".";
  }

  /** Two items of one list never get the same label for different numbers. */
  lemma LabelInjective(m: int, n: int, listType: string)
    requires Label(m, listType) == Label(n, listType)
    ensures m == n
  {
    LabelRoundTrip(m, listType);
    LabelRoundTrip(n, listType);
  }

  lemma {:induction false} LettersAreUpper(n: nat)
    ensures forall i | 0 <= i < |Letters(n)| :: 'A' <= Letters(n)[i] <= 'Z'
  {
    if n > 0 { LettersAreUpper((n - 1) / 26); }
  }

  lemma {:induction false} RomanIsUpper(n: nat, i: nat)
    ensures forall k | 0 <= k < |Roman(n, i)| :: 'A' <= Roman(n, i)[k] <= 'Z'
    decreases n, 13 - i
  {
    if i < 13 && n >= ROMAN_VALUES[i] {
      RomanIsUpper(n - ROMAN_VALUES[i], i);
    } else if i < 13 {
      RomanIsUpper(n, i + 1);
    }
  }

  /** Letters and numerals are small in lists of type "a" and "i", capital in lists of type "A" and "I". */
  lemma LabelCase(number: int, listType: string, k: nat)
    requires k < |Label(number, listType)| && IsLetter(Label(number, listType)[k])
    ensures listType in {"a", "i", "A", "I"}
    ensures 'a' <= Label(number, listType)[k] <= 'z' <==> listType in {"a", "i"}
  {
    hide Letters, Roman, Itoa;
    if IsLettered(number, listType) {
      LettersAreUpper(number);
    } else if IsRoman(number, listType) {
      RomanIsUpper(number, 0);
    } else {
      ItoaHasNoLetters(number);
    }
  }

  lemma ItoaHasNoLetters(number: int)
    ensures forall k | 0 <= k < |Itoa(number)| :: !IsLetter(Itoa(number)[k])
  {
  }

  /** Letters for positive numbers, numerals from 1 to 3999, and decimal for everything else. */
  lemma LabelStyle(number: int, listType: string)
    ensures IsLetter(Label(number, listType)[0]) <==>
      (listType in {"a", "A"} && number > 0) || (listType in {"i", "I"} && 0 < number < 4000)
  {
    hide Letters, Roman, Itoa;
    if IsLettered(number, listType) {
      LettersRoundTrip(number);
    } else if IsRoman(number, listType) {
      RomanRoundTrip(number, 0);
      assert AllLetters(Lower(Roman(number, 0))) by { LowerReadsTheSame(Roman(number, 0)); }
    } else {
      ItoaHasNoLetters(number);
    }
  }
}
