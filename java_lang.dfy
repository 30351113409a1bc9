/**
 * The few pieces of java.lang that the catalog rules depend on: 32-bit `int`
 * arithmetic, `Character.isWhitespace`/`String.isBlank`, and the decimal text
 * that string concatenation produces for an integer.
 */
module JavaLang {

  const MinInt32: int := -0x8000_0000
  const MaxInt32: int := 0x7fff_ffff

  /** Java `int` (and the value of a non-null `Integer`). */
  type Int32 = x: int | -0x8000_0000 <= x <= 0x7fff_ffff

  /** Java `a + b` on two `int`s: two's-complement wrap-around, no exception. */
  function SomaInt32(a: Int32, b: Int32): (r: Int32)
    ensures (r - (a + b)) % 0x1_0000_0000 == 0
    ensures MinInt32 <= a + b <= MaxInt32 ==> r == a + b
    ensures a + b > MaxInt32 ==> r < 0
    ensures a + b < MinInt32 ==> r >= 0
  {
    var s := a + b;
    if s > MaxInt32 then s - 0x1_0000_0000
    else if s < MinInt32 then s + 0x1_0000_0000
    else s
  }

  /** `Character.isWhitespace`: the Unicode space, line and paragraph separators
      other than the three no-break spaces, and the ten control characters
      U+0009..U+000D and U+001C..U+001F. */
  predicate EspacoJava(c: char)
  {
    || ('\U{9}' <= c <= '\U{D}')
    || ('\U{1C}' <= c <= '\U{1F}')
    || c == ' '
    || c == '\U{1680}'
    || ('\U{2000}' <= c <= '\U{2006}')
    || ('\U{2008}' <= c <= '\U{200A}')
    || c == '\U{2028}' || c == '\U{2029}'
    || c == '\U{205F}' || c == '\U{3000}'
  }

  /** The scan `String.isBlank` runs: the index of the first code point that is
      not whitespace, or |s| when there is none. */
  function PrimeiroNaoEspaco(s: string): (k: nat)
    ensures k <= |s|
    ensures forall i | 0 <= i < k :: EspacoJava(s[i])
    ensures k < |s| ==> !EspacoJava(s[k])
    decreases |s|
  {
    if s == [] || !EspacoJava(s[0]) then 0 else 1 + PrimeiroNaoEspaco(s[1..])
  }

  /** `String.isBlank`: the scan reaches the end, that is, the string is empty or
      made only of whitespace code points. */
  predicate EmBranco(s: string)
    ensures EmBranco(s) <==> forall i | 0 <= i < |s| :: EspacoJava(s[i])
  {
    PrimeiroNaoEspaco(s) == |s|
  }

  /** `Character.isWhitespace` counts the ASCII blanks but not the three no-break spaces. */
  lemma EspacosSemQuebra()
    ensures EspacoJava(' ') && EspacoJava('\t') && EspacoJava('\n') && EspacoJava('\r')
    ensures !EspacoJava('\U{A0}') && !EspacoJava('\U{2007}') && !EspacoJava('\U{202F}')
  {
  }

  function Digito(d: nat): (c: char)
    requires d < 10
    ensures '0' <= c <= '9'
  {
    ['0', '1', '2', '3', '4', '5', '6', '7', '8', '9'][d]
  }

  function ValorDigito(c: char): (d: nat)
    requires '0' <= c <= '9'
    ensures d < 10 && Digito(d) == c
  {
    (c as int - '0' as int)
  }

  predicate SoDigitos(s: string)
  {
    forall i | 0 <= i < |s| :: '0' <= s[i] <= '9'
  }

  /** Decimal digits of a natural number, most significant first, no leading zero. */
  function DecimalNat(n: nat): (s: string)
    ensures |s| >= 1 && SoDigitos(s)
    ensures |s| > 1 ==> s[0] != '0'
    decreases n
  {
    if n < 10 then [Digito(n)] else DecimalNat(n / 10) + [Digito(n % 10)]
  }

  /** The text `"" + n` produces for a Java `long` or `int` n. */
  function Decimal(n: int): (s: string)
    ensures |s| >= 1
    ensures n < 0 <==> s[0] == '-'
  {
    if n < 0 then "-" + DecimalNat(-n) else DecimalNat(n)
  }

  /** Reads a string of decimal digits back as a number. */
  function LerNat(s: string): nat
    requires SoDigitos(s)
    decreases |s|
  {
    if s == [] then 0 else 10 * LerNat(s[..|s| - 1]) + ValorDigito(s[|s| - 1])
  }

  function LerDecimal(s: string): int
    requires |s| >= 1
    requires s[0] == '-' ==> SoDigitos(s[1..])
    requires s[0] != '-' ==> SoDigitos(s)
  {
    if s[0] == '-' then -(LerNat(s[1..]) as int) else LerNat(s)
  }

  lemma {:induction false} LerDecimalNat(n: nat)
    ensures LerNat(DecimalNat(n)) == n
    decreases n
  {
    if n >= 10 {
      var s := DecimalNat(n);
      assert s[..|s| - 1] == DecimalNat(n / 10);
      LerDecimalNat(n / 10);
    }
  }

  /** Reading back the decimal text of an integer gives the integer. */
  lemma LerDecimalIdaEVolta(n: int)
    ensures LerDecimal(Decimal(n)) == n
  {
    if n < 0 {
      assert Decimal(n)[1..] == DecimalNat(-n);
      LerDecimalNat(-n);
    } else {
      LerDecimalNat(n);
    }
  }

  /** Distinct integers have distinct decimal texts. */
  lemma DecimalInjetivo(a: int, b: int)
    requires Decimal(a) == Decimal(b)
    ensures a == b
  {
    LerDecimalIdaEVolta(a);
    LerDecimalIdaEVolta(b);
  }
}
