/** How the inventory renders integral numbers inside its template strings
    (`${n}` in a JavaScript template literal), and how to read them back. */
module Formato {

  /** The character of a decimal digit. */
  function CaracterDigito(d: int): (c: char)
    requires 0 <= d < 10
    ensures '0' <= c <= '9' && c as int - '0' as int == d
  {
    ('0' as int + d) as char
  }

  /** Every character is a decimal digit. */
  predicate EsNumeral(s: string)
  {
    forall i :: 0 <= i < |s| ==> '0' <= s[i] <= '9'
  }

  /** A decimal numeral as a template literal prints an integer: an optional
      minus sign followed by at least one digit. */
  predicate EsDecimal(s: string)
  {
    if |s| > 0 && s[0] == '-' then |s| > 1 && EsNumeral(s[1..]) else |s| > 0 && EsNumeral(s)
  }

  /** The decimal digits of a natural number, most significant first. */
  function Digitos(n: nat): (s: string)
    ensures |s| > 0 && EsNumeral(s)
    ensures s[0] == '0' ==> n == 0
    decreases n
  {
    if n < 10 then [CaracterDigito(n)] else Digitos(n / 10) + [CaracterDigito(n % 10)]
  }

  /** The value of a string of decimal digits. */
  function ValorDigitos(s: string): nat
    requires EsNumeral(s)
  {
    if s == [] then 0
    else 10 * ValorDigitos(s[..|s| - 1]) + (s[|s| - 1] as int - '0' as int)
  }

  lemma {:induction false} DigitosIdaVuelta(n: nat)
    ensures ValorDigitos(Digitos(n)) == n
  {
    if n >= 10 {
      DigitosIdaVuelta(n / 10);
      var s := Digitos(n);
      assert s[..|s| - 1] == Digitos(n / 10);
    }
  }

  /** An integer as `${n}` renders it: a minus sign for negative values,
      then the digits of the magnitude without leading zeros. */
  function Decimal(n: int): (s: string)
    ensures EsDecimal(s)
    ensures ' ' !in s
    ensures s[0] == '-' <==> n < 0
    ensures s[0] == '0' || (|s| > 1 && s[0] == '-' && s[1] == '0') ==> n == 0
  {
    if n < 0 then "-" + Digitos(-n) else Digitos(n)
  }

  /** Reads back a numeral produced by Decimal. */
  function LeerDecimal(s: string): int
    requires EsDecimal(s)
  {
    if s[0] == '-' then -(ValorDigitos(s[1..]) as int) else ValorDigitos(s)
  }

  /** Rendering an integer loses nothing: reading it back gives the integer. */
  lemma DecimalIdaVuelta(n: int)
    ensures LeerDecimal(Decimal(n)) == n
  {
    if n < 0 {
      DigitosIdaVuelta(-n);
      assert Decimal(n)[1..] == Digitos(-n);
    } else {
      DigitosIdaVuelta(n);
    }
  }

  /** Two integers render alike only when they are equal. */
  lemma DecimalInyectivo(m: int, n: int)
    ensures Decimal(m) == Decimal(n) <==> m == n
  {
    DecimalIdaVuelta(m);
    DecimalIdaVuelta(n);
  }

  /** The characters after the last space of `s` (all of `s` when it has none). */
  function TrasUltimoEspacio(s: string): (r: string)
    ensures |r| <= |s| && r == s[|s| - |r|..]
    ensures ' ' !in r
  {
    if s == [] || s[|s| - 1] == ' ' then []
    else TrasUltimoEspacio(s[..|s| - 1]) + [s[|s| - 1]]
  }

  /** A last field written after a space, and holding none, is read back whole. */
  lemma {:induction false} UltimoCampo(cabeza: string, campo: string)
    requires ' ' !in campo
    ensures TrasUltimoEspacio(cabeza + " " + campo) == campo
  {
    if campo != [] {
      var s := cabeza + " " + campo;
      var k := |campo| - 1;
      assert s[..|s| - 1] == cabeza + " " + campo[..k];
      assert campo == campo[..k] + [campo[k]];
      UltimoCampo(cabeza, campo[..k]);
    }
  }
}
