/** How an amount in cents is printed by `%s` (BigDecimal.toString of a scale-2 decimal:
    an optional minus sign, the integer digits, a point and exactly two fraction digits),
    together with a reader proving that the printed text determines the amount. */
module Valores {
  import opened Comum

  predicate EhDigito(ch: char)
  {
    '0' <= ch <= '9'
  }

  predicate SoDigitos(s: string)
  {
    forall i :: 0 <= i < |s| ==> EhDigito(s[i])
  }

  function Digito(d: nat): (ch: char)
    requires d < 10
    ensures EhDigito(ch) && ch as int - '0' as int == d
  {
    ('0' as int + d) as char
  }

  /** The decimal digits of `n`, most significant first, without leading zeros. */
  function DigitosDe(n: nat): (s: string)
    ensures |s| >= 1 && SoDigitos(s)
    ensures s[0] == '0' ==> n == 0
  {
    if n < 10 then [Digito(n)] else DigitosDe(n / 10) + [Digito(n % 10)]
  }

  /** The number a string of decimal digits denotes. */
  function ValorDeDigitos(s: string): nat
    requires SoDigitos(s)
  {
    if s == [] then 0
    else ValorDeDigitos(s[..|s| - 1]) * 10 + (s[|s| - 1] as int - '0' as int)
  }

  lemma {:induction false} DigitosIdaEVolta(n: nat)
    ensures ValorDeDigitos(DigitosDe(n)) == n
  {
    if n >= 10 {
      DigitosIdaEVolta(n / 10);
      var s := DigitosDe(n);
      assert s[..|s| - 1] == DigitosDe(n / 10);
    }
  }

  /** The text `%s` produces for an amount of `centavos` cents at scale 2. */
  function FormatarValor(centavos: Centavos): (s: string)
    ensures |s| >= 4 && s[|s| - 3] == '.'
  {
    var a := if centavos < 0 then -centavos else centavos;
    (if centavos < 0 then "-" else "") + DigitosDe(a / 100) + "." + [Digito(a % 100 / 10), Digito(a % 10)]
  }

  /** Reads back a text of the shape `FormatarValor` produces. */
  function LerValor(s: string): Option<Centavos>
  {
    if |s| > 0 && s[0] == '-' then
      match LerSemSinal(s[1..])
      case Some(a) => Some(-(a as int))
      case None => None
    else LerSemSinal(s)
  }

  /** Reads `digits.dd` without a sign. */
  function LerSemSinal(corpo: string): Option<nat>
  {
    if |corpo| < 4 || corpo[|corpo| - 3] != '.' then None
    else
      var inteiro := corpo[..|corpo| - 3];
      var fracao := corpo[|corpo| - 2..];
      if !SoDigitos(inteiro) || !SoDigitos(fracao) then None
      else Some(ValorDeDigitos(inteiro) * 100 + ValorDeDigitos(fracao))
  }

  /** Reading an unsigned text `d.f` with two fraction digits. */
  lemma LerCorpo(d: string, f: string)
    requires |d| >= 1 && SoDigitos(d) && |f| == 2 && SoDigitos(f)
    ensures LerSemSinal(d + "." + f) == Some(ValorDeDigitos(d) * 100 + ValorDeDigitos(f))
  {
    var corpo := d + "." + f;
    PartesDoCorpo(d, f);
    var inteiro, fracao := corpo[..|corpo| - 3], corpo[|corpo| - 2..];
    assert inteiro == d && fracao == f;
    assert |corpo| >= 4 && corpo[|corpo| - 3] == '.';
    assert SoDigitos(inteiro) && SoDigitos(fracao);
    assert LerSemSinal(corpo) == Some(ValorDeDigitos(inteiro) * 100 + ValorDeDigitos(fracao));
  }

  /** Where the integer part, the point and the fraction sit in `d.f`. */
  lemma PartesDoCorpo(d: string, f: string)
    requires |f| == 2
    ensures var corpo := d + "." + f;
            |corpo| == |d| + 3 && corpo[|corpo| - 3] == '.'
            && corpo[..|corpo| - 3] == d && corpo[|corpo| - 2..] == f
  {
    var corpo := d + "." + f;
    assert corpo[..|d|] == d;
    assert corpo[|d| + 1..] == f;
  }

  /** The two fraction digits denote the amount modulo 100. */
  lemma FracaoLida(a: nat)
    ensures ValorDeDigitos([Digito(a % 100 / 10), Digito(a % 10)]) == a % 100
  {
    ValorDeDoisDigitos(a % 100 / 10, a % 10);
    assert a % 100 / 10 * 10 + a % 10 == a % 100;
  }

  lemma ValorDeDoisDigitos(x: nat, y: nat)
    requires x < 10 && y < 10
    ensures ValorDeDigitos([Digito(x), Digito(y)]) == x * 10 + y
  {
    var f := [Digito(x), Digito(y)];
    assert f[..1] == [Digito(x)];
    assert [Digito(x)][..0] == [];
    assert ValorDeDigitos([Digito(x)]) == x;
    assert ValorDeDigitos(f) == ValorDeDigitos([Digito(x)]) * 10 + y;
  }

  /** The printed amount determines the amount: reading it back gives it again. */
  lemma FormatarValorIdaEVolta(centavos: Centavos)
    ensures LerValor(FormatarValor(centavos)) == Some(centavos)
  {
    var a := if centavos < 0 then -centavos else centavos;
    var d := DigitosDe(a / 100);
    var f := [Digito(a % 100 / 10), Digito(a % 10)];
    var corpo := d + "." + f;
    LerCorpo(d, f);
    DigitosIdaEVolta(a / 100);
    FracaoLida(a);
    assert a / 100 * 100 + a % 100 == a;
    assert LerSemSinal(corpo) == Some(a);
    assert EhDigito(d[0]);
    if centavos < 0 {
      assert FormatarValor(centavos) == "-" + corpo;
      assert ("-" + corpo)[1..] == corpo;
    } else {
      assert FormatarValor(centavos) == corpo;
      assert corpo[0] == d[0];
    }
  }

  /** Two different amounts are never printed the same way. */
  lemma FormatarValorInjetivo(x: Centavos, y: Centavos)
    ensures FormatarValor(x) == FormatarValor(y) ==> x == y
  {
    FormatarValorIdaEVolta(x);
    FormatarValorIdaEVolta(y);
  }

  /** `sub` occurs in `s` starting at position `i`. */
  predicate OcorreEm(s: string, sub: string, i: int)
  {
    0 <= i && i + |sub| <= |s| && s[i..i + |sub|] == sub
  }

  /** A text ends with what was appended to it. */
  lemma OcorreNoFim(pre: string, sub: string)
    ensures OcorreEm(pre + sub, sub, |pre|)
  {
    assert (pre + sub)[|pre|..|pre| + |sub|] == sub;
  }

  /** A text starts with what was prepended to it. */
  lemma OcorreNoInicio(pre: string, sub: string)
    ensures OcorreEm(pre + sub, pre, 0)
  {
    assert (pre + sub)[..|pre|] == pre;
  }

  /** Appending text keeps an occurrence where it was. */
  lemma OcorreAposAcrescimo(s: string, t: string, sub: string, i: int)
    requires OcorreEm(s, sub, i)
    ensures OcorreEm(s + t, sub, i)
  {
    assert (s + t)[i..i + |sub|] == s[i..i + |sub|];
  }

  ghost predicate Contem(s: string, sub: string)
  {
    exists i :: OcorreEm(s, sub, i)
  }
}
