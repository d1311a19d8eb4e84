/** The few JavaScript string and number conversions the date helpers rely
    on: `Number` of a decimal text, `String` of an integer, `split` on one
    character and `padStart(2, '0')`. Only what the date format needs is
    modelled: `Number` reads plain decimal digits (the empty text reads as 0)
    and yields NaN for anything else. */
module Cadenas {
  import opened Tipos

  predicate EsDigito(c: char) { '0' <= c <= '9' }

  function ValorDigito(c: char): (d: int)
    requires EsDigito(c)
    ensures 0 <= d < 10
  {
    c as int - '0' as int
  }

  function CaracterDigito(d: int): (c: char)
    requires 0 <= d < 10
    ensures EsDigito(c) && ValorDigito(c) == d
  {
    (d + '0' as int) as char
  }

  predicate SoloDigitos(s: string) { forall i :: 0 <= i < |s| ==> EsDigito(s[i]) }

  /** The value of a decimal numeral, most significant digit first. */
  function ValorDecimal(s: string): (n: nat)
    requires SoloDigitos(s)
  {
    if s == [] then 0 else ValorDecimal(s[..|s| - 1]) * 10 + ValorDigito(s[|s| - 1])
  }

  /** `Number(s)`, restricted to texts made of decimal digits. */
  function ANumero(s: string): (n: Numero)
    ensures n.Num? <==> SoloDigitos(s)
    ensures n.Num? ==> n.valor >= 0
  {
    if SoloDigitos(s) then Num(ValorDecimal(s)) else NaN
  }

  /** `String(n)` for a non-negative integer: its shortest decimal numeral. */
  function NatATexto(n: nat): (s: string)
    ensures |s| >= 1 && SoloDigitos(s)
    ensures |s| > 1 ==> s[0] != '0'
    ensures n < 10 <==> |s| == 1
  {
    if n < 10 then [CaracterDigito(n)] else NatATexto(n / 10) + [CaracterDigito(n % 10)]
  }

  /** `String(i)` for any integer. */
  function EnteroATexto(i: int): (s: string)
    ensures i >= 0 ==> s == NatATexto(i)
    ensures i < 0 ==> s == "-" + NatATexto(-i)
  {
    if i < 0 then "-" + NatATexto(-i) else NatATexto(i)
  }

  /** `s.padStart(2, '0')`. */
  function RellenarDos(s: string): (r: string)
    ensures |r| == if |s| >= 2 then |s| else 2
    ensures r[|r| - |s|..] == s
    ensures forall i :: 0 <= i < |r| - |s| ==> r[i] == '0'
  {
    if |s| >= 2 then s else if |s| == 1 then "0" + s else "00"
  }

  /** `s.split(sep)` for a one-character separator: the pieces between
      separators, including empty ones, so the result is never empty. */
  function Dividir(s: string, sep: char): (partes: seq<string>)
    ensures |partes| >= 1
  {
    if s == [] then [[]]
    else
      var resto := Dividir(s[1..], sep);
      if s[0] == sep then [[]] + resto else [[s[0]] + resto[0]] + resto[1..]
  }

  /** Reading back the numeral `String` writes gives the number again. */
  lemma {:induction false} ValorDeNatATexto(n: nat)
    ensures ValorDecimal(NatATexto(n)) == n
  {
    if n >= 10 {
      var s := NatATexto(n);
      ValorDeNatATexto(n / 10);
      assert s[..|s| - 1] == NatATexto(n / 10);
    }
  }

  lemma {:induction false} ValorPositivo(s: string)
    requires SoloDigitos(s) && |s| >= 1 && s[0] != '0'
    ensures ValorDecimal(s) >= 1
  {
    if |s| > 1 {
      ValorPositivo(s[..|s| - 1]);
    }
  }

  /** Writing the value of a numeral without leading zeros gives the
      numeral back. */
  lemma {:induction false} NatATextoDeValor(s: string)
    requires SoloDigitos(s) && |s| >= 1 && (|s| > 1 ==> s[0] != '0')
    ensures NatATexto(ValorDecimal(s)) == s
  {
    var p := s[..|s| - 1];
    var d := ValorDigito(s[|s| - 1]);
    var n := ValorDecimal(s);
    if |s| == 1 {
      assert n == d;
    } else {
      ValorPositivo(p);
      assert n / 10 == ValorDecimal(p) && n % 10 == d;
      NatATextoDeValor(p);
      assert s == p + [s[|s| - 1]];
    }
  }

  /** A leading zero does not change the value of a numeral. */
  lemma {:induction false} ValorConCeroInicial(s: string)
    requires SoloDigitos(s)
    ensures SoloDigitos("0" + s) && ValorDecimal("0" + s) == ValorDecimal(s)
  {
    if s != [] {
      var z := "0" + s;
      assert z[..|z| - 1] == "0" + s[..|s| - 1];
      ValorConCeroInicial(s[..|s| - 1]);
    }
  }

  /** `Number(String(n).padStart(2, '0')) == n`. */
  lemma ValorRellenado(n: nat)
    ensures ANumero(RellenarDos(NatATexto(n))) == Num(n)
  {
    var s := NatATexto(n);
    ValorDeNatATexto(n);
    if |s| == 1 {
      ValorConCeroInicial(s);
    }
  }

  /** Below one hundred, `String(n).padStart(2, '0')` is exactly two digits
      whose value is `n`. */
  lemma DosCifras(n: nat)
    requires n < 100
    ensures |RellenarDos(NatATexto(n))| == 2
    ensures SoloDigitos(RellenarDos(NatATexto(n))) && ValorDecimal(RellenarDos(NatATexto(n))) == n
  {
    if n >= 10 {
      assert |NatATexto(n / 10)| == 1;
    }
    ValorRellenado(n);
  }

  /** `r` reads as the text `a`, a dash, two digits worth `m`, a dash, two
      digits worth `d`. */
  predicate TextoDeTresPiezas(r: string, a: string, m: nat, d: nat) {
    && |r| == |a| + 6 && r[..|a|] == a
    && r[|a|] == '-' && r[|a| + 3] == '-'
    && SoloDigitos(r[|a| + 1..|a| + 3]) && ValorDecimal(r[|a| + 1..|a| + 3]) == m
    && SoloDigitos(r[|a| + 4..]) && ValorDecimal(r[|a| + 4..]) == d
  }

  /** `a-m-d` with two-digit `m` and `d` has that shape. */
  lemma PiezasUnidas(a: string, m: string, d: string)
    requires |m| == 2 && |d| == 2 && SoloDigitos(m) && SoloDigitos(d)
    ensures TextoDeTresPiezas(a + "-" + m + "-" + d, a, ValorDecimal(m), ValorDecimal(d))
  {
    var r := a + "-" + m + "-" + d;
    assert r[..|a|] == a;
    assert r[|a| + 1..|a| + 3] == m;
    assert r[|a| + 4..] == d;
  }

  /** For a two-digit numeral, `String(Number(s)).padStart(2, '0') == s`,
      with or without a leading zero. */
  lemma RellenadoDeValor(s: string)
    requires |s| == 2 && SoloDigitos(s)
    ensures RellenarDos(NatATexto(ValorDecimal(s))) == s
  {
    if s[0] == '0' {
      var u := s[1..];
      assert s == "0" + u;
      ValorConCeroInicial(u);
      NatATextoDeValor(u);
    } else {
      NatATextoDeValor(s);
    }
  }

  /** A text without the separator is a single piece. */
  lemma {:induction false} DividirSinSeparador(s: string, sep: char)
    requires sep !in s
    ensures Dividir(s, sep) == [s]
  {
    if s != [] {
      DividirSinSeparador(s[1..], sep);
      assert s[0] != sep;
      assert [s[0]] + s[1..] == s;
    }
  }

  /** Splitting at the first separator peels off the first piece. */
  lemma {:induction false} DividirConcatenado(a: string, sep: char, b: string)
    requires sep !in a
    ensures Dividir(a + [sep] + b, sep) == [a] + Dividir(b, sep)
  {
    var s := a + [sep] + b;
    if a == [] {
      assert s[1..] == b;
    } else {
      assert s[0] == a[0] != sep;
      assert s[1..] == a[1..] + [sep] + b;
      DividirConcatenado(a[1..], sep, b);
      var resto := Dividir(s[1..], sep);
      assert resto[0] == a[1..] && resto[1..] == Dividir(b, sep);
      assert [a[0]] + a[1..] == a;
    }
  }

  lemma SinSeparador(s: string, sep: char)
    requires SoloDigitos(s) && !EsDigito(sep)
    ensures sep !in s
  {
  }

  /** Three separator-free pieces joined by the separator split back into
      the same three pieces. */
  lemma DividirTres(a: string, b: string, c: string, sep: char)
    requires sep !in a && sep !in b && sep !in c
    ensures Dividir(a + [sep] + b + [sep] + c, sep) == [a, b, c]
  {
    assert a + [sep] + b + [sep] + c == a + [sep] + (b + [sep] + c);
    DividirConcatenado(a, sep, b + [sep] + c);
    DividirConcatenado(b, sep, c);
    DividirSinSeparador(c, sep);
  }
}
