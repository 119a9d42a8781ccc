/**
 * The JavaScript string operations the client relies on: `trim`, `toLowerCase`,
 * `includes`, `endsWith`, the relational operators on strings and
 * `Number.prototype.toString` on integers.
 */
module Textos {

  // ---------------------------------------------------------------------------
  // trim()
  // ---------------------------------------------------------------------------

  /** The white space and line terminators that `String.prototype.trim` removes. */
  predicate EsEspacio(c: char) {
    || c == ' ' || c == '\t' || c == '\n' || c == '\r' || c == '\U{B}' || c == '\U{C}'
    || c == '\U{A0}' || c == '\U{FEFF}' || c == '\U{1680}'
    || ('\U{2000}' <= c <= '\U{200A}')
    || c == '\U{2028}' || c == '\U{2029}' || c == '\U{202F}' || c == '\U{205F}' || c == '\U{3000}'
  }

  /** Drops the leading white space: the result is the suffix of `s` from the first non-space. */
  function QuitarInicio(s: string): (r: string)
    ensures |r| <= |s| && r == s[|s| - |r|..]
    ensures forall i :: 0 <= i < |s| - |r| ==> EsEspacio(s[i])
    ensures r == [] || !EsEspacio(r[0])
  {
    if s != [] && EsEspacio(s[0]) then QuitarInicio(s[1..]) else s
  }

  /** Drops the trailing white space: the result is the prefix of `s` up to the last non-space. */
  function QuitarFinal(s: string): (r: string)
    ensures |r| <= |s| && r == s[..|r|]
    ensures forall i :: |r| <= i < |s| ==> EsEspacio(s[i])
    ensures r == [] || !EsEspacio(r[|r| - 1])
  {
    if s != [] && EsEspacio(s[|s| - 1]) then QuitarFinal(s[..|s| - 1]) else s
  }

  /** `s.trim()`. */
  function Recortar(s: string): string {
    QuitarFinal(QuitarInicio(s))
  }

  /** The trimmed string is empty: every character is white space. */
  predicate EsBlanco(s: string) {
    forall i :: 0 <= i < |s| ==> EsEspacio(s[i])
  }

  /** The blank strings are exactly those that trim to ''. */
  lemma EsBlancoSii(s: string)
    ensures EsBlanco(s) <==> Recortar(s) == ""
  {
    var t := QuitarInicio(s);
    if t != [] {
      var r := QuitarFinal(t);
      assert !EsEspacio(t[0]);
      assert r != [];
      assert !EsEspacio(s[|s| - |t|]);
    }
  }

  /** A string that starts with a visible character is not blank. */
  lemma NoBlanco(s: string)
    requires |s| > 0 && !EsEspacio(s[0])
    ensures !EsBlanco(s)
  {
    EsBlancoSii(s);
  }

  /** The trimmed string has no white space at either end, and trimming twice changes nothing. */
  lemma RecortarIdempotente(s: string)
    ensures Recortar(Recortar(s)) == Recortar(s)
    ensures Recortar(s) == [] || (!EsEspacio(Recortar(s)[0]) && !EsEspacio(Recortar(s)[|Recortar(s)| - 1]))
  {
    var t := QuitarInicio(s);
    var r := QuitarFinal(t);
    if r != [] {
      assert r[0] == t[0];
      assert !EsEspacio(r[0]);
      assert QuitarInicio(r) == r;
      assert QuitarFinal(r) == r;
    }
  }

  // ---------------------------------------------------------------------------
  // toLowerCase()
  // ---------------------------------------------------------------------------

  /** Lower case of one character, for the Basic Latin and Latin-1 capitals. */
  function MinusculaChar(c: char): char {
    if ('A' <= c <= 'Z') || ('\U{C0}' <= c <= '\U{DE}' && c != '\U{D7}') then
      (c as int + 32) as char
    else
      c
  }

  /** `s.toLowerCase()` restricted to the Basic Latin and Latin-1 capitals. */
  function Minusculas(s: string): (r: string)
    ensures |r| == |s|
  {
    if s == [] then [] else [MinusculaChar(s[0])] + Minusculas(s[1..])
  }

  /** Lower-casing a string that is already lower case changes nothing. */
  lemma {:induction false} MinusculasIdempotente(s: string)
    ensures Minusculas(Minusculas(s)) == Minusculas(s)
  {
    if s != [] {
      MinusculasIdempotente(s[1..]);
    }
  }

  /** Lower-casing distributes over concatenation. */
  lemma {:induction false} MinusculasConcat(a: string, b: string)
    ensures Minusculas(a + b) == Minusculas(a) + Minusculas(b)
  {
    if a != [] {
      assert (a + b)[0] == a[0];
      assert (a + b)[1..] == a[1..] + b;
      MinusculasConcat(a[1..], b);
      assert Minusculas(a + b) == [MinusculaChar(a[0])] + Minusculas(a[1..] + b);
    } else {
      assert a + b == b;
    }
  }

  // ---------------------------------------------------------------------------
  // includes() and endsWith()
  // ---------------------------------------------------------------------------

  /** `s.includes(t)`. */
  predicate Contiene(s: string, t: string)
    decreases |s|
  {
    |t| <= |s| && (s[..|t|] == t || Contiene(s[1..], t))
  }

  /** `t` occurs in `s` starting at position `i`. */
  predicate OcurreEn(s: string, t: string, i: int) {
    0 <= i && i + |t| <= |s| && s[i..i + |t|] == t
  }

  /** A slice of `s[1..]` is the slice of `s` one position further on. */
  lemma RebanadaDeLaCola(s: string, i: int, n: int)
    requires 0 < i && 0 <= n && i + n <= |s|
    ensures s[1..][i - 1..i - 1 + n] == s[i..i + n]
  {
    var r := s[1..][i - 1..i - 1 + n];
    assert forall k :: 0 <= k < n ==> r[k] == s[i + k];
  }

  /** A string that includes `t` has an occurrence of `t` at some position. */
  lemma {:induction false} PosicionDeOcurrencia(s: string, t: string) returns (i: int)
    requires Contiene(s, t)
    ensures OcurreEn(s, t, i)
    decreases |s|
  {
    if s[..|t|] == t {
      i := 0;
    } else {
      var j := PosicionDeOcurrencia(s[1..], t);
      RebanadaDeLaCola(s, j + 1, |t|);
      i := j + 1;
    }
  }

  /** An occurrence of `t` at any position makes `s` include `t`. */
  lemma {:induction false} OcurrenciaContiene(s: string, t: string, i: int)
    requires OcurreEn(s, t, i)
    ensures Contiene(s, t)
    decreases i
  {
    if i > 0 {
      RebanadaDeLaCola(s, i, |t|);
      OcurrenciaContiene(s[1..], t, i - 1);
    }
  }

  /** `s.includes(t)` holds exactly when `t` occurs in `s` at some position. */
  lemma ContieneSii(s: string, t: string)
    ensures Contiene(s, t) <==> exists i :: OcurreEn(s, t, i)
  {
    if Contiene(s, t) {
      var i := PosicionDeOcurrencia(s, t);
    }
    forall i | OcurreEn(s, t, i) ensures Contiene(s, t) {
      OcurrenciaContiene(s, t, i);
    }
  }

  /** Every string includes the empty string and itself. */
  lemma ContieneTrivial(s: string)
    ensures Contiene(s, "") && Contiene(s, s)
  {
    assert s[..0] == "";
    assert s[..|s|] == s;
  }

  /** `s.endsWith(suf)`. */
  predicate TerminaCon(s: string, suf: string) {
    |suf| <= |s| && s[|s| - |suf|..] == suf
  }

  /** A name ends with a suffix exactly when it is some stem followed by that suffix. */
  lemma TerminaConSii(s: string, suf: string)
    ensures TerminaCon(s, suf) <==> exists stem :: s == stem + suf
  {
    if TerminaCon(s, suf) {
      assert s == s[..|s| - |suf|] + suf;
    }
    if exists stem :: s == stem + suf {
      var stem :| s == stem + suf;
      assert s[|s| - |suf|..] == suf;
    }
  }

  // ---------------------------------------------------------------------------
  // The relational operators on strings (code-point lexicographic order)
  // ---------------------------------------------------------------------------

  /** `a < b` on strings. */
  predicate MenorLex(a: string, b: string) {
    if a == [] then b != []
    else if b == [] then false
    else if a[0] != b[0] then a[0] < b[0]
    else MenorLex(a[1..], b[1..])
  }

  /** `a <= b` on strings. */
  predicate MenorIgualLex(a: string, b: string) {
    a == b || MenorLex(a, b)
  }

  /** No string is below itself. */
  lemma {:induction false} MenorLexIrreflexivo(a: string)
    ensures !MenorLex(a, a)
  {
    if a != [] {
      MenorLexIrreflexivo(a[1..]);
    }
  }

  /** The string order is transitive. */
  lemma {:induction false} MenorLexTransitivo(a: string, b: string, c: string)
    requires MenorLex(a, b) && MenorLex(b, c)
    ensures MenorLex(a, c)
  {
    if a != [] && b != [] && c != [] && a[0] == b[0] && b[0] == c[0] {
      MenorLexTransitivo(a[1..], b[1..], c[1..]);
    }
  }

  /** Two different strings are always ordered one way or the other. */
  lemma {:induction false} MenorLexTotal(a: string, b: string)
    requires a != b
    ensures MenorLex(a, b) || MenorLex(b, a)
  {
    if a != [] && b != [] && a[0] == b[0] {
      assert a == [a[0]] + a[1..] && b == [b[0]] + b[1..];
      MenorLexTotal(a[1..], b[1..]);
    }
  }

  /** The string order is asymmetric. */
  lemma MenorLexAsimetrico(a: string, b: string)
    requires MenorLex(a, b)
    ensures !MenorLex(b, a)
  {
    if MenorLex(b, a) {
      MenorLexTransitivo(a, b, a);
      MenorLexIrreflexivo(a);
    }
  }

  /** `<=` on strings is a total order: reflexive, transitive, total and antisymmetric. */
  lemma MenorIgualLexOrdenTotal(a: string, b: string, c: string)
    ensures MenorIgualLex(a, a)
    ensures MenorIgualLex(a, b) || MenorIgualLex(b, a)
    ensures MenorIgualLex(a, b) && MenorIgualLex(b, c) ==> MenorIgualLex(a, c)
    ensures MenorIgualLex(a, b) && MenorIgualLex(b, a) ==> a == b
  {
    if a != b {
      MenorLexTotal(a, b);
    }
    if MenorLex(a, b) && MenorLex(b, c) {
      MenorLexTransitivo(a, b, c);
    }
    if MenorLex(a, b) {
      MenorLexAsimetrico(a, b);
    }
  }

  // ---------------------------------------------------------------------------
  // Number.prototype.toString() on integers, and reading the digits back
  // ---------------------------------------------------------------------------

  /** The character of a decimal digit. */
  function Digito(d: int): char
    requires 0 <= d < 10
  {
    ('0' as int + d) as char
  }

  predicate EsDigito(c: char) {
    '0' <= c <= '9'
  }

  /** The decimal numeral of a natural number, without leading zeros. */
  function NatATexto(n: nat): (r: string)
    ensures |r| > 0 && forall i :: 0 <= i < |r| ==> EsDigito(r[i])
    ensures |r| > 1 ==> r[0] != '0'
  {
    if n < 10 then [Digito(n)] else NatATexto(n / 10) + [Digito(n % 10)]
  }

  /** `n.toString()` for an integer `n`. */
  function EnteroATexto(n: int): string {
    if n < 0 then "-" + NatATexto(-n) else NatATexto(n)
  }

  /** The value of one decimal digit. */
  function ValorDigito(c: char): nat
    requires EsDigito(c)
  {
    c as int - '0' as int
  }

  /** The value of a string of decimal digits. */
  function ValorDigitos(s: string): nat
    requires forall i :: 0 <= i < |s| ==> EsDigito(s[i])
  {
    if s == [] then 0 else ValorDigitos(s[..|s| - 1]) * 10 + ValorDigito(s[|s| - 1])
  }

  /** A numeric string: an optional minus sign followed by one or more digits. */
  predicate EsNumerico(s: string) {
    if |s| > 0 && s[0] == '-' then
      |s| > 1 && forall i :: 1 <= i < |s| ==> EsDigito(s[i])
    else
      |s| > 0 && forall i :: 0 <= i < |s| ==> EsDigito(s[i])
  }

  /** The integer a numeric string denotes. */
  function LeerEntero(s: string): int
    requires EsNumerico(s)
  {
    if s[0] == '-' then -(ValorDigitos(s[1..]) as int) else ValorDigitos(s)
  }

  /** Reading back the numeral of a natural number gives that number. */
  lemma {:induction false} NatATextoIdaVuelta(n: nat)
    ensures ValorDigitos(NatATexto(n)) == n
  {
    if n >= 10 {
      NatATextoIdaVuelta(n / 10);
      var s := NatATexto(n);
      assert s[..|s| - 1] == NatATexto(n / 10);
    }
  }

  /** `toString` on an integer yields a numeric string that reads back as the same integer. */
  lemma EnteroATextoIdaVuelta(n: int)
    ensures EsNumerico(EnteroATexto(n))
    ensures LeerEntero(EnteroATexto(n)) == n
  {
    if n < 0 {
      NatATextoIdaVuelta(-n);
      assert EnteroATexto(n)[1..] == NatATexto(-n);
    } else {
      NatATextoIdaVuelta(n);
    }
  }
}
