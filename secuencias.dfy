/**
 * The array methods the client composes: `filter`, `map`, `sort` with a
 * comparator, and the de-duplication done through a `Set` or a `Map` keyed on
 * an identifier.
 */
module Secuencias {

  // ---------------------------------------------------------------------------
  // filter
  // ---------------------------------------------------------------------------

  /** `s.filter(p)`: the elements satisfying `p`, in their original order. */
  function Filtrar<T(==)>(s: seq<T>, p: T -> bool): (r: seq<T>)
    ensures |r| <= |s|
    ensures forall x :: x in r ==> x in s && p(x)
    ensures forall x :: x in s && p(x) ==> x in r
  {
    if s == [] then []
    else
      assert s == [s[0]] + s[1..];
      (if p(s[0]) then [s[0]] else []) + Filtrar(s[1..], p)
  }

  /** Concatenation is associative. */
  lemma ConcatAsociativa<T>(x: seq<T>, y: seq<T>, z: seq<T>)
    ensures x + (y + z) == (x + y) + z
  {
  }

  /** Filtering `[x] + s` keeps `x` exactly when it passes. */
  lemma FiltrarCons<T>(x: T, s: seq<T>, p: T -> bool)
    ensures Filtrar([x] + s, p) == (if p(x) then [x] else []) + Filtrar(s, p)
  {
    assert ([x] + s)[0] == x;
    assert ([x] + s)[1..] == s;
  }

  /** Filtering commutes with concatenation, so it keeps the relative order of the elements. */
  lemma {:induction false} FiltrarConcat<T>(a: seq<T>, b: seq<T>, p: T -> bool)
    ensures Filtrar(a + b, p) == Filtrar(a, p) + Filtrar(b, p)
  {
    if a != [] {
      FiltrarConcat(a[1..], b, p);
      assert a == [a[0]] + a[1..];
      assert a + b == [a[0]] + (a[1..] + b);
      FiltrarCons(a[0], a[1..] + b, p);
      FiltrarCons(a[0], a[1..], p);
      ConcatAsociativa(if p(a[0]) then [a[0]] else [], Filtrar(a[1..], p), Filtrar(b, p));
    } else {
      assert a + b == b;
    }
  }

  /** A filter that every element passes returns the sequence itself. */
  lemma {:induction false} FiltrarTodos<T>(s: seq<T>, p: T -> bool)
    requires forall i :: 0 <= i < |s| ==> p(s[i])
    ensures Filtrar(s, p) == s
  {
    if s != [] {
      FiltrarTodos(s[1..], p);
    }
  }

  /** Each element passing the filter is kept as many times as it occurs; the others are dropped. */
  lemma {:induction false} FiltrarMultiplicidad<T>(s: seq<T>, p: T -> bool)
    ensures forall x :: multiset(Filtrar(s, p))[x] == if p(x) then multiset(s)[x] else 0
  {
    if s != [] {
      FiltrarMultiplicidad(s[1..], p);
      assert s == [s[0]] + s[1..];
      assert multiset(s) == multiset{s[0]} + multiset(s[1..]);
    }
  }

  /** A predicate and its negation split a sequence: the two filtered lengths add up to the whole. */
  lemma {:induction false} FiltrarParticion<T>(s: seq<T>, p: T -> bool, q: T -> bool)
    requires forall i :: 0 <= i < |s| ==> q(s[i]) == !p(s[i])
    ensures |Filtrar(s, p)| + |Filtrar(s, q)| == |s|
  {
    if s != [] {
      FiltrarParticion(s[1..], p, q);
    }
  }

  // ---------------------------------------------------------------------------
  // map
  // ---------------------------------------------------------------------------

  /** `s.map(f)`. */
  function Mapear<T, U>(s: seq<T>, f: T -> U): (r: seq<U>)
    ensures |r| == |s|
    ensures forall i {:trigger r[i]} :: 0 <= i < |s| ==> r[i] == f(s[i])
  {
    if s == [] then [] else [f(s[0])] + Mapear(s[1..], f)
  }

  /** Mapping commutes with concatenation. */
  lemma MapearConcat<T, U>(a: seq<T>, b: seq<T>, f: T -> U)
    ensures Mapear(a + b, f) == Mapear(a, f) + Mapear(b, f)
  {
    assert forall i :: 0 <= i < |a + b| ==> Mapear(a + b, f)[i] == (Mapear(a, f) + Mapear(b, f))[i];
  }

  /** Removing the element at `j` removes one copy of it from the multiset. */
  lemma MultisetQuitar<T>(b: seq<T>, j: int)
    requires 0 <= j < |b|
    ensures multiset(b[..j] + b[j + 1..]) == multiset(b) - multiset{b[j]}
  {
    assert b == b[..j] + [b[j]] + b[j + 1..];
  }

  /** Taking the middle element out of `x + [y] + z` takes `y` out of its multiset. */
  lemma MultisetSinMedio<U>(x: seq<U>, y: U, z: seq<U>)
    ensures multiset(x + [y] + z) == multiset(x + z) + multiset{y}
  {
  }

  /** `b` is its part before `j`, then `b[j]`, then its part after `j`. */
  lemma PartirEn<T>(b: seq<T>, j: int)
    requires 0 <= j < |b|
    ensures b == b[..j] + [b[j]] + b[j + 1..]
  {
  }

  /** Mapping `x + [y] + z` maps `y` besides what mapping `x + z` does. */
  lemma MapearSinMedio<T, U>(x: seq<T>, y: T, z: seq<T>, f: T -> U)
    ensures multiset(Mapear(x + [y] + z, f)) == multiset(Mapear(x + z, f)) + multiset{f(y)}
  {
    MapearConcat(x + [y], z, f);
    MapearConcat(x, [y], f);
    MapearConcat(x, z, f);
    assert Mapear([y], f) == [f(y)];
    MultisetSinMedio(Mapear(x, f), f(y), Mapear(z, f));
  }

  /** Mapping after removing the element at `j` removes one copy of its image. */
  lemma MapearQuitar<T, U>(b: seq<T>, j: int, f: T -> U)
    requires 0 <= j < |b|
    ensures multiset(Mapear(b, f)) == multiset(Mapear(b[..j] + b[j + 1..], f)) + multiset{f(b[j])}
  {
    var izq, der := b[..j], b[j + 1..];
    PartirEn(b, j);
    MapearSinMedio(izq, b[j], der, f);
  }

  /** A position of an element of `b`'s multiset in `b`. */
  lemma Posicion<T>(b: seq<T>, x: T) returns (j: int)
    requires x in multiset(b)
    ensures 0 <= j < |b| && b[j] == x
  {
    assert x in b;
    j :| 0 <= j < |b| && b[j] == x;
  }

  /** Removing equal elements from two permutations of each other leaves permutations. */
  lemma PermutacionSinUno<T>(a: seq<T>, b: seq<T>, j: int)
    requires multiset(a) == multiset(b) && a != [] && 0 <= j < |b| && b[j] == a[0]
    ensures multiset(a[1..]) == multiset(b[..j] + b[j + 1..])
  {
    assert a[..0] + a[1..] == a[1..];
    MultisetQuitar(a, 0);
    MultisetQuitar(b, j);
  }

  /** The mapped multiset of a non-empty sequence is its head's image plus the tail's. */
  lemma MapearCabeza<T, U>(a: seq<T>, f: T -> U)
    requires a != []
    ensures multiset(Mapear(a, f)) == multiset(Mapear(a[1..], f)) + multiset{f(a[0])}
  {
    assert Mapear(a, f) == [f(a[0])] + Mapear(a[1..], f);
  }

  /** Mapping two permutations of each other yields permutations of each other. */
  lemma {:induction false} MapearPermutacion<T, U>(a: seq<T>, b: seq<T>, f: T -> U)
    requires multiset(a) == multiset(b)
    ensures multiset(Mapear(a, f)) == multiset(Mapear(b, f))
  {
    if a == [] {
      assert |b| == |multiset(b)| == 0;
    } else {
      var j := Posicion(b, a[0]);
      var resto := b[..j] + b[j + 1..];
      PermutacionSinUno(a, b, j);
      MapearPermutacion(a[1..], resto, f);
      MapearCabeza(a, f);
      MapearQuitar(b, j, f);
    }
  }

  // ---------------------------------------------------------------------------
  // sort with a comparator
  // ---------------------------------------------------------------------------

  /** `le` is a total preorder: what a consistent `sort` comparator describes. */
  ghost predicate PreordenTotal<T(!new)>(le: (T, T) -> bool) {
    && (forall a, b :: le(a, b) || le(b, a))
    && (forall a, b, c :: le(a, b) && le(b, c) ==> le(a, c))
  }

  /** `s` is in non-decreasing order under `le`. */
  ghost predicate Ordenada<T>(s: seq<T>, le: (T, T) -> bool) {
    forall i, j :: 0 <= i < j < |s| ==> le(s[i], s[j])
  }

  /** Inserts `x` before the first element it does not exceed. */
  function Insertar<T(==)>(x: T, s: seq<T>, le: (T, T) -> bool): (r: seq<T>)
    ensures multiset(r) == multiset(s) + multiset{x}
  {
    if s == [] then [x]
    else if le(x, s[0]) then [x] + s
    else
      assert s == [s[0]] + s[1..];
      [s[0]] + Insertar(x, s[1..], le)
  }

  /**
   * `s.sort(cmp)` where `le(a, b)` stands for `cmp(a, b) <= 0`: a stable
   * insertion sort; the result is a permutation of `s`.
   */
  function Ordenar<T(==)>(s: seq<T>, le: (T, T) -> bool): (r: seq<T>)
    ensures multiset(r) == multiset(s)
    ensures |r| == |s|
  {
    if s == [] then []
    else
      assert s == [s[0]] + s[1..];
      Insertar(s[0], Ordenar(s[1..], le), le)
  }

  lemma {:induction false} InsertarOrdena<T(!new)>(x: T, s: seq<T>, le: (T, T) -> bool)
    requires PreordenTotal(le)
    requires Ordenada(s, le)
    ensures Ordenada(Insertar(x, s, le), le)
  {
    if s != [] && !le(x, s[0]) {
      InsertarOrdena(x, s[1..], le);
      var r := Insertar(x, s[1..], le);
      forall y | y in r ensures le(s[0], y) {
        assert y in multiset(r);
        if y != x {
          assert y in multiset(s[1..]);
        }
      }
    }
  }

  /** With a consistent comparator, `sort` leaves the sequence in non-decreasing order. */
  lemma {:induction false} OrdenarOrdena<T(!new)>(s: seq<T>, le: (T, T) -> bool)
    requires PreordenTotal(le)
    ensures Ordenada(Ordenar(s, le), le)
  {
    if s != [] {
      OrdenarOrdena(s[1..], le);
      InsertarOrdena(s[0], Ordenar(s[1..], le), le);
    }
  }

  /** Sorting keeps exactly the same elements: membership is unchanged. */
  lemma OrdenarMiembros<T>(s: seq<T>, le: (T, T) -> bool)
    ensures forall x :: x in Ordenar(s, le) <==> x in s
  {
    forall x ensures x in Ordenar(s, le) <==> x in s {
      assert x in Ordenar(s, le) <==> x in multiset(Ordenar(s, le));
      assert x in s <==> x in multiset(s);
    }
  }

  // ---------------------------------------------------------------------------
  // de-duplication by a key (a `Set` of values, or a `Map` keyed on an id)
  // ---------------------------------------------------------------------------

  /** Is some element of `r` of key `k`? */
  predicate TieneClave<T, K(==)>(r: seq<T>, key: T -> K, k: K) {
    exists j :: 0 <= j < |r| && key(r[j]) == k
  }

  /** No two elements of `r` share a key. */
  ghost predicate ClavesDistintas<T, K>(r: seq<T>, key: T -> K) {
    forall i, j :: 0 <= i < j < |r| ==> key(r[i]) != key(r[j])
  }

  /**
   * The first element of `s` for each key, in the order of first appearance:
   * what iterating `s` into a `Map` with `if (!m.has(k)) m.set(k, x)` keeps,
   * or, with the identity key, de-duplication through a `Set`.
   */
  function SinRepetirPor<T(==), K(==)>(s: seq<T>, key: T -> K): (r: seq<T>)
    ensures forall y :: y in r ==> y in s
    ensures |r| <= |s|
  {
    if s == [] then []
    else
      var previo := SinRepetirPor(s[..|s| - 1], key);
      var x := s[|s| - 1];
      assert s == s[..|s| - 1] + [x];
      if TieneClave(previo, key, key(x)) then previo else previo + [x]
  }

  /** Every key of `s` is represented in the de-duplicated sequence. */
  lemma SinRepetirPorCubre<T, K>(s: seq<T>, key: T -> K)
    ensures forall x :: x in s ==> TieneClave(SinRepetirPor(s, key), key, key(x))
  {
    forall x | x in s ensures TieneClave(SinRepetirPor(s, key), key, key(x)) {
      SinRepetirPorCubreUno(s, key, x);
    }
  }

  /** The key of one element of `s` is represented in the de-duplicated sequence. */
  lemma {:induction false} SinRepetirPorCubreUno<T, K>(s: seq<T>, key: T -> K, x: T)
    requires x in s
    ensures TieneClave(SinRepetirPor(s, key), key, key(x))
  {
    var n := |s| - 1;
    var previo := SinRepetirPor(s[..n], key);
    assert s == s[..n] + [s[n]];
    assert SinRepetirPor(s, key) == if TieneClave(previo, key, key(s[n])) then previo else previo + [s[n]];
    TieneClaveAgregar(previo, s[n], key);
    if x != s[n] {
      assert x in s[..n];
      SinRepetirPorCubreUno(s[..n], key, x);
      if !TieneClave(previo, key, key(s[n])) {
        assert TieneClave(previo + [s[n]], key, key(x));
      }
    }
  }

  /** Appending an element keeps every key already present. */
  lemma TieneClaveAgregar<T, K>(r: seq<T>, x: T, key: T -> K)
    ensures forall k :: TieneClave(r, key, k) ==> TieneClave(r + [x], key, k)
    ensures TieneClave(r + [x], key, key(x))
  {
    assert (r + [x])[|r|] == x;
    forall k | TieneClave(r, key, k) ensures TieneClave(r + [x], key, k) {
      var j :| 0 <= j < |r| && key(r[j]) == k;
      assert (r + [x])[j] == r[j];
    }
  }

  /** An element of `r` makes its key present in `r`. */
  lemma TieneClaveMiembro<T, K>(r: seq<T>, key: T -> K, x: T)
    requires x in r
    ensures TieneClave(r, key, key(x))
  {
    var j :| 0 <= j < |r| && r[j] == x;
    assert key(r[j]) == key(x);
  }

  /** The de-duplicated sequence never holds two elements with the same key. */
  lemma {:induction false} SinRepetirPorDistintas<T, K>(s: seq<T>, key: T -> K)
    ensures ClavesDistintas(SinRepetirPor(s, key), key)
  {
    if s != [] {
      SinRepetirPorDistintas(s[..|s| - 1], key);
    }
  }

  /** Every first occurrence of a key in `s` is kept. */
  lemma {:induction false} SinRepetirPorPrimeras<T, K>(s: seq<T>, key: T -> K, i: int)
    requires 0 <= i < |s|
    requires forall h :: 0 <= h < i ==> key(s[h]) != key(s[i])
    ensures s[i] in SinRepetirPor(s, key)
  {
    var n := |s| - 1;
    var previo := SinRepetirPor(s[..n], key);
    if i < n {
      SinRepetirPorPrimeras(s[..n], key, i);
    } else {
      ClaveAusente(previo, s[..n], key, key(s[i]));
    }
  }

  /** A key that no element of `t` has is not found in any `r` drawn from `t`. */
  lemma ClaveAusente<T, K>(r: seq<T>, t: seq<T>, key: T -> K, k: K)
    requires forall y :: y in r ==> y in t
    requires forall h :: 0 <= h < |t| ==> key(t[h]) != k
    ensures !TieneClave(r, key, k)
  {
    forall j | 0 <= j < |r| ensures key(r[j]) != k {
      assert r[j] in t;
    }
  }

  /** With distinct keys every element occurs exactly once. */
  lemma {:induction false} ClavesDistintasUnaVez<T, K>(a: seq<T>, key: T -> K, x: T)
    requires ClavesDistintas(a, key)
    requires x in multiset(a)
    ensures multiset(a)[x] == 1
  {
    assert a == [a[0]] + a[1..];
    if x == a[0] {
      forall k | 0 <= k < |a[1..]| ensures a[1..][k] != x {
        assert key(a[k + 1]) != key(a[0]);
      }
      assert x !in multiset(a[1..]);
    } else {
      ClavesDistintasUnaVez(a[1..], key, x);
    }
  }

  /** An element found at two positions occurs at least twice. */
  lemma DosPosiciones<T>(s: seq<T>, i: int, j: int)
    requires 0 <= i < j < |s| && s[i] == s[j]
    ensures multiset(s)[s[i]] >= 2
  {
    assert s == s[..j] + [s[j]] + s[j + 1..];
    assert s[..j][i] == s[i];
    assert s[i] in multiset(s[..j]);
  }

  /** A permutation of a sequence with distinct keys has distinct keys. */
  lemma ClavesDistintasPermutacion<T, K>(a: seq<T>, b: seq<T>, key: T -> K)
    requires ClavesDistintas(a, key)
    requires multiset(a) == multiset(b)
    ensures ClavesDistintas(b, key)
  {
    forall i, j | 0 <= i < j < |b| ensures key(b[i]) != key(b[j]) {
      assert b[i] in multiset(a) && b[j] in multiset(a);
      var i' :| 0 <= i' < |a| && a[i'] == b[i];
      var j' :| 0 <= j' < |a| && a[j'] == b[j];
      if b[i] == b[j] {
        DosPosiciones(b, i, j);
        ClavesDistintasUnaVez(a, key, b[i]);
      } else {
        assert i' != j';
        if i' < j' {
          assert key(a[i']) != key(a[j']);
        } else {
          assert key(a[j']) != key(a[i']);
        }
      }
    }
  }
}
