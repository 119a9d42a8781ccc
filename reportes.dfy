/**
 * The survey report page: demographic counts over the participants of the
 * detailed report, their rows with percentages, the list of enumerators for
 * the filter selector and the total of answers shown.
 */
module Reportes {
  import opened Comun
  import opened Textos
  import opened Secuencias
  import opened Modelo

  /**
   * The personal data a participant may carry. `barrio` is
   * `datosPersonales.barrio?.descripcion`, absent when there is no barrio or it
   * has no description; `sigem` is the truthiness of the `sigem` flag.
   */
  datatype DatosReporte = DatosReporte(
    genero: Option<string>,
    rangoEdad: Option<string>,
    barrio: Option<string>,
    sigem: bool)

  /** One participant of the detailed report: who answered, their data and the answers given. */
  datatype Participante = Participante(usuario: Usuario, datosPersonales: Option<DatosReporte>, respuestas: seq<int>)

  // ---------------------------------------------------------------------------
  // counting by category: each key's entry starts at 0 and goes up by one per occurrence, over an object
  // ---------------------------------------------------------------------------

  /** The bucket for a missing or empty value. */
  const NoEspecificado: string := "No especificado"

  /** The value, or 'No especificado' when it is missing or empty. */
  function Categoria(valor: Option<string>): string {
    if TextoVerdadero(valor) then valor.value else NoEspecificado
  }

  /** The three dimensions the report counts participants by. */
  datatype Dimension = Genero | RangoEdad | BarrioDim

  /** The participant's gender, age range or neighbourhood description, through the optional personal data. */
  function ValorDe(d: Dimension, p: Participante): Option<string> {
    match p.datosPersonales
    case None => None
    case Some(datos) =>
      match d
      case Genero => datos.genero
      case RangoEdad => datos.rangoEdad
      case BarrioDim => datos.barrio
  }

  /** The category label of every participant, in order. */
  function Categorias(d: Dimension, s: seq<Participante>): (r: seq<string>)
    ensures |r| == |s|
    ensures forall i :: 0 <= i < |s| ==> r[i] == Categoria(ValorDe(d, s[i]))
  {
    if s == [] then [] else [Categoria(ValorDe(d, s[0]))] + Categorias(d, s[1..])
  }

  /**
   * One property of the counting object: a label and its count. An object
   * built by assignment lists its keys in the order they were first set.
   */
  datatype Conteo = Conteo(etiqueta: string, cantidad: nat)

  function Etiqueta(c: Conteo): string {
    c.etiqueta
  }

  /** The value of `acc[k]`, 0 for a missing key. */
  function CantidadDe(cs: seq<Conteo>, k: string): nat {
    if cs == [] then 0 else (if cs[0].etiqueta == k then cs[0].cantidad else 0) + CantidadDe(cs[1..], k)
  }

  /** The sum of every count of the object. */
  function Suma(cs: seq<Conteo>): nat {
    if cs == [] then 0 else cs[0].cantidad + Suma(cs[1..])
  }

  /** One counting step: `k`'s count, 0 when absent, goes up by one. */
  function Incrementar(acc: seq<Conteo>, k: string): seq<Conteo> {
    if acc == [] then [Conteo(k, 1)]
    else if acc[0].etiqueta == k then [Conteo(k, acc[0].cantidad + 1)] + acc[1..]
    else [acc[0]] + Incrementar(acc[1..], k)
  }

  /** The labels of the object, in the order of its properties. */
  function Etiquetas(cs: seq<Conteo>): (r: seq<string>)
    ensures |r| == |cs|
    ensures forall i :: 0 <= i < |cs| ==> r[i] == cs[i].etiqueta
  {
    if cs == [] then [] else [cs[0].etiqueta] + Etiquetas(cs[1..])
  }

  /** An increment keeps the labels and their order, adding `k` at the end when it is new. */
  lemma {:induction false} IncrementarEtiquetas(acc: seq<Conteo>, k: string)
    ensures Etiquetas(Incrementar(acc, k)) == if k in Etiquetas(acc) then Etiquetas(acc) else Etiquetas(acc) + [k]
  {
    if acc != [] {
      assert Etiquetas(acc) == [acc[0].etiqueta] + Etiquetas(acc[1..]);
      if acc[0].etiqueta == k {
        assert Etiquetas(Incrementar(acc, k)) == [k] + Etiquetas(acc[1..]);
      } else {
        IncrementarEtiquetas(acc[1..], k);
        assert Etiquetas(Incrementar(acc, k)) == [acc[0].etiqueta] + Etiquetas(Incrementar(acc[1..], k));
        assert k in Etiquetas(acc) <==> k in Etiquetas(acc[1..]);
      }
    }
  }

  /** An increment adds one to the total. */
  lemma {:induction false} IncrementarSuma(acc: seq<Conteo>, k: string)
    ensures Suma(Incrementar(acc, k)) == Suma(acc) + 1
  {
    if acc != [] && acc[0].etiqueta != k {
      IncrementarSuma(acc[1..], k);
      assert Incrementar(acc, k)[1..] == Incrementar(acc[1..], k);
    }
  }

  /** An increment adds one to the count of `k` and leaves every other count alone. */
  lemma {:induction false} IncrementarCantidad(acc: seq<Conteo>, k: string, j: string)
    ensures CantidadDe(Incrementar(acc, k), j) == CantidadDe(acc, j) + (if j == k then 1 else 0)
  {
    if acc != [] {
      if acc[0].etiqueta == k {
        assert Incrementar(acc, k)[1..] == acc[1..];
      } else {
        IncrementarCantidad(acc[1..], k, j);
        assert Incrementar(acc, k)[1..] == Incrementar(acc[1..], k);
      }
    }
  }

  /** An increment keeps the labels distinct. */
  lemma IncrementarDistintas(acc: seq<Conteo>, k: string)
    requires ClavesDistintas(acc, Etiqueta)
    ensures ClavesDistintas(Incrementar(acc, k), Etiqueta)
  {
    IncrementarEtiquetas(acc, k);
    var r := Incrementar(acc, k);
    var e := Etiquetas(r);
    forall i, j | 0 <= i < j < |r| ensures Etiqueta(r[i]) != Etiqueta(r[j]) {
      assert e[i] == r[i].etiqueta && e[j] == r[j].etiqueta;
      if j < |acc| {
        assert e[i] == Etiquetas(acc)[i] && e[j] == Etiquetas(acc)[j];
      }
    }
  }

  /** The properties of `Incrementar` together, for every label. */
  lemma IncrementarCorrecto(acc: seq<Conteo>, k: string)
    requires ClavesDistintas(acc, Etiqueta)
    ensures Suma(Incrementar(acc, k)) == Suma(acc) + 1
    ensures forall j :: CantidadDe(Incrementar(acc, k), j) == CantidadDe(acc, j) + (if j == k then 1 else 0)
    ensures forall j :: j in Etiquetas(Incrementar(acc, k)) <==> j in Etiquetas(acc) || j == k
    ensures ClavesDistintas(Incrementar(acc, k), Etiqueta)
  {
    IncrementarSuma(acc, k);
    IncrementarEtiquetas(acc, k);
    IncrementarDistintas(acc, k);
    forall j ensures CantidadDe(Incrementar(acc, k), j) == CantidadDe(acc, j) + (if j == k then 1 else 0) {
      IncrementarCantidad(acc, k, j);
    }
  }

  /**
   * The count object the report builds by reducing the keys, one counting
   * step per key, as the list of the object's properties.
   */
  function Contar(claves: seq<string>): (r: seq<Conteo>)
    ensures Suma(r) == |claves|
    ensures forall k :: CantidadDe(r, k) == multiset(claves)[k]
    ensures forall k :: k in Etiquetas(r) <==> k in claves
    ensures ClavesDistintas(r, Etiqueta)
  {
    if claves == [] then []
    else
      var n := |claves| - 1;
      var previo := Contar(claves[..n]);
      assert claves == claves[..n] + [claves[n]];
      IncrementarCorrecto(previo, claves[n]);
      Incrementar(previo, claves[n])
  }

  /** Every label listed has been counted at least once. */
  lemma {:induction false} ContarPositivo(claves: seq<string>)
    ensures forall i :: 0 <= i < |Contar(claves)| ==> Contar(claves)[i].cantidad > 0
  {
    var r := Contar(claves);
    forall i | 0 <= i < |r| ensures r[i].cantidad > 0 {
      ContarUnaEntrada(r, i);
      assert CantidadDe(r, r[i].etiqueta) == multiset(claves)[r[i].etiqueta];
      assert Etiquetas(r)[i] == r[i].etiqueta;
      assert r[i].etiqueta in claves;
      assert r[i].etiqueta in multiset(claves);
    }
  }

  /** With distinct labels, `CantidadDe` is the count of the one entry with that label. */
  lemma {:induction false} ContarUnaEntrada(cs: seq<Conteo>, i: int)
    requires ClavesDistintas(cs, Etiqueta)
    requires 0 <= i < |cs|
    ensures CantidadDe(cs, cs[i].etiqueta) == cs[i].cantidad
  {
    if i == 0 {
      EtiquetaAusente(cs[1..], cs[0].etiqueta);
    } else {
      assert cs[1..][i - 1] == cs[i];
      assert Etiqueta(cs[0]) != Etiqueta(cs[i]);
      assert ClavesDistintas(cs[1..], Etiqueta) by {
        forall a, b | 0 <= a < b < |cs[1..]| ensures Etiqueta(cs[1..][a]) != Etiqueta(cs[1..][b]) {
          assert cs[1..][a] == cs[a + 1] && cs[1..][b] == cs[b + 1];
        }
      }
      ContarUnaEntrada(cs[1..], i - 1);
    }
  }

  /** A label that no entry carries has count 0. */
  lemma {:induction false} EtiquetaAusente(cs: seq<Conteo>, k: string)
    requires forall m :: 0 <= m < |cs| ==> cs[m].etiqueta != k
    ensures CantidadDe(cs, k) == 0
  {
    if cs != [] {
      EtiquetaAusente(cs[1..], k);
    }
  }

  /** The counting object of one dimension over the participants with data. */
  function PorDimension(d: Dimension, conDatos: seq<Participante>): seq<Conteo> {
    Contar(Categorias(d, conDatos))
  }

  /** How many participants have no value, or an empty one, for the dimension. */
  function Faltantes(d: Dimension, s: seq<Participante>): nat {
    if s == [] then 0 else (if TextoVerdadero(ValorDe(d, s[0])) then 0 else 1) + Faltantes(d, s[1..])
  }

  /** How many participants have exactly the value `k` for the dimension. */
  function ConValor(d: Dimension, s: seq<Participante>, k: string): nat {
    if s == [] then 0 else (if ValorDe(d, s[0]) == Some(k) then 1 else 0) + ConValor(d, s[1..], k)
  }

  /**
   * The bucket 'No especificado' counts every participant whose value is
   * missing or empty, together with those whose value is that text itself;
   * every other non-empty label counts exactly the participants with that value.
   */
  lemma {:induction false} PorDimensionCuenta(d: Dimension, s: seq<Participante>, k: string)
    ensures CantidadDe(PorDimension(d, s), NoEspecificado) == Faltantes(d, s) + ConValor(d, s, NoEspecificado)
    ensures k != "" && k != NoEspecificado ==> CantidadDe(PorDimension(d, s), k) == ConValor(d, s, k)
  {
    if k != "" {
      CategoriasCuenta(d, s, k);
    }
    CategoriasCuenta(d, s, NoEspecificado);
  }

  /**
   * A non-empty label occurs among the labels once per participant with that
   * value, plus, for 'No especificado', once per participant without a value.
   */
  lemma {:induction false} CategoriasCuenta(d: Dimension, s: seq<Participante>, k: string)
    requires k != ""
    ensures multiset(Categorias(d, s))[k] == (if k == NoEspecificado then Faltantes(d, s) else 0) + ConValor(d, s, k)
  {
    if s != [] {
      CategoriasCuenta(d, s[1..], k);
      var v := ValorDe(d, s[0]);
      var c := Categoria(v);
      var resto := Categorias(d, s[1..]);
      assert Categorias(d, s) == [c] + resto;
      assert multiset(Categorias(d, s))[k] == multiset(resto)[k] + (if c == k then 1 else 0);
      assert Faltantes(d, s) == (if TextoVerdadero(v) then 0 else 1) + Faltantes(d, s[1..]);
      assert ConValor(d, s, k) == (if v == Some(k) then 1 else 0) + ConValor(d, s[1..], k);
    }
  }

  /** The result of the `estadisticasDemograficas` getter. */
  datatype Estadisticas = Estadisticas(
    porGenero: seq<Conteo>,
    porRangoEdad: seq<Conteo>,
    porBarrio: seq<Conteo>,
    sigem: seq<Conteo>,
    totalConDatos: nat)

  /** `p.datosPersonales` is truthy. */
  predicate TieneDatos(p: Participante) {
    p.datosPersonales.Some?
  }

  /** `p.datosPersonales?.sigem` is truthy. */
  predicate ConSigem(p: Participante) {
    p.datosPersonales.Some? && p.datosPersonales.value.sigem
  }

  /** `ConSigem` negated, for the participants with data. */
  predicate SinSigem(p: Participante) {
    !ConSigem(p)
  }

  /**
   * The demographic statistics of the loaded participants: none when the
   * list is missing or empty, otherwise the counts over the participants with
   * personal data.
   */
  function EstadisticasDemograficas(encuestadores: Option<seq<Participante>>): (r: Option<Estadisticas>)
    ensures r.None? <==> encuestadores.None? || |encuestadores.value| == 0
    ensures r.Some? ==>
      var conDatos := Filtrar(encuestadores.value, TieneDatos);
      && r.value.totalConDatos == |conDatos|
      && (forall p :: p in conDatos <==> p in encuestadores.value && TieneDatos(p))
      && Suma(r.value.porGenero) == r.value.totalConDatos
      && Suma(r.value.porRangoEdad) == r.value.totalConDatos
      && Suma(r.value.porBarrio) == r.value.totalConDatos
      && ClavesDistintas(r.value.porGenero, Etiqueta)
      && ClavesDistintas(r.value.porRangoEdad, Etiqueta)
      && ClavesDistintas(r.value.porBarrio, Etiqueta)
      && |r.value.sigem| == 2
      && r.value.sigem[0].etiqueta == "Con SIGEM" && r.value.sigem[1].etiqueta == "Sin SIGEM"
      && r.value.sigem[0].cantidad == |Filtrar(conDatos, ConSigem)|
      && r.value.sigem[0].cantidad + r.value.sigem[1].cantidad == r.value.totalConDatos
  {
    if encuestadores.None? || |encuestadores.value| == 0 then None
    else
      var conDatos := Filtrar(encuestadores.value, TieneDatos);
      var con := |Filtrar(conDatos, ConSigem)|;
      Some(Estadisticas(
        PorDimension(Genero, conDatos),
        PorDimension(RangoEdad, conDatos),
        PorDimension(BarrioDim, conDatos),
        [Conteo("Con SIGEM", con), Conteo("Sin SIGEM", |conDatos| - con)],
        |conDatos|))
  }

  /** 'Sin SIGEM' counts exactly the participants with data whose `sigem` is falsy. */
  lemma SinSigemCuenta(encuestadores: seq<Participante>)
    requires |encuestadores| > 0
    ensures
      var conDatos := Filtrar(encuestadores, TieneDatos);
      EstadisticasDemograficas(Some(encuestadores)).value.sigem[1].cantidad == |Filtrar(conDatos, SinSigem)|
  {
    var conDatos := Filtrar(encuestadores, TieneDatos);
    FiltrarParticion(conDatos, ConSigem, SinSigem);
  }

  // ---------------------------------------------------------------------------
  // rows with percentages
  // ---------------------------------------------------------------------------

  /** The rounded percentage of `count` in `total`, 0 for an empty total, in exact integer arithmetic. */
  function Porcentaje(count: int, total: int): int {
    if total > 0 then (200 * count + total) / (2 * total) else 0
  }

  /**
   * For a positive total the percentage is 100·count/total rounded to the
   * nearest integer, halves upwards: r − ½ ≤ 100·count/total < r + ½.
   * For a total of zero it is 0.
   */
  lemma PorcentajeRedondeo(count: int, total: int)
    ensures total > 0 ==>
      2 * total * Porcentaje(count, total) <= 200 * count + total < 2 * total * Porcentaje(count, total) + 2 * total
    ensures total <= 0 ==> Porcentaje(count, total) == 0
  {
    if total > 0 {
      var q := Porcentaje(count, total);
      var n := 200 * count + total;
      assert n == (2 * total) * q + n % (2 * total);
    }
  }

  /** A count that does not exceed the total gives a percentage between 0 and 100. */
  lemma PorcentajeAcotado(count: int, total: int)
    requires 0 <= count <= total
    ensures 0 <= Porcentaje(count, total) <= 100
  {
    if total > 0 {
      var q := Porcentaje(count, total);
      PorcentajeRedondeo(count, total);
      var t2 := 2 * total;
      assert t2 * q <= 200 * count + total <= 201 * total;
      assert t2 * (q - 101) < 0;
      SignoDelProducto(t2, q - 101);
      assert t2 * (q + 1) > 0;
      SignoDelProducto(t2, -(q + 1));
    }
  }

  /** A positive factor keeps the sign of a product. */
  lemma SignoDelProducto(a: int, b: int)
    requires a > 0 && a * b < 0
    ensures b < 0
  {
  }

  /** One row of a statistics table. */
  datatype Fila = Fila(etiqueta: string, count: nat, porcentaje: int)

  function EtiquetaFila(f: Fila): string {
    f.etiqueta
  }

  /** One row per entry of the count object, in entry order, with its label, count and percentage. */
  function Filas(cs: seq<Conteo>, total: int): (r: seq<Fila>)
    ensures |r| == |cs|
    ensures forall i :: 0 <= i < |cs| ==> r[i] == Fila(cs[i].etiqueta, cs[i].cantidad, Porcentaje(cs[i].cantidad, total))
  {
    if cs == [] then [] else [Fila(cs[0].etiqueta, cs[0].cantidad, Porcentaje(cs[0].cantidad, total))] + Filas(cs[1..], total)
  }

  /** The descending-count comparator, as "a may precede b". */
  predicate MayorCantidad(a: Fila, b: Fila) {
    b.count <= a.count
  }

  /** `getEstadisticasArray(obj, total)`. */
  function EstadisticasArray(obj: Option<seq<Conteo>>, total: int): (r: seq<Fila>)
    ensures obj.None? ==> r == []
    ensures obj.Some? ==> multiset(r) == multiset(Filas(obj.value, total))
  {
    if obj.None? then [] else Ordenar(Filas(obj.value, total), MayorCantidad)
  }

  /** The rows are in non-increasing order of count. */
  lemma EstadisticasArrayOrdenada(obj: Option<seq<Conteo>>, total: int)
    ensures Ordenada(EstadisticasArray(obj, total), MayorCantidad)
  {
    if obj.Some? {
      OrdenarOrdena(Filas(obj.value, total), MayorCantidad);
    }
  }

  /**
   * There is one row per property of the object, carrying its label, its
   * count and its percentage, and no other row.
   */
  lemma EstadisticasArrayFilas(cs: seq<Conteo>, total: int)
    ensures |EstadisticasArray(Some(cs), total)| == |cs|
    ensures forall i :: 0 <= i < |cs| ==>
      Fila(cs[i].etiqueta, cs[i].cantidad, Porcentaje(cs[i].cantidad, total)) in EstadisticasArray(Some(cs), total)
    ensures forall f :: f in EstadisticasArray(Some(cs), total) ==> f in Filas(cs, total)
  {
    var filas := Filas(cs, total);
    OrdenarMiembros(filas, MayorCantidad);
    forall i | 0 <= i < |cs|
      ensures Fila(cs[i].etiqueta, cs[i].cantidad, Porcentaje(cs[i].cantidad, total)) in EstadisticasArray(Some(cs), total)
    {
      assert filas[i] in filas;
    }
  }

  /** Distinct labels give distinct rows. */
  lemma EstadisticasArrayDistintas(cs: seq<Conteo>, total: int)
    requires ClavesDistintas(cs, Etiqueta)
    ensures ClavesDistintas(EstadisticasArray(Some(cs), total), EtiquetaFila)
  {
    var filas := Filas(cs, total);
    assert ClavesDistintas(filas, EtiquetaFila) by {
      forall i, j | 0 <= i < j < |filas| ensures EtiquetaFila(filas[i]) != EtiquetaFila(filas[j]) {
        assert Etiqueta(cs[i]) != Etiqueta(cs[j]);
      }
    }
    ClavesDistintasPermutacion(filas, Ordenar(filas, MayorCantidad), EtiquetaFila);
  }

  // ---------------------------------------------------------------------------
  // the enumerator selector
  // ---------------------------------------------------------------------------

  /** An entry of `listaEncuestadores`. */
  datatype Encuestador = Encuestador(id: int, nombre: string, apellido: string, nombreCompleto: string)

  /** The sort key: the lower-cased surname, a comma and a space, and the lower-cased name. */
  function NombreCompleto(u: Usuario): string {
    Minusculas(u.apellido) + ", " + Minusculas(u.nombre)
  }

  function AEncuestador(u: Usuario): Encuestador {
    Encuestador(u.id, u.nombre, u.apellido, NombreCompleto(u))
  }

  function UsuarioDe(p: Participante): Usuario {
    p.usuario
  }

  function IdUsuario(u: Usuario): int {
    u.id
  }

  function IdEncuestador(e: Encuestador): int {
    e.id
  }

  /** The comparator by `nombreCompleto` through `localeCompare`, as "a may precede b". */
  predicate PorNombreCompleto(a: Encuestador, b: Encuestador) {
    MenorIgualLex(a.nombreCompleto, b.nombreCompleto)
  }

  lemma PorNombreCompletoPreorden()
    ensures PreordenTotal(PorNombreCompleto)
  {
    forall a: Encuestador, b: Encuestador, c: Encuestador
      ensures PorNombreCompleto(a, b) || PorNombreCompleto(b, a)
      ensures PorNombreCompleto(a, b) && PorNombreCompleto(b, c) ==> PorNombreCompleto(a, c)
    {
      MenorIgualLexOrdenTotal(a.nombreCompleto, b.nombreCompleto, c.nombreCompleto);
    }
  }

  /** The values of the `Map` keyed by `usuario.id`, in insertion order. */
  function ValoresDelMapa(participantes: seq<Participante>): seq<Encuestador> {
    Mapear(SinRepetirPor(Mapear(participantes, UsuarioDe), IdUsuario), AEncuestador)
  }

  /**
   * One more participant adds an entry for its user exactly when no entry has
   * that user's id yet, as `if (!map.has(id)) map.set(id, ...)` does.
   */
  lemma ValoresDelMapaAgregar(ps: seq<Participante>, p: Participante)
    ensures ValoresDelMapa(ps + [p]) ==
      if TieneClave(ValoresDelMapa(ps), IdEncuestador, p.usuario.id) then ValoresDelMapa(ps)
      else ValoresDelMapa(ps) + [AEncuestador(p.usuario)]
  {
    var usuarios := Mapear(ps, UsuarioDe);
    MapearConcat(ps, [p], UsuarioDe);
    var siguientes := usuarios + [p.usuario];
    assert Mapear(ps + [p], UsuarioDe) == siguientes;
    assert siguientes[..|siguientes| - 1] == usuarios;
    var unicos := SinRepetirPor(usuarios, IdUsuario);
    TieneClaveMapeo(unicos, p.usuario.id);
    MapearConcat(unicos, [p.usuario], AEncuestador);
  }

  /** The list `construirListaEncuestadores` assigns. */
  function Encuestadores(participantes: seq<Participante>): seq<Encuestador> {
    Ordenar(ValoresDelMapa(participantes), PorNombreCompleto)
  }

  /** The selector list is sorted by the lower-cased "apellido, nombre" key. */
  lemma EncuestadoresOrdenados(participantes: seq<Participante>)
    ensures Ordenada(Encuestadores(participantes), PorNombreCompleto)
  {
    PorNombreCompletoPreorden();
    OrdenarOrdena(ValoresDelMapa(participantes), PorNombreCompleto);
  }

  /** No two entries of the selector list share a user id. */
  lemma EncuestadoresDistintos(participantes: seq<Participante>)
    ensures ClavesDistintas(Encuestadores(participantes), IdEncuestador)
  {
    var usuarios := Mapear(participantes, UsuarioDe);
    var unicos := SinRepetirPor(usuarios, IdUsuario);
    var valores := ValoresDelMapa(participantes);
    SinRepetirPorDistintas(usuarios, IdUsuario);
    assert ClavesDistintas(valores, IdEncuestador) by {
      forall i, j | 0 <= i < j < |valores| ensures IdEncuestador(valores[i]) != IdEncuestador(valores[j]) {
        assert IdUsuario(unicos[i]) != IdUsuario(unicos[j]);
      }
    }
    ClavesDistintasPermutacion(valores, Encuestadores(participantes), IdEncuestador);
  }

  /** Every participant's user id has an entry. */
  lemma EncuestadoresCubren(participantes: seq<Participante>)
    ensures forall i :: 0 <= i < |participantes| ==>
      TieneClave(Encuestadores(participantes), IdEncuestador, participantes[i].usuario.id)
  {
    var usuarios := Mapear(participantes, UsuarioDe);
    SinRepetirPorCubre(usuarios, IdUsuario);
    forall i | 0 <= i < |participantes|
      ensures TieneClave(Encuestadores(participantes), IdEncuestador, participantes[i].usuario.id)
    {
      assert usuarios[i] in usuarios;
      var unicos := SinRepetirPor(usuarios, IdUsuario);
      var j :| 0 <= j < |unicos| && IdUsuario(unicos[j]) == usuarios[i].id;
      EncuestadorCubre(participantes, i, j);
    }
  }

  lemma {:induction false} EncuestadorCubre(participantes: seq<Participante>, i: int, j: int)
    requires 0 <= i < |participantes|
    requires 0 <= j < |SinRepetirPor(Mapear(participantes, UsuarioDe), IdUsuario)|
    requires SinRepetirPor(Mapear(participantes, UsuarioDe), IdUsuario)[j].id == participantes[i].usuario.id
    ensures TieneClave(Encuestadores(participantes), IdEncuestador, participantes[i].usuario.id)
  {
    var valores := ValoresDelMapa(participantes);
    OrdenarMiembros(valores, PorNombreCompleto);
    assert valores[j].id == participantes[i].usuario.id;
    TieneClaveMiembro(Encuestadores(participantes), IdEncuestador, valores[j]);
  }

  /** Every entry is built from the user of some participant. */
  lemma EncuestadoresDeParticipantes(participantes: seq<Participante>, e: Encuestador)
    requires e in Encuestadores(participantes)
    ensures exists i :: 0 <= i < |participantes| && e == AEncuestador(participantes[i].usuario)
  {
    var usuarios := Mapear(participantes, UsuarioDe);
    var unicos := SinRepetirPor(usuarios, IdUsuario);
    var valores := ValoresDelMapa(participantes);
    OrdenarMiembros(valores, PorNombreCompleto);
    var j :| 0 <= j < |valores| && valores[j] == e;
    assert unicos[j] in usuarios;
    var i :| 0 <= i < |usuarios| && usuarios[i] == unicos[j];
    assert e == AEncuestador(participantes[i].usuario);
  }

  /** The entry for an id is built from the first participant with that id. */
  lemma EncuestadoresPrimeraAparicion(participantes: seq<Participante>, i: int)
    requires 0 <= i < |participantes|
    requires forall h :: 0 <= h < i ==> participantes[h].usuario.id != participantes[i].usuario.id
    ensures AEncuestador(participantes[i].usuario) in Encuestadores(participantes)
  {
    var usuarios := Mapear(participantes, UsuarioDe);
    var unicos := SinRepetirPor(usuarios, IdUsuario);
    SinRepetirPorPrimeras(usuarios, IdUsuario, i);
    var j :| 0 <= j < |unicos| && unicos[j] == usuarios[i];
    assert ValoresDelMapa(participantes)[j] == AEncuestador(participantes[i].usuario);
    OrdenarMiembros(ValoresDelMapa(participantes), PorNombreCompleto);
  }

  /** A key is present among mapped values iff it is present among the users they came from. */
  lemma TieneClaveMapeo(unicos: seq<Usuario>, k: int)
    ensures TieneClave(Mapear(unicos, AEncuestador), IdEncuestador, k) <==> TieneClave(unicos, IdUsuario, k)
  {
    var valores := Mapear(unicos, AEncuestador);
    if TieneClave(unicos, IdUsuario, k) {
      var j :| 0 <= j < |unicos| && IdUsuario(unicos[j]) == k;
      assert IdEncuestador(valores[j]) == k;
    }
    if TieneClave(valores, IdEncuestador, k) {
      var j :| 0 <= j < |valores| && IdEncuestador(valores[j]) == k;
      assert IdUsuario(unicos[j]) == k;
    }
  }

  // ---------------------------------------------------------------------------
  // totals
  // ---------------------------------------------------------------------------

  /** The number of answers over all participants. */
  function TotalRespuestas(ps: seq<Participante>): nat {
    if ps == [] then 0 else TotalRespuestas(ps[..|ps| - 1]) + |ps[|ps| - 1].respuestas|
  }

  /** The total of a concatenation is the sum of the totals. */
  lemma {:induction false} TotalRespuestasConcat(a: seq<Participante>, b: seq<Participante>)
    ensures TotalRespuestas(a + b) == TotalRespuestas(a) + TotalRespuestas(b)
  {
    if b == [] {
      assert a + b == a;
    } else {
      var n := |b| - 1;
      assert (a + b)[..|a + b| - 1] == a + b[..n];
      TotalRespuestasConcat(a, b[..n]);
    }
  }

  /** The total counts every answer of every participant: it is the sum from the front as well. */
  lemma TotalRespuestasDesdeElFrente(ps: seq<Participante>)
    requires ps != []
    ensures TotalRespuestas(ps) == |ps[0].respuestas| + TotalRespuestas(ps[1..])
  {
    assert ps == [ps[0]] + ps[1..];
    TotalRespuestasConcat([ps[0]], ps[1..]);
    assert [ps[0]][..0] == [];
  }

  /** The report page's state that its operations change. */
  class ReportesComponente {
    var encuestadores: Option<seq<Participante>>
    var encuestadoresFiltrados: seq<Participante>
    var listaEncuestadores: seq<Encuestador>

    constructor()
      ensures encuestadores == Some([]) && encuestadoresFiltrados == [] && listaEncuestadores == []
    {
      encuestadores := Some([]);
      encuestadoresFiltrados := [];
      listaEncuestadores := [];
    }

    /** `estadisticasDemograficas`, read from the loaded participants. */
    function EstadisticasActuales(): (r: Option<Estadisticas>)
      reads this
      ensures r.None? <==> encuestadores.None? || |encuestadores.value| == 0
    {
      EstadisticasDemograficas(encuestadores)
    }

    /** `totalRespuestasFiltradas`. */
    function TotalRespuestasFiltradas(): (r: nat)
      reads this
      ensures encuestadoresFiltrados != [] ==>
        r == |encuestadoresFiltrados[0].respuestas| + TotalRespuestas(encuestadoresFiltrados[1..])
    {
      if encuestadoresFiltrados != [] then TotalRespuestasDesdeElFrente(encuestadoresFiltrados); TotalRespuestas(encuestadoresFiltrados)
      else TotalRespuestas(encuestadoresFiltrados)
    }

    /**
     * One step of the loop: the entry for `participantes[i]`'s user is added
     * when the map has no entry with that id yet.
     */
    method AgregarEncuestador(participantes: seq<Participante>, i: int, valores: seq<Encuestador>)
      returns (siguientes: seq<Encuestador>)
      requires 0 <= i < |participantes| && valores == ValoresDelMapa(participantes[..i])
      ensures siguientes == ValoresDelMapa(participantes[..i + 1])
    {
      var usuario := participantes[i].usuario;
      assert participantes[..i + 1] == participantes[..i] + [participantes[i]];
      ValoresDelMapaAgregar(participantes[..i], participantes[i]);
      siguientes := valores;
      if !TieneClave(valores, IdEncuestador, usuario.id) {
        siguientes := valores + [AEncuestador(usuario)];
      }
    }

    /**
     * The reply handler of `construirListaEncuestadores`: the participants are
     * walked in order into a map keyed by user id, keeping the first one seen,
     * and its values are sorted into `listaEncuestadores`.
     */
    method ConstruirListaEncuestadores(participantes: seq<Participante>)
      modifies this`listaEncuestadores
      ensures listaEncuestadores == Encuestadores(participantes)
    {
      var valores: seq<Encuestador> := [];
      var i := 0;
      while i < |participantes|
        invariant 0 <= i <= |participantes|
        invariant valores == ValoresDelMapa(participantes[..i])
      {
        valores := AgregarEncuestador(participantes, i, valores);
        i := i + 1;
      }
      assert participantes[..i] == participantes;
      listaEncuestadores := Ordenar(valores, PorNombreCompleto);
    }
  }
}
