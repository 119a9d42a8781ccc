/**
 * The public survey-answering page: the answers picked so far, kept as a map
 * from question id to the set of chosen answer ids; the respondent's personal
 * data; the clean-up of the loaded survey; and the neighbourhood search box.
 */
module EncuestaPublica {
  import opened Comun
  import opened Textos
  import opened Secuencias
  import opened Modelo

  /** `respuestasSeleccionadas`: question id to chosen answer ids. */
  type Selecciones = map<int, set<int>>

  /** The invariant of the selection map: no question is mapped to an empty set. */
  predicate SinVacios(m: Selecciones) {
    forall p :: p in m ==> m[p] != {}
  }

  // ---------------------------------------------------------------------------
  // Picking an answer
  // ---------------------------------------------------------------------------

  /**
   * The selection map after clicking answer `respuestaId` of question
   * `preguntaId`: ignored unless both ids are truthy numbers; a radio button
   * replaces the question's choice; a checkbox toggles the answer, dropping
   * the question once its last answer is unticked.
   */
  function Seleccionar(m: Selecciones, preguntaId: Numero, respuestaId: Numero, multiples: bool): Selecciones {
    if !Verdadero(preguntaId) || !Verdadero(respuestaId) then m
    else
      var p, r := preguntaId.valor, respuestaId.valor;
      if !multiples then m[p := {r}]
      else
        var actuales := if p in m then m[p] else {};
        if r in actuales then
          if actuales - {r} == {} then m - {p} else m[p := actuales - {r}]
        else m[p := actuales + {r}]
  }

  /** `verificarRespuestaSeleccionada`: is answer `r` ticked for question `p`? */
  predicate EstaSeleccionada(m: Selecciones, p: int, r: int) {
    p in m && r in m[p]
  }

  /**
   * A question without an entry has nothing ticked; after a click with valid
   * ids the clicked answer is ticked when the question is single-choice, and
   * flips when it is multiple-choice.
   */
  lemma SeleccionadaTrasClic(m: Selecciones, p: int, r: int, multiples: bool)
    requires p != 0 && r != 0
    ensures p !in m ==> !EstaSeleccionada(m, p, r)
    ensures EstaSeleccionada(Seleccionar(m, Num(p), Num(r), multiples), p, r)
      <==> !multiples || !EstaSeleccionada(m, p, r)
  {
  }

  /** A click with a zero or non-numeric id changes nothing. */
  lemma SeleccionInvalida(m: Selecciones, preguntaId: Numero, respuestaId: Numero, multiples: bool)
    requires !Verdadero(preguntaId) || !Verdadero(respuestaId)
    ensures Seleccionar(m, preguntaId, respuestaId, multiples) == m
  {
  }

  /** A single-choice click makes `{r}` the question's whole choice and touches no other question. */
  lemma SeleccionUnica(m: Selecciones, p: int, r: int)
    requires p != 0 && r != 0
    ensures var m' := Seleccionar(m, Num(p), Num(r), false);
      && p in m' && m'[p] == {r}
      && (forall x :: EstaSeleccionada(m', p, x) <==> x == r)
      && (forall q :: q != p ==> (q in m' <==> q in m) && (q in m ==> m'[q] == m[q]))
  {
  }

  /** A multiple-choice click toggles exactly that answer and touches no other question. */
  lemma SeleccionMultiple(m: Selecciones, p: int, r: int)
    requires p != 0 && r != 0
    ensures var m' := Seleccionar(m, Num(p), Num(r), true);
      && (EstaSeleccionada(m', p, r) <==> !EstaSeleccionada(m, p, r))
      && (forall x :: x != r ==> (EstaSeleccionada(m', p, x) <==> EstaSeleccionada(m, p, x)))
      && (forall q :: q != p ==> (q in m' <==> q in m) && (q in m ==> m'[q] == m[q]))
  {
    var m' := Seleccionar(m, Num(p), Num(r), true);
    forall x | x != r ensures EstaSeleccionada(m', p, x) <==> EstaSeleccionada(m, p, x) {
      if p in m && r in m[p] && m[p] - {r} == {} {
        assert x !in m[p] - {r};
      }
    }
  }

  /** Every click keeps the invariant: a question is only present with at least one answer. */
  lemma SeleccionConservaSinVacios(m: Selecciones, preguntaId: Numero, respuestaId: Numero, multiples: bool)
    requires SinVacios(m)
    ensures SinVacios(Seleccionar(m, preguntaId, respuestaId, multiples))
  {
  }

  /** Ticking and unticking the same checkbox restores the selection exactly, given the invariant. */
  lemma SeleccionMultipleDosVeces(m: Selecciones, preguntaId: Numero, respuestaId: Numero)
    requires SinVacios(m)
    ensures Seleccionar(Seleccionar(m, preguntaId, respuestaId, true), preguntaId, respuestaId, true) == m
  {
    if Verdadero(preguntaId) && Verdadero(respuestaId) {
      var p, r := preguntaId.valor, respuestaId.valor;
      var m1 := Seleccionar(m, preguntaId, respuestaId, true);
      var m2 := Seleccionar(m1, preguntaId, respuestaId, true);
      if p in m && r in m[p] {
        if m[p] - {r} == {} {
          assert m[p] == {r};
          assert p !in m1;
          assert m2 == m1[p := {} + {r}];
        } else {
          assert m1[p] + {r} == m[p];
        }
      } else if p in m {
        assert m1[p] - {r} == m[p];
      } else {
        assert m1[p] == {r};
        assert m2 == m1 - {p};
      }
      assert m2.Keys == m.Keys;
      assert forall q :: q in m ==> m2[q] == m[q];
    }
  }

  // ---------------------------------------------------------------------------
  // Completeness of the form
  // ---------------------------------------------------------------------------

  /** The personal data of the respondent. */
  datatype DatosPersonales = DatosPersonales(
    email: string,
    sigem: bool,
    genero: string,
    telefono: string,
    rangoEdad: string,
    barrioId: Option<int>)

  /** The personal data the page starts with and returns to on reset. */
  const DatosIniciales := DatosPersonales("", false, "Masculino", "", "18-25", None)

  /** The ids of a list of questions. */
  function IdsDe(ps: seq<Pregunta>): set<int> {
    set i | 0 <= i < |ps| :: ps[i].id
  }

  /** No two questions share an id. */
  predicate IdsDistintos(ps: seq<Pregunta>) {
    forall i, j :: 0 <= i < j < |ps| ==> ps[i].id != ps[j].id
  }

  /** `todasLasPreguntasRespondidas`: as many answered questions as loaded ones. */
  predicate TodasRespondidas(e: Option<Encuesta>, m: Selecciones) {
    e.Some? && e.value.preguntas.Some? && |e.value.preguntas.value| == |m|
  }

  /** `datosPersonalesCompletos`: an email or a phone that is not blank, and a neighbourhood. */
  predicate DatosPersonalesCompletos(d: DatosPersonales) {
    (!EsBlanco(d.email) || !EsBlanco(d.telefono)) && d.barrioId.Some?
  }

  /** `formularioCompleto`. */
  predicate FormularioCompleto(d: DatosPersonales, e: Option<Encuesta>, m: Selecciones) {
    DatosPersonalesCompletos(d) && TodasRespondidas(e, m)
  }

  /** Has `s` a character that is not white space? */
  predicate TieneVisible(s: string) {
    exists i :: 0 <= i < |s| && !EsEspacio(s[i])
  }

  /** The personal data are complete iff email or phone holds a visible character and a neighbourhood is chosen. */
  lemma DatosPersonalesCompletosSii(d: DatosPersonales)
    ensures DatosPersonalesCompletos(d) <==> (TieneVisible(d.email) || TieneVisible(d.telefono)) && d.barrioId.Some?
  {
    EsBlancoSii(d.email);
    EsBlancoSii(d.telefono);
  }

  /** Nothing is complete right after a reset: no neighbourhood is chosen. */
  lemma ReinicioIncompleto(e: Option<Encuesta>)
    ensures !FormularioCompleto(DatosIniciales, e, map[])
  {
  }

  lemma {:induction false} CardinalIds(ps: seq<Pregunta>)
    requires IdsDistintos(ps)
    ensures |IdsDe(ps)| == |ps|
  {
    if ps != [] {
      var n := |ps| - 1;
      CardinalIds(ps[..n]);
      assert IdsDe(ps) == IdsDe(ps[..n]) + {ps[n].id};
      assert ps[n].id !in IdsDe(ps[..n]);
    }
  }

  lemma SubconjuntoDeIgualCardinal(a: set<int>, b: set<int>)
    requires a <= b && |a| == |b|
    ensures a == b
  {
    assert b == a + (b - a);
    assert |b| == |a| + |b - a|;
  }

  /**
   * When the chosen questions are among the loaded ones and ids are unique,
   * comparing the two sizes is the same as every loaded question having a choice.
   */
  lemma TodasRespondidasSii(e: Option<Encuesta>, m: Selecciones)
    requires e.Some? && e.value.preguntas.Some?
    requires IdsDistintos(e.value.preguntas.value)
    requires m.Keys <= IdsDe(e.value.preguntas.value)
    ensures TodasRespondidas(e, m) <==> forall i :: 0 <= i < |e.value.preguntas.value| ==> e.value.preguntas.value[i].id in m
  {
    var ps := e.value.preguntas.value;
    CardinalIds(ps);
    assert |m.Keys| == |m|;
    if TodasRespondidas(e, m) {
      SubconjuntoDeIgualCardinal(m.Keys, IdsDe(ps));
      forall i | 0 <= i < |ps| ensures ps[i].id in m {
        assert ps[i].id in IdsDe(ps);
      }
    }
    if forall i :: 0 <= i < |ps| ==> ps[i].id in m {
      assert IdsDe(ps) <= m.Keys;
      assert m.Keys == IdsDe(ps);
    }
  }

  /**
   * The whole form is complete iff the personal data are (a visible email or
   * phone character, and a neighbourhood) and every question is answered;
   * with distinct question ids and only their keys chosen, the latter means
   * every loaded question has an entry.
   */
  lemma FormularioCompletoSii(d: DatosPersonales, e: Option<Encuesta>, m: Selecciones)
    ensures FormularioCompleto(d, e, m) <==>
      (TieneVisible(d.email) || TieneVisible(d.telefono)) && d.barrioId.Some? && TodasRespondidas(e, m)
    ensures (e.Some? && e.value.preguntas.Some? && IdsDistintos(e.value.preguntas.value)
      && m.Keys <= IdsDe(e.value.preguntas.value)) ==>
      (FormularioCompleto(d, e, m) <==>
        (TieneVisible(d.email) || TieneVisible(d.telefono)) && d.barrioId.Some?
        && forall i :: 0 <= i < |e.value.preguntas.value| ==> e.value.preguntas.value[i].id in m)
  {
    DatosPersonalesCompletosSii(d);
    if e.Some? && e.value.preguntas.Some? && IdsDistintos(e.value.preguntas.value)
      && m.Keys <= IdsDe(e.value.preguntas.value) {
      TodasRespondidasSii(e, m);
    }
  }

  /** Without a loaded question list the answers are never complete. */
  lemma SinPreguntasNoRespondidas(e: Option<Encuesta>, m: Selecciones)
    requires e.None? || e.value.preguntas.None?
    ensures !TodasRespondidas(e, m)
  {
  }

  // ---------------------------------------------------------------------------
  // Clean-up of the loaded survey
  // ---------------------------------------------------------------------------

  /** An answer is shown when it is active and has a usable id. */
  predicate RespuestaMostrable(r: Respuesta) {
    r.activo && Definido(r.id)
  }

  /** A question with its answers reduced to the shown ones, sorted by `orden`. */
  function LimpiarRespuestas(p: Pregunta): (q: Pregunta)
    ensures q.id == p.id && q.orden == p.orden && q.activo == p.activo
    ensures q.multiplesRespuestas == p.multiplesRespuestas && q.descripcion == p.descripcion
    ensures q.respuestas.Some? <==> p.respuestas.Some?
    ensures p.respuestas.Some? ==>
      && multiset(q.respuestas.value) == multiset(Filtrar(p.respuestas.value, RespuestaMostrable))
      && Ordenada(q.respuestas.value, OrdenRespuesta)
  {
    match p.respuestas
    case None => p
    case Some(rs) =>
      var mostrables := Filtrar(rs, RespuestaMostrable);
      OrdenesSonPreordenes();
      OrdenarOrdena(mostrables, OrdenRespuesta);
      p.(respuestas := Some(Ordenar(mostrables, OrdenRespuesta)))
  }

  /** One pass of the loop of `ordenarPreguntasYRespuestas`: the question with its answers cleaned up. */
  method LimpiarPregunta(p: Pregunta) returns (q: Pregunta)
    ensures q == LimpiarRespuestas(p)
  {
    q := p;
    if p.respuestas.Some? {
      var rs := Filtrar(p.respuestas.value, RespuestaMostrable);
      rs := Ordenar(rs, OrdenRespuesta);
      q := p.(respuestas := Some(rs));
    }
  }

  /** `ordenarPreguntasYRespuestas` on a question list: active questions by `orden`, each cleaned up. */
  function PreguntasParaResponder(ps: seq<Pregunta>): seq<Pregunta> {
    Mapear(Ordenar(Filtrar(ps, PreguntaActiva), OrdenPregunta), LimpiarRespuestas)
  }

  /** `ordenarPreguntasYRespuestas` on the loaded survey; nothing happens without one. */
  function EncuestaParaResponder(e: Option<Encuesta>): Option<Encuesta> {
    if e.Some? && e.value.preguntas.Some? then
      Some(e.value.(preguntas := Some(PreguntasParaResponder(e.value.preguntas.value))))
    else e
  }

  /** After the clean-up the questions are the active ones of the input, each cleaned up, and only those. */
  lemma PreguntasParaResponderActivas(ps: seq<Pregunta>)
    ensures var q := PreguntasParaResponder(ps);
      && multiset(q) == multiset(Mapear(Filtrar(ps, PreguntaActiva), LimpiarRespuestas))
      && (forall i :: 0 <= i < |q| ==> q[i].activo)
  {
    var activas := Filtrar(ps, PreguntaActiva);
    var ordenadas := Ordenar(activas, OrdenPregunta);
    var q := PreguntasParaResponder(ps);
    MapearPermutacion(ordenadas, activas, LimpiarRespuestas);
    forall i | 0 <= i < |q| ensures q[i].activo {
      assert ordenadas[i] in multiset(activas);
      assert ordenadas[i] in activas;
      assert PreguntaActiva(ordenadas[i]);
      assert q[i] == LimpiarRespuestas(ordenadas[i]);
    }
  }

  /** After the clean-up the questions are in non-decreasing `orden`. */
  lemma PreguntasParaResponderOrdenadas(ps: seq<Pregunta>)
    ensures Ordenada(PreguntasParaResponder(ps), OrdenPregunta)
  {
    var ordenadas := Ordenar(Filtrar(ps, PreguntaActiva), OrdenPregunta);
    OrdenesSonPreordenes();
    OrdenarOrdena(Filtrar(ps, PreguntaActiva), OrdenPregunta);
    var q := PreguntasParaResponder(ps);
    forall i, j | 0 <= i < j < |q| ensures OrdenPregunta(q[i], q[j]) {
      assert OrdenPregunta(ordenadas[i], ordenadas[j]);
    }
  }

  /** After the clean-up each answer list holds only active answers with a usable id, in non-decreasing `orden`. */
  lemma PreguntasParaResponderRespuestas(ps: seq<Pregunta>, i: int)
    requires 0 <= i < |PreguntasParaResponder(ps)|
    requires PreguntasParaResponder(ps)[i].respuestas.Some?
    ensures var rs := PreguntasParaResponder(ps)[i].respuestas.value;
      && (forall j :: 0 <= j < |rs| ==> RespuestaMostrable(rs[j]))
      && Ordenada(rs, OrdenRespuesta)
  {
    var ordenadas := Ordenar(Filtrar(ps, PreguntaActiva), OrdenPregunta);
    var rs := PreguntasParaResponder(ps)[i].respuestas.value;
    forall j | 0 <= j < |rs| ensures RespuestaMostrable(rs[j]) {
      assert rs[j] in multiset(Filtrar(ordenadas[i].respuestas.value, RespuestaMostrable));
    }
  }

  // ---------------------------------------------------------------------------
  // Neighbourhood search
  // ---------------------------------------------------------------------------

  /** The normalised search text: lower-cased, then trimmed. */
  function Busqueda(texto: string): string {
    Recortar(Minusculas(texto))
  }

  /** Does the lower-cased name of `b` include `busqueda`? */
  predicate Coincide(busqueda: string, b: Barrio) {
    Contiene(Minusculas(b.descripcion), busqueda)
  }

  /** `filtrarBarrios`: every neighbourhood for a blank search, else those whose lower-cased name contains it. */
  function FiltroBarrios(barrios: seq<Barrio>, texto: string): (r: seq<Barrio>)
    ensures Busqueda(texto) == "" ==> r == barrios
    ensures forall b :: b in r <==> b in barrios && Coincide(Busqueda(texto), b)
  {
    var busqueda := Busqueda(texto);
    if busqueda == "" then
      assert forall b :: b in barrios ==> Coincide(busqueda, b) by {
        forall b | b in barrios ensures Coincide(busqueda, b) {
          ContieneTrivial(Minusculas(b.descripcion));
        }
      }
      barrios
    else
      var r := Filtrar(barrios, (b: Barrio) => Coincide(busqueda, b));
      assert forall b :: b in r <==> b in barrios && Coincide(busqueda, b);
      r
  }

  /** The search ignores the case of what is typed. */
  lemma FiltroBarriosSinMayusculas(barrios: seq<Barrio>, texto: string)
    ensures FiltroBarrios(barrios, Minusculas(texto)) == FiltroBarrios(barrios, texto)
  {
    MinusculasIdempotente(texto);
  }

  /** Searching keeps the neighbourhoods' relative order: the result for a concatenation is the concatenation of results. */
  lemma FiltroBarriosConcat(a: seq<Barrio>, b: seq<Barrio>, texto: string)
    ensures FiltroBarrios(a + b, texto) == FiltroBarrios(a, texto) + FiltroBarrios(b, texto)
  {
    var busqueda := Busqueda(texto);
    if busqueda != "" {
      FiltrarConcat(a, b, (x: Barrio) => Coincide(busqueda, x));
    }
  }

  /** A neighbourhood is found iff the search text occurs at some position of its lower-cased name. */
  lemma {:induction false} FiltroBarriosSii(barrios: seq<Barrio>, texto: string, b: Barrio)
    ensures b in FiltroBarrios(barrios, texto) <==>
      b in barrios && exists i :: OcurreEn(Minusculas(b.descripcion), Busqueda(texto), i)
  {
    ContieneSii(Minusculas(b.descripcion), Busqueda(texto));
    var r := FiltroBarrios(barrios, texto);
    assert b in r <==> b in barrios && Coincide(Busqueda(texto), b);
    assert b in r ==> b in barrios;
    assert b in r ==> exists i :: OcurreEn(Minusculas(b.descripcion), Busqueda(texto), i);
    assert (b in barrios && exists i :: OcurreEn(Minusculas(b.descripcion), Busqueda(texto), i)) ==> b in r;
  }

  // ---------------------------------------------------------------------------
  // The page's state
  // ---------------------------------------------------------------------------

  class EncuestaComponente {
    var encuesta: Option<Encuesta>
    var respuestasSeleccionadas: Selecciones
    var enviando: bool
    var encuestaCompletada: bool
    var cargandoEncuesta: bool
    var datosPersonales: DatosPersonales
    var barrios: seq<Barrio>
    var barriosFiltrados: seq<Barrio>
    var busquedaBarrio: string
    var showDropdownBarrios: bool

    ghost predicate Valid()
      reads this
    {
      SinVacios(respuestasSeleccionadas)
    }

    constructor ()
      ensures Valid()
      ensures encuesta == None && respuestasSeleccionadas == map[]
      ensures !enviando && !encuestaCompletada && cargandoEncuesta
      ensures datosPersonales == DatosIniciales
      ensures barrios == [] && barriosFiltrados == [] && busquedaBarrio == "" && !showDropdownBarrios
    {
      encuesta := None;
      respuestasSeleccionadas := map[];
      enviando, encuestaCompletada, cargandoEncuesta := false, false, true;
      datosPersonales := DatosIniciales;
      barrios, barriosFiltrados := [], [];
      busquedaBarrio := "";
      showDropdownBarrios := false;
    }

    /** `seleccionarRespuesta`, step by step on the map as the page does it. */
    method SeleccionarRespuesta(preguntaId: Numero, respuestaId: Numero, multiples: bool)
      requires Valid()
      modifies this`respuestasSeleccionadas
      ensures Valid()
      ensures respuestasSeleccionadas == Seleccionar(old(respuestasSeleccionadas), preguntaId, respuestaId, multiples)
    {
      SeleccionConservaSinVacios(respuestasSeleccionadas, preguntaId, respuestaId, multiples);
      if !Verdadero(preguntaId) || !Verdadero(respuestaId) {
        return;
      }
      var p, r := preguntaId.valor, respuestaId.valor;
      if multiples {
        if p !in respuestasSeleccionadas {
          respuestasSeleccionadas := respuestasSeleccionadas[p := {}];
        }
        var respuestas := respuestasSeleccionadas[p];
        if r in respuestas {
          respuestas := respuestas - {r};
          respuestasSeleccionadas := respuestasSeleccionadas[p := respuestas];
          if |respuestas| == 0 {
            respuestasSeleccionadas := respuestasSeleccionadas - {p};
          }
        } else {
          respuestasSeleccionadas := respuestasSeleccionadas[p := respuestas + {r}];
        }
      } else {
        respuestasSeleccionadas := respuestasSeleccionadas[p := {r}];
      }
    }

    /** `ordenarPreguntasYRespuestas`: filter and sort the questions, then clean up each one in a loop. */
    method OrdenarPreguntasYRespuestas()
      modifies this`encuesta
      ensures encuesta == EncuestaParaResponder(old(encuesta))
    {
      if encuesta.Some? && encuesta.value.preguntas.Some? {
        var e := encuesta.value;
        var ps := Filtrar(e.preguntas.value, PreguntaActiva);
        ps := Ordenar(ps, OrdenPregunta);
        ghost var ordenadas := ps;
        var i := 0;
        while i < |ps|
          invariant 0 <= i <= |ps| == |ordenadas|
          invariant forall k :: 0 <= k < i ==> ps[k] == LimpiarRespuestas(ordenadas[k])
          invariant forall k :: i <= k < |ps| ==> ps[k] == ordenadas[k]
        {
          var limpia := LimpiarPregunta(ps[i]);
          ps := ps[i := limpia];
          i := i + 1;
        }
        assert ps == Mapear(ordenadas, LimpiarRespuestas);
        encuesta := Some(e.(preguntas := Some(ps)));
      }
    }

    /** `reiniciarEncuesta`: clear the choices and personal data and show every neighbourhood again. */
    method ReiniciarEncuesta()
      modifies this
      ensures Valid()
      ensures respuestasSeleccionadas == map[] && !encuestaCompletada
      ensures datosPersonales == DatosIniciales
      ensures busquedaBarrio == "" && barriosFiltrados == barrios && !showDropdownBarrios
      ensures encuesta == old(encuesta) && barrios == old(barrios)
      ensures enviando == old(enviando) && cargandoEncuesta == old(cargandoEncuesta)
    {
      respuestasSeleccionadas := map[];
      encuestaCompletada := false;
      datosPersonales := DatosIniciales;
      busquedaBarrio := "";
      barriosFiltrados := barrios;
      showDropdownBarrios := false;
    }

    /** `filtrarBarrios`. */
    method FiltrarBarrios()
      modifies this`barriosFiltrados
      ensures barriosFiltrados == FiltroBarrios(barrios, busquedaBarrio)
    {
      barriosFiltrados := FiltroBarrios(barrios, busquedaBarrio);
    }

    /** `seleccionarBarrio`: record the neighbourhood, show its name in the box and close the list. */
    method SeleccionarBarrio(barrio: Barrio)
      modifies this`datosPersonales, this`busquedaBarrio, this`showDropdownBarrios
      ensures datosPersonales == old(datosPersonales).(barrioId := Some(barrio.id))
      ensures busquedaBarrio == barrio.descripcion && !showDropdownBarrios
    {
      datosPersonales := datosPersonales.(barrioId := Some(barrio.id));
      busquedaBarrio := barrio.descripcion;
      showDropdownBarrios := false;
    }
  }
}
