/**
 * The survey-details page of the administration: the question list filter,
 * the in-place sort by `orden`, the users that may still be assigned, and the
 * drag-and-drop reordering, which the server performs one position at a time.
 */
module DetallesEncuestas {
  import opened Comun
  import opened Secuencias
  import opened Modelo

  // ---------------------------------------------------------------------------
  // Question filter and counts
  // ---------------------------------------------------------------------------

  /** A filter text that is neither 'all' nor 'true'. */
  type OtroValor = s: string | s != "all" && s != "true" witness "false"

  /** The value of `filtroActivo`: 'all', 'true', or anything else (the page uses 'false'). */
  datatype FiltroActivo = Todas | Activas | Otro(valor: OtroValor)

  /** `preguntasFiltradas`. */
  function PreguntasFiltradas(e: Option<Encuesta>, filtro: FiltroActivo): (r: seq<Pregunta>)
    ensures e.None? || e.value.preguntas.None? ==> r == []
    ensures e.Some? && e.value.preguntas.Some? && filtro.Todas? ==> r == e.value.preguntas.value
    ensures e.Some? && e.value.preguntas.Some? && filtro.Activas? ==>
      forall p :: p in r <==> p in e.value.preguntas.value && p.activo
    ensures e.Some? && e.value.preguntas.Some? && filtro.Otro? ==>
      forall p :: p in r <==> p in e.value.preguntas.value && !p.activo
  {
    if e.None? || e.value.preguntas.None? then []
    else
      var ps := e.value.preguntas.value;
      match filtro
      case Todas => ps
      case Activas => Filtrar(ps, PreguntaActiva)
      case Otro(_) => Filtrar(ps, PreguntaInactiva)
  }

  /** `cantidadPreguntasActivas`. */
  function CantidadActivas(e: Option<Encuesta>): nat {
    if e.None? || e.value.preguntas.None? then 0 else |Filtrar(e.value.preguntas.value, PreguntaActiva)|
  }

  /** `cantidadPreguntasInactivas`. */
  function CantidadInactivas(e: Option<Encuesta>): nat {
    if e.None? || e.value.preguntas.None? then 0 else |Filtrar(e.value.preguntas.value, PreguntaInactiva)|
  }

  /** The active and inactive counts add up to the number of questions; each is the length of its filtered list. */
  lemma CantidadesSuman(e: Option<Encuesta>)
    requires e.Some? && e.value.preguntas.Some?
    ensures CantidadActivas(e) + CantidadInactivas(e) == |e.value.preguntas.value|
    ensures CantidadActivas(e) == |PreguntasFiltradas(e, Activas)|
    ensures forall v :: CantidadInactivas(e) == |PreguntasFiltradas(e, Otro(v))|
  {
    FiltrarParticion(e.value.preguntas.value, PreguntaActiva, PreguntaInactiva);
  }

  // ---------------------------------------------------------------------------
  // Sort by `orden`
  // ---------------------------------------------------------------------------

  /** A question with its answers, if any, sorted by `orden`. */
  function OrdenarRespuestas(p: Pregunta): (q: Pregunta)
    ensures q.id == p.id && q.orden == p.orden && q.activo == p.activo
    ensures q.multiplesRespuestas == p.multiplesRespuestas && q.descripcion == p.descripcion
    ensures q.respuestas.Some? <==> p.respuestas.Some?
    ensures p.respuestas.Some? ==>
      && multiset(q.respuestas.value) == multiset(p.respuestas.value)
      && Ordenada(q.respuestas.value, OrdenRespuesta)
  {
    match p.respuestas
    case None => p
    case Some(rs) =>
      OrdenesSonPreordenes();
      OrdenarOrdena(rs, OrdenRespuesta);
      p.(respuestas := Some(Ordenar(rs, OrdenRespuesta)))
  }

  /** `ordenarPreguntas` on a question list. */
  function PreguntasOrdenadas(ps: seq<Pregunta>): seq<Pregunta> {
    Mapear(Ordenar(ps, OrdenPregunta), OrdenarRespuestas)
  }

  /** One pass of the loop of `ordenarPreguntas`: the question's answers, if loaded, sorted in place. */
  method OrdenarRespuestasDe(p: Pregunta) returns (q: Pregunta)
    ensures q == OrdenarRespuestas(p)
  {
    q := p;
    if p.respuestas.Some? {
      q := p.(respuestas := Some(Ordenar(p.respuestas.value, OrdenRespuesta)));
    }
  }

  /** `ordenarPreguntas` on the loaded survey; nothing happens without one. */
  function EncuestaOrdenada(e: Option<Encuesta>): Option<Encuesta> {
    if e.Some? && e.value.preguntas.Some? then
      Some(e.value.(preguntas := Some(PreguntasOrdenadas(e.value.preguntas.value))))
    else e
  }

  /**
   * The sorted list is a permutation of the questions (each with its answers
   * sorted), in non-decreasing `orden`.
   */
  lemma PreguntasOrdenadasCorrecto(ps: seq<Pregunta>)
    ensures var q := PreguntasOrdenadas(ps);
      && multiset(q) == multiset(Mapear(ps, OrdenarRespuestas))
      && Ordenada(q, OrdenPregunta)
  {
    var ordenadas := Ordenar(ps, OrdenPregunta);
    var q := PreguntasOrdenadas(ps);
    MapearPermutacion(ordenadas, ps, OrdenarRespuestas);
    OrdenesSonPreordenes();
    OrdenarOrdena(ps, OrdenPregunta);
    forall i, j | 0 <= i < j < |q| ensures OrdenPregunta(q[i], q[j]) {
      assert OrdenPregunta(ordenadas[i], ordenadas[j]);
    }
  }

  // ---------------------------------------------------------------------------
  // Users that may be assigned
  // ---------------------------------------------------------------------------

  /** An entry of `usuariosAsignados`: the assignment row with its user. */
  datatype Asignacion = Asignacion(usuario: Usuario)

  /** The user ids of the survey's assignments, in order. */
  function IdsAsignados(asignados: seq<Asignacion>): seq<int> {
    Mapear(asignados, (a: Asignacion) => a.usuario.id)
  }

  /** `cargarUsuariosDisponibles`: the active users not yet assigned, in the server's order. */
  function UsuariosDisponibles(usuarios: seq<Usuario>, asignados: seq<Asignacion>): (r: seq<Usuario>)
    ensures forall u :: u in r <==>
      u in usuarios && u.activo && forall k :: 0 <= k < |asignados| ==> asignados[k].usuario.id != u.id
  {
    var ids := IdsAsignados(asignados);
    var r := Filtrar(usuarios, (u: Usuario) => u.id !in ids && u.activo);
    assert forall x: int :: x in ids <==> exists k :: 0 <= k < |asignados| && asignados[k].usuario.id == x by {
      forall x: int ensures x in ids <==> exists k :: 0 <= k < |asignados| && asignados[k].usuario.id == x {
        if x in ids {
          var k :| 0 <= k < |ids| && ids[k] == x;
          assert asignados[k].usuario.id == x;
        }
        if exists k :: 0 <= k < |asignados| && asignados[k].usuario.id == x {
          var k :| 0 <= k < |asignados| && asignados[k].usuario.id == x;
          assert ids[k] == x;
        }
      }
    }
    r
  }

  // ---------------------------------------------------------------------------
  // Drag and drop
  // ---------------------------------------------------------------------------

  /** The two directions of a one-position move. */
  datatype Direccion = Arriba | Abajo

  /** What is being moved: a question or an answer; each has its own endpoint. */
  datatype Elemento = DePregunta | DeRespuesta

  /**
   * One call to the server's single-step reorder endpoint. The id is sent as
   * it is, so an answer's id may be missing or not a number.
   */
  datatype Solicitud = Solicitud(elemento: Elemento, id: Numero, direccion: Direccion)

  /** 'arriba' when the target position is before the source one, else 'abajo'. */
  function DireccionDe(ordenOrigen: int, ordenDestino: int): (d: Direccion)
    ensures d == Arriba <==> ordenDestino < ordenOrigen
  {
    if ordenDestino < ordenOrigen then Arriba else Abajo
  }

  /** The distance between the two `orden` values. */
  function Pasos(ordenOrigen: int, ordenDestino: int): nat {
    if ordenDestino < ordenOrigen then ordenOrigen - ordenDestino else ordenDestino - ordenOrigen
  }

  /** Where `n` one-position moves in direction `d` take an element from position `orden`. */
  function Desplazar(orden: int, d: Direccion, n: nat): int {
    match d
    case Arriba => orden - n
    case Abajo => orden + n
  }

  /** `Pasos` moves in direction `DireccionDe` take the dragged element exactly to its target position. */
  lemma MovimientoLlegaAlDestino(ordenOrigen: int, ordenDestino: int)
    ensures Desplazar(ordenOrigen, DireccionDe(ordenOrigen, ordenDestino), Pasos(ordenOrigen, ordenDestino)) == ordenDestino
  {
  }

  /** The number of leading successful answers of the server. */
  function PrefijoExitoso(servidor: seq<bool>): (n: nat)
    ensures n <= |servidor|
    ensures forall j :: 0 <= j < n ==> servidor[j]
    ensures n == |servidor| || !servidor[n]
  {
    if servidor == [] || !servidor[0] then 0 else 1 + PrefijoExitoso(servidor[1..])
  }

  /** When the first `m` answers are all successes, the successful prefix is at least `m` long. */
  lemma {:induction false} PrefijoCompleto(servidor: seq<bool>, m: nat)
    requires m <= |servidor|
    requires forall k :: 0 <= k < m ==> servidor[k]
    ensures PrefijoExitoso(servidor) >= m
  {
    if m > 0 {
      assert servidor[0];
      PrefijoCompleto(servidor[1..], m - 1);
    }
  }

  /**
   * `ejecutarReordenamientoPreguntas` / `ejecutarReordenamientoRespuestas`,
   * started at step 0. `servidor[k]` is the outcome of the request sent at
   * step `k` (true: it succeeded); a step with no outcome in `servidor` is a
   * request whose reply never arrives. Returns the requests sent in order and
   * the number of times the survey is fetched again.
   */
  method EjecutarReordenamiento(elemento: Elemento, id: Numero, direccion: Direccion, stepsTotal: nat, servidor: seq<bool>)
    returns (solicitudes: seq<Solicitud>, recargas: nat)
    ensures forall k :: 0 <= k < |solicitudes| ==> solicitudes[k] == Solicitud(elemento, id, direccion)
    ensures PrefijoExitoso(servidor) >= stepsTotal ==> |solicitudes| == stepsTotal && recargas == 1
    ensures PrefijoExitoso(servidor) < stepsTotal ==>
      |solicitudes| == PrefijoExitoso(servidor) + 1 && recargas == 0
    ensures stepsTotal == 0 ==> solicitudes == [] && recargas == 1
    ensures stepsTotal <= |servidor| && (forall k :: 0 <= k < stepsTotal ==> servidor[k]) ==>
      |solicitudes| == stepsTotal && recargas == 1
    ensures forall k :: 0 <= k < stepsTotal && k < |servidor| && !servidor[k] && (forall j :: 0 <= j < k ==> servidor[j]) ==>
      |solicitudes| == k + 1 && recargas == 0
  {
    solicitudes, recargas := [], 0;
    var pasoActual := 0;
    var seguir := true;
    while seguir
      invariant 0 <= pasoActual <= PrefijoExitoso(servidor)
      invariant pasoActual <= stepsTotal
      invariant forall k :: 0 <= k < |solicitudes| ==> solicitudes[k] == Solicitud(elemento, id, direccion)
      invariant seguir ==> |solicitudes| == pasoActual && recargas == 0
      invariant !seguir && recargas == 1 ==> pasoActual >= stepsTotal && |solicitudes| == pasoActual
      invariant !seguir && recargas == 0 ==>
        pasoActual == PrefijoExitoso(servidor) < stepsTotal && |solicitudes| == pasoActual + 1
      invariant recargas <= 1
      decreases (if seguir then 1 else 0) + (if pasoActual < stepsTotal then stepsTotal - pasoActual else 0)
    {
      if pasoActual >= stepsTotal {
        // the chain is complete: fetch the survey again
        recargas := recargas + 1;
        seguir := false;
      } else {
        solicitudes := solicitudes + [Solicitud(elemento, id, direccion)];
        if pasoActual < |servidor| && servidor[pasoActual] {
          pasoActual := pasoActual + 1;
        } else {
          seguir := false;
        }
      }
    }
    forall k | 0 <= k < stepsTotal && k < |servidor| && !servidor[k] && (forall j :: 0 <= j < k ==> servidor[j])
      ensures PrefijoExitoso(servidor) == k
    {
    }
    if stepsTotal <= |servidor| && forall k :: 0 <= k < stepsTotal ==> servidor[k] {
      PrefijoCompleto(servidor, stepsTotal);
    }
  }

  /**
   * `dropPregunta` / `dropRespuesta`: `lista` is the list the drag happened
   * in (`preguntasFiltradas`, or the question's `Respuestas`), given by the
   * ids and `orden`s of its elements.
   */
  method Soltar(elemento: Elemento, ids: seq<Numero>, ordenes: seq<int>, indiceAnterior: int, indiceActual: int, servidor: seq<bool>)
    returns (solicitudes: seq<Solicitud>, recargas: nat)
    requires |ids| == |ordenes|
    requires indiceAnterior != indiceActual ==> 0 <= indiceAnterior < |ids| && 0 <= indiceActual < |ids|
    ensures indiceAnterior == indiceActual ==> solicitudes == [] && recargas == 0
    ensures indiceAnterior != indiceActual ==>
      var origen, destino := ordenes[indiceAnterior], ordenes[indiceActual];
      var pasos := Pasos(origen, destino);
      && (forall k :: 0 <= k < |solicitudes| ==>
            solicitudes[k] == Solicitud(elemento, ids[indiceAnterior], DireccionDe(origen, destino)))
      && (PrefijoExitoso(servidor) >= pasos ==> |solicitudes| == pasos && recargas == 1)
      && (PrefijoExitoso(servidor) < pasos ==> |solicitudes| == PrefijoExitoso(servidor) + 1 && recargas == 0)
  {
    if indiceAnterior == indiceActual {
      return [], 0;
    }
    var ordenOrigen := ordenes[indiceAnterior];
    var ordenDestino := ordenes[indiceActual];
    var direccion := DireccionDe(ordenOrigen, ordenDestino);
    var pasos := Pasos(ordenOrigen, ordenDestino);
    solicitudes, recargas := EjecutarReordenamiento(elemento, ids[indiceAnterior], direccion, pasos, servidor);
  }

  /** The page's loaded survey, which `ordenarPreguntas` sorts in place. */
  class DetallesEncuestasComponente {
    var encuesta: Option<Encuesta>
    var filtroActivo: FiltroActivo

    constructor ()
      ensures encuesta == None && filtroActivo == Todas
    {
      encuesta := None;
      filtroActivo := Todas;
    }

    /** `ordenarPreguntas`: sort the questions, then each question's answers, in a loop. */
    method OrdenarPreguntas()
      modifies this`encuesta
      ensures encuesta == EncuestaOrdenada(old(encuesta))
    {
      if encuesta.Some? && encuesta.value.preguntas.Some? {
        var e := encuesta.value;
        var ps := Ordenar(e.preguntas.value, OrdenPregunta);
        ghost var ordenadas := ps;
        var i := 0;
        while i < |ps|
          invariant 0 <= i <= |ps| == |ordenadas|
          invariant forall k :: 0 <= k < i ==> ps[k] == OrdenarRespuestas(ordenadas[k])
          invariant forall k :: i <= k < |ps| ==> ps[k] == ordenadas[k]
        {
          var ordenada := OrdenarRespuestasDe(ps[i]);
          ps := ps[i := ordenada];
          i := i + 1;
        }
        assert ps == Mapear(ordenadas, OrdenarRespuestas);
        encuesta := Some(e.(preguntas := Some(ps)));
      }
    }

    /** `dropPregunta`: the indices refer to `preguntasFiltradas` under the current filter. */
    method DropPregunta(indiceAnterior: int, indiceActual: int, servidor: seq<bool>)
      returns (solicitudes: seq<Solicitud>, recargas: nat)
      requires indiceAnterior != indiceActual ==>
        0 <= indiceAnterior < |PreguntasFiltradas(encuesta, filtroActivo)| &&
        0 <= indiceActual < |PreguntasFiltradas(encuesta, filtroActivo)|
      ensures indiceAnterior == indiceActual ==> solicitudes == [] && recargas == 0
      ensures indiceAnterior != indiceActual ==>
        var lista := PreguntasFiltradas(encuesta, filtroActivo);
        var origen, destino := lista[indiceAnterior].orden, lista[indiceActual].orden;
        && (forall k :: 0 <= k < |solicitudes| ==>
              solicitudes[k] == Solicitud(DePregunta, Num(lista[indiceAnterior].id), DireccionDe(origen, destino)))
        && (PrefijoExitoso(servidor) >= Pasos(origen, destino) ==> |solicitudes| == Pasos(origen, destino) && recargas == 1)
        && (PrefijoExitoso(servidor) < Pasos(origen, destino) ==> |solicitudes| == PrefijoExitoso(servidor) + 1 && recargas == 0)
    {
      var lista := PreguntasFiltradas(encuesta, filtroActivo);
      solicitudes, recargas := Soltar(DePregunta, Mapear(lista, (p: Pregunta) => Num(p.id)),
        Mapear(lista, (p: Pregunta) => p.orden), indiceAnterior, indiceActual, servidor);
    }

    /** `dropRespuesta`: the indices refer to the question's own `Respuestas` list. */
    method DropRespuesta(indiceAnterior: int, indiceActual: int, pregunta: Pregunta, servidor: seq<bool>)
      returns (solicitudes: seq<Solicitud>, recargas: nat)
      requires indiceAnterior != indiceActual ==>
        pregunta.respuestas.Some? &&
        0 <= indiceAnterior < |pregunta.respuestas.value| && 0 <= indiceActual < |pregunta.respuestas.value|
      ensures indiceAnterior == indiceActual ==> solicitudes == [] && recargas == 0
      ensures indiceAnterior != indiceActual ==>
        var lista := pregunta.respuestas.value;
        var origen, destino := lista[indiceAnterior].orden, lista[indiceActual].orden;
        && (forall k :: 0 <= k < |solicitudes| ==>
              solicitudes[k] == Solicitud(DeRespuesta, lista[indiceAnterior].id, DireccionDe(origen, destino)))
        && (PrefijoExitoso(servidor) >= Pasos(origen, destino) ==> |solicitudes| == Pasos(origen, destino) && recargas == 1)
        && (PrefijoExitoso(servidor) < Pasos(origen, destino) ==> |solicitudes| == PrefijoExitoso(servidor) + 1 && recargas == 0)
    {
      if indiceAnterior == indiceActual {
        return [], 0;
      }
      var lista := pregunta.respuestas.value;
      solicitudes, recargas := Soltar(DeRespuesta, Mapear(lista, (r: Respuesta) => r.id),
        Mapear(lista, (r: Respuesta) => r.orden), indiceAnterior, indiceActual, servidor);
    }
  }
}
