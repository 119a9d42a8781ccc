/**
 * The page listing the answers of a survey grouped by question: the window
 * of page numbers of its paginator, page navigation, the filters and the set
 * of expanded answers.
 */
module PreguntasRespondidas {
  import opened Comun

  /** The most page numbers the paginator shows. */
  const MaxPaginas: int := 5

  function Max(a: int, b: int): int {
    if a >= b then a else b
  }

  function Min(a: int, b: int): int {
    if a <= b then a else b
  }

  /**
   * The `paginasVisibles` getter for the current page and the number of pages:
   * a window of at most five consecutive pages, centred on the current one
   * when there is room and slid back so as to stay full near the last page.
   */
  method PaginasVisibles(paginaActual: int, totalPaginas: int) returns (paginas: seq<int>)
    ensures |paginas| == Min(MaxPaginas, Max(totalPaginas, 0))
    ensures forall i :: 0 <= i < |paginas| ==> paginas[i] == paginas[0] + i
    ensures forall i :: 0 <= i < |paginas| ==> 1 <= paginas[i] <= totalPaginas
    ensures 1 <= paginaActual <= totalPaginas ==> paginaActual in paginas
  {
    var inicio := Max(1, paginaActual - MaxPaginas / 2);
    var fin := Min(totalPaginas, inicio + MaxPaginas - 1);
    if fin - inicio < MaxPaginas - 1 {
      inicio := Max(1, fin - MaxPaginas + 1);
    }
    paginas := [];
    var i := inicio;
    while i <= fin
      invariant inicio <= i <= Max(inicio, fin + 1)
      invariant |paginas| == i - inicio
      invariant forall k :: 0 <= k < |paginas| ==> paginas[k] == inicio + k
    {
      paginas := paginas + [i];
      i := i + 1;
    }
    if 1 <= paginaActual <= totalPaginas {
      assert paginas[paginaActual - inicio] == paginaActual;
    }
  }

  /** Removes `id` from the set when present and adds it otherwise. */
  function Alternar(s: set<int>, id: int): (r: set<int>)
    ensures id in r <==> id !in s
    ensures forall x :: x != id ==> (x in r <==> x in s)
  {
    if id in s then s - {id} else s + {id}
  }

  /** Toggling the same id twice gives back the set. */
  lemma AlternarDosVeces(s: set<int>, id: int)
    ensures Alternar(Alternar(s, id), id) == s
  {
  }

  /**
   * The request `cargarRespuestas` sends for the current page: its number and
   * size, and each filter only when its selection is truthy, so a zero
   * enumerator id and an empty gender or date go as absent; the SIGEM flag
   * goes whenever one is selected, false included.
   */
  datatype ConsultaRespuestas = ConsultaRespuestas(
    pagina: int, itemsPorPagina: int, creatorUserId: Option<int>, genero: Option<string>,
    sigem: Option<bool>, fechaInicio: Option<string>, fechaFin: Option<string>)

  /**
   * The reply to that request: none yet, a page with the totals it reports,
   * or an API error with its message.
   */
  datatype RespuestaAgrupadas = Pendiente | Recibida(total: int, totalPaginas: int) | Fallida(mensaje: string)

  /** The part of the page a reply changes: the loading flag, the totals and the error alerts shown. */
  datatype Carga = Carga(cargando: bool, total: int, totalPaginas: int, avisos: seq<string>)

  /**
   * The page after a request with reply `r`: it stays loading while `r` is
   * pending; a page stops loading and takes the totals it carries; an API
   * error stops loading and shows its message, keeping the old totals.
   */
  function TrasRespuesta(c: Carga, r: RespuestaAgrupadas): (d: Carga)
    ensures d.cargando <==> r.Pendiente?
    ensures r.Recibida? ==> d.total == r.total && d.totalPaginas == r.totalPaginas
    ensures !r.Recibida? ==> d.total == c.total && d.totalPaginas == c.totalPaginas
    ensures d.avisos == c.avisos + (if r.Fallida? then [r.mensaje] else [])
  {
    match r
    case Pendiente => c.(cargando := true)
    case Recibida(total, totalPaginas) => c.(cargando := false, total := total, totalPaginas := totalPaginas)
    case Fallida(mensaje) => c.(cargando := false, avisos := c.avisos + [mensaje])
  }

  /**
   * The page's state. `solicitudes` holds the requests `cargarRespuestas`
   * sent and `avisos` the API errors shown; the grouped rows of a reply are
   * only displayed and are not stored.
   */
  class PreguntasRespondidasComponente {
    var paginaActual: int
    var itemsPorPagina: int
    var total: int
    var totalPaginas: int
    var encuestadorSeleccionado: Option<int>
    var generoSeleccionado: Option<string>
    var sigemSeleccionado: Option<bool>
    var fechaInicio: string
    var fechaFin: string
    var respuestasExpandidas: set<int>
    var cargando: bool
    var solicitudes: seq<ConsultaRespuestas>
    var avisos: seq<string>

    constructor()
      ensures paginaActual == 1 && itemsPorPagina == 10 && total == 0 && totalPaginas == 0
      ensures encuestadorSeleccionado == None && generoSeleccionado == None && sigemSeleccionado == None
      ensures fechaInicio == "" && fechaFin == ""
      ensures respuestasExpandidas == {} && !cargando && solicitudes == [] && avisos == []
    {
      paginaActual := 1;
      itemsPorPagina := 10;
      total := 0;
      totalPaginas := 0;
      encuestadorSeleccionado := None;
      generoSeleccionado := None;
      sigemSeleccionado := None;
      fechaInicio := "";
      fechaFin := "";
      respuestasExpandidas := {};
      cargando := false;
      solicitudes := [];
      avisos := [];
    }

    /** The `hayFiltrosActivos` getter. */
    predicate HayFiltrosActivos()
      reads this
    {
      encuestadorSeleccionado.Some? || generoSeleccionado.Some? || sigemSeleccionado.Some?
      || fechaInicio != "" || fechaFin != ""
    }

    /** The state a reply changes. */
    function EstadoCarga(): Carga
      reads this
    {
      Carga(cargando, total, totalPaginas, avisos)
    }

    /**
     * The request sent in the current state: a filter goes exactly when its
     * selection is truthy, and then with the selected value.
     */
    function ConsultaActual(): (c: ConsultaRespuestas)
      reads this
      ensures c.pagina == paginaActual && c.itemsPorPagina == itemsPorPagina && c.sigem == sigemSeleccionado
      ensures c.creatorUserId.Some? <==> EnteroVerdadero(encuestadorSeleccionado)
      ensures c.creatorUserId.Some? ==> c.creatorUserId == encuestadorSeleccionado
      ensures c.genero.Some? <==> TextoVerdadero(generoSeleccionado)
      ensures c.genero.Some? ==> c.genero == generoSeleccionado
      ensures c.fechaInicio.Some? <==> fechaInicio != ""
      ensures c.fechaInicio.Some? ==> c.fechaInicio.value == fechaInicio
      ensures c.fechaFin.Some? <==> fechaFin != ""
      ensures c.fechaFin.Some? ==> c.fechaFin.value == fechaFin
    {
      ConsultaRespuestas(
        paginaActual, itemsPorPagina,
        if EnteroVerdadero(encuestadorSeleccionado) then encuestadorSeleccionado else None,
        if TextoVerdadero(generoSeleccionado) then generoSeleccionado else None,
        sigemSeleccionado,
        if fechaInicio != "" then Some(fechaInicio) else None,
        if fechaFin != "" then Some(fechaFin) else None)
    }

    /**
     * `cargarRespuestas`: marks the page as loading and sends the request for
     * the current page and filters; `respuesta` is its reply.
     */
    method CargarRespuestas(respuesta: RespuestaAgrupadas)
      modifies this`cargando, this`solicitudes, this`total, this`totalPaginas, this`avisos
      ensures solicitudes == old(solicitudes) + [ConsultaActual()]
      ensures EstadoCarga() == TrasRespuesta(old(EstadoCarga()), respuesta)
    {
      cargando := true;
      solicitudes := solicitudes + [ConsultaActual()];
      match respuesta {
        case Pendiente =>
        case Recibida(t, tp) =>
          total := t;
          totalPaginas := tp;
          cargando := false;
        case Fallida(mensaje) =>
          avisos := avisos + [mensaje];
          cargando := false;
      }
    }

    /** `aplicarFiltros`: back to the first page and reload. */
    method AplicarFiltros(respuesta: RespuestaAgrupadas)
      modifies this`paginaActual, this`cargando, this`solicitudes, this`total, this`totalPaginas, this`avisos
      ensures paginaActual == 1
      ensures solicitudes == old(solicitudes) + [ConsultaActual()]
      ensures EstadoCarga() == TrasRespuesta(old(EstadoCarga()), respuesta)
    {
      paginaActual := 1;
      CargarRespuestas(respuesta);
    }

    /** `cambiarItemsPorPagina`, once the new page size is bound: back to the first page and reload. */
    method CambiarItemsPorPagina(respuesta: RespuestaAgrupadas)
      modifies this`paginaActual, this`cargando, this`solicitudes, this`total, this`totalPaginas, this`avisos
      ensures paginaActual == 1
      ensures solicitudes == old(solicitudes) + [ConsultaActual()]
      ensures EstadoCarga() == TrasRespuesta(old(EstadoCarga()), respuesta)
    {
      paginaActual := 1;
      CargarRespuestas(respuesta);
    }

    /**
     * `limpiarFiltros`: no filter remains active, and the first page is
     * reloaded with a request that carries no filter at all.
     */
    method LimpiarFiltros(respuesta: RespuestaAgrupadas)
      modifies this`encuestadorSeleccionado, this`generoSeleccionado, this`sigemSeleccionado, this`fechaInicio,
        this`fechaFin, this`paginaActual, this`cargando, this`solicitudes, this`total, this`totalPaginas, this`avisos
      ensures !HayFiltrosActivos()
      ensures paginaActual == 1 && itemsPorPagina == old(itemsPorPagina)
      ensures solicitudes == old(solicitudes) + [ConsultaRespuestas(1, old(itemsPorPagina), None, None, None, None, None)]
      ensures EstadoCarga() == TrasRespuesta(old(EstadoCarga()), respuesta)
    {
      encuestadorSeleccionado := None;
      generoSeleccionado := None;
      sigemSeleccionado := None;
      fechaInicio := "";
      fechaFin := "";
      paginaActual := 1;
      CargarRespuestas(respuesta);
    }

    /**
     * `irAPagina(pagina)`: a page outside 1..totalPaginas, or the current one,
     * changes nothing and sends nothing; any other page becomes current and is loaded.
     */
    method IrAPagina(pagina: int, respuesta: RespuestaAgrupadas)
      modifies this`paginaActual, this`cargando, this`solicitudes, this`total, this`totalPaginas, this`avisos
      ensures pagina < 1 || pagina > old(totalPaginas) || pagina == old(paginaActual) ==>
        paginaActual == old(paginaActual) && solicitudes == old(solicitudes) && EstadoCarga() == old(EstadoCarga())
      ensures !(pagina < 1 || pagina > old(totalPaginas) || pagina == old(paginaActual)) ==>
        paginaActual == pagina && solicitudes == old(solicitudes) + [ConsultaActual()]
        && EstadoCarga() == TrasRespuesta(old(EstadoCarga()), respuesta)
    {
      if pagina < 1 || pagina > totalPaginas || pagina == paginaActual {
        return;
      }
      paginaActual := pagina;
      CargarRespuestas(respuesta);
    }

    /** `toggleExpansion(id)`. */
    method ToggleExpansion(id: int)
      modifies this`respuestasExpandidas
      ensures respuestasExpandidas == Alternar(old(respuestasExpandidas), id)
    {
      if id in respuestasExpandidas {
        respuestasExpandidas := respuestasExpandidas - {id};
      } else {
        respuestasExpandidas := respuestasExpandidas + {id};
      }
    }

    /** `estaExpandida(id)`. */
    predicate EstaExpandida(id: int)
      reads this
    {
      id in respuestasExpandidas
    }
  }

  /** Two toggles of the same answer leave the expanded set, and every `estaExpandida` answer, as before. */
  method ToggleDosVeces(c: PreguntasRespondidasComponente, id: int)
    modifies c
    ensures c.respuestasExpandidas == old(c.respuestasExpandidas)
    ensures forall x :: c.EstaExpandida(x) == old(c.EstaExpandida(x))
  {
    c.ToggleExpansion(id);
    c.ToggleExpansion(id);
    AlternarDosVeces(old(c.respuestasExpandidas), id);
  }
}
