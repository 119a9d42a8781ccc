/**
 * The query the answered-questions service sends for one page of answers
 * grouped by survey session: the page and size always go, each filter only
 * when it is set.
 */
module PreguntasRespondidasServicio {
  import opened Comun
  import opened Textos

  /** `b.toString()` for a boolean. */
  function BooleanoATexto(b: bool): (r: string)
    ensures r == "true" <==> b
    ensures r == "false" <==> !b
  {
    if b then "true" else "false"
  }

  /**
   * The optional part of the grouped query: the enumerator id when truthy,
   * the gender and the dates when non-empty, the SIGEM flag whenever given.
   */
  method Filtros(creatorUserId: Option<int>, genero: Option<string>, sigem: Option<bool>,
                 fechaInicio: Option<string>, fechaFin: Option<string>)
    returns (params: map<string, string>)
    ensures params.Keys <= {"creatorUserId", "genero", "sigem", "fechaInicio", "fechaFin"}
    ensures "creatorUserId" in params <==> EnteroVerdadero(creatorUserId)
    ensures "creatorUserId" in params ==>
      EsNumerico(params["creatorUserId"]) && LeerEntero(params["creatorUserId"]) == creatorUserId.value
    ensures "genero" in params <==> TextoVerdadero(genero)
    ensures "genero" in params ==> params["genero"] == genero.value
    ensures "sigem" in params <==> sigem.Some?
    ensures "sigem" in params ==> params["sigem"] == BooleanoATexto(sigem.value)
    ensures "fechaInicio" in params <==> TextoVerdadero(fechaInicio)
    ensures "fechaInicio" in params ==> params["fechaInicio"] == fechaInicio.value
    ensures "fechaFin" in params <==> TextoVerdadero(fechaFin)
    ensures "fechaFin" in params ==> params["fechaFin"] == fechaFin.value
  {
    params := map[];
    if EnteroVerdadero(creatorUserId) {
      params := params["creatorUserId" := EnteroATexto(creatorUserId.value)];
      EnteroATextoIdaVuelta(creatorUserId.value);
    }
    if TextoVerdadero(genero) {
      params := params["genero" := genero.value];
    }
    if sigem.Some? {
      params := params["sigem" := BooleanoATexto(sigem.value)];
    }
    if TextoVerdadero(fechaInicio) {
      params := params["fechaInicio" := fechaInicio.value];
    }
    if TextoVerdadero(fechaFin) {
      params := params["fechaFin" := fechaFin.value];
    }
  }

  /**
   * `obtenerRespuestasAgrupadas(encuestaId, pagina, itemsPorPagina, ...)`:
   * the path below the answers endpoint and the query parameters. An absent
   * page or page size takes its default of 1 or 10; both go as numerals that
   * read back as the numbers. The enumerator id goes only when truthy (so 0
   * is left out), the gender and dates only when non-empty, and the SIGEM
   * flag whenever it is given, false included.
   */
  method ConsultaAgrupadas(encuestaId: string, pagina: Option<int>, itemsPorPagina: Option<int>,
                           creatorUserId: Option<int>, genero: Option<string>, sigem: Option<bool>,
                           fechaInicio: Option<string>, fechaFin: Option<string>)
    returns (ruta: string, params: map<string, string>)
    ensures ruta == "/agrupadas/" + encuestaId
    ensures params.Keys <= {"pagina", "itemsPorPagina", "creatorUserId", "genero", "sigem", "fechaInicio", "fechaFin"}
    ensures "pagina" in params && EsNumerico(params["pagina"]) && LeerEntero(params["pagina"]) == pagina.GetOr(1)
    ensures "itemsPorPagina" in params && EsNumerico(params["itemsPorPagina"])
      && LeerEntero(params["itemsPorPagina"]) == itemsPorPagina.GetOr(10)
    ensures "creatorUserId" in params <==> EnteroVerdadero(creatorUserId)
    ensures "creatorUserId" in params ==>
      EsNumerico(params["creatorUserId"]) && LeerEntero(params["creatorUserId"]) == creatorUserId.value
    ensures "genero" in params <==> TextoVerdadero(genero)
    ensures "genero" in params ==> params["genero"] == genero.value
    ensures "sigem" in params <==> sigem.Some?
    ensures "sigem" in params ==> params["sigem"] == BooleanoATexto(sigem.value)
    ensures "fechaInicio" in params <==> TextoVerdadero(fechaInicio)
    ensures "fechaInicio" in params ==> params["fechaInicio"] == fechaInicio.value
    ensures "fechaFin" in params <==> TextoVerdadero(fechaFin)
    ensures "fechaFin" in params ==> params["fechaFin"] == fechaFin.value
  {
    var p := pagina.GetOr(1);
    var n := itemsPorPagina.GetOr(10);
    EnteroATextoIdaVuelta(p);
    EnteroATextoIdaVuelta(n);
    var filtros := Filtros(creatorUserId, genero, sigem, fechaInicio, fechaFin);
    params := filtros["pagina" := EnteroATexto(p)]["itemsPorPagina" := EnteroATexto(n)];
    ruta := "/agrupadas/" + encuestaId;
  }
}
