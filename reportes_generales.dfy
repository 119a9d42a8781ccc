/**
 * The general report page of a survey: the date-range guard in front of a
 * reload, the "filters active" flag a successful load leaves, clearing the
 * filters and the two visibility toggles.
 */
module ReportesGenerales {
  import opened Comun
  import opened Textos

  const FechasInvalidas: string := "La fecha de inicio debe ser menor a la fecha de fin"

  /**
   * The guard of `aplicarFiltros()`: both dates set and the start above the
   * end, as JavaScript compares strings (ISO dates compare as dates).
   */
  predicate FechasInvertidas(fechaInicio: string, fechaFin: string) {
    fechaInicio != "" && fechaFin != "" && MenorLex(fechaFin, fechaInicio)
  }

  /**
   * The guard rejects exactly a range with both ends set whose start does not
   * come at or before its end; a single date, or equal dates, always pass.
   */
  lemma FechasInvertidasSii(fechaInicio: string, fechaFin: string)
    ensures FechasInvertidas(fechaInicio, fechaFin) <==>
      fechaInicio != "" && fechaFin != "" && !MenorIgualLex(fechaInicio, fechaFin)
    ensures !FechasInvertidas(fechaInicio, fechaInicio)
  {
    MenorLexIrreflexivo(fechaInicio);
    if MenorLex(fechaFin, fechaInicio) {
      MenorLexAsimetrico(fechaFin, fechaInicio);
    } else if fechaInicio != fechaFin {
      MenorLexTotal(fechaInicio, fechaFin);
    }
  }

  /** A date filter as sent: the empty string is not sent. */
  function FechaEnviada(fecha: string): (r: Option<string>)
    ensures r.Some? <==> fecha != ""
    ensures r.Some? ==> r.value == fecha
  {
    if fecha == "" then None else Some(fecha)
  }

  /** A request for the survey's full statistics with the dates it carries. */
  datatype Consulta = Consulta(idEncuesta: string, fechaInicio: Option<string>, fechaFin: Option<string>)

  /**
   * The page's state. `consultas` holds the statistics requests sent,
   * `avisos` the messages of the guard shown to the user and `errores` the
   * failed loads reported.
   */
  class ReportesGeneralesComponente {
    var idEncuesta: string
    var cargando: bool
    var fechaInicio: string
    var fechaFin: string
    var filtrosActivos: bool
    var mostrarDistribucion: bool
    var mostrarDemografia: bool
    var consultas: seq<Consulta>
    var avisos: seq<string>
    var errores: nat

    constructor(idEncuesta: string)
      ensures this.idEncuesta == idEncuesta && !cargando && fechaInicio == "" && fechaFin == "" && !filtrosActivos
      ensures mostrarDistribucion && mostrarDemografia && consultas == [] && avisos == [] && errores == 0
    {
      this.idEncuesta := idEncuesta;
      cargando := false;
      fechaInicio := "";
      fechaFin := "";
      filtrosActivos := false;
      mostrarDistribucion := true;
      mostrarDemografia := true;
      consultas := [];
      avisos := [];
      errores := 0;
    }

    /**
     * `cargarEstadisticas()`: one request with the non-empty dates. `exito`
     * is the reply, absent while none arrived; a success records whether a
     * date was sent, a failure is reported.
     */
    method CargarEstadisticas(exito: Option<bool>)
      modifies this`cargando, this`filtrosActivos, this`consultas, this`errores
      ensures consultas == old(consultas) + [Consulta(idEncuesta, FechaEnviada(fechaInicio), FechaEnviada(fechaFin))]
      ensures cargando <==> exito.None?
      ensures exito == Some(true) ==> (filtrosActivos <==> fechaInicio != "" || fechaFin != "")
      ensures exito != Some(true) ==> filtrosActivos == old(filtrosActivos)
      ensures errores == old(errores) + (if exito == Some(false) then 1 else 0)
    {
      cargando := true;
      var inicio := FechaEnviada(fechaInicio);
      var fin := FechaEnviada(fechaFin);
      consultas := consultas + [Consulta(idEncuesta, inicio, fin)];
      if exito.Some? {
        cargando := false;
        if exito.value {
          filtrosActivos := inicio.Some? || fin.Some?;
        } else {
          errores := errores + 1;
        }
      }
    }

    /** `aplicarFiltros()`: an inverted range is reported and nothing is sent; otherwise the page reloads. */
    method AplicarFiltros(exito: Option<bool>)
      modifies this`cargando, this`filtrosActivos, this`consultas, this`errores, this`avisos
      ensures FechasInvertidas(fechaInicio, fechaFin) ==>
        avisos == old(avisos) + [FechasInvalidas] && consultas == old(consultas)
        && cargando == old(cargando) && filtrosActivos == old(filtrosActivos) && errores == old(errores)
      ensures !FechasInvertidas(fechaInicio, fechaFin) ==>
        avisos == old(avisos)
        && consultas == old(consultas) + [Consulta(idEncuesta, FechaEnviada(fechaInicio), FechaEnviada(fechaFin))]
        && (exito == Some(true) ==> (filtrosActivos <==> fechaInicio != "" || fechaFin != ""))
    {
      if fechaInicio != "" && fechaFin != "" && MenorLex(fechaFin, fechaInicio) {
        avisos := avisos + [FechasInvalidas];
        return;
      }
      CargarEstadisticas(exito);
    }

    /** `limpiarFiltros()`: both dates cleared, no filter active, and a reload without dates. */
    method LimpiarFiltros(exito: Option<bool>)
      modifies this`fechaInicio, this`fechaFin, this`cargando, this`filtrosActivos, this`consultas, this`errores
      ensures fechaInicio == "" && fechaFin == "" && !filtrosActivos
      ensures consultas == old(consultas) + [Consulta(idEncuesta, None, None)]
    {
      fechaInicio := "";
      fechaFin := "";
      filtrosActivos := false;
      CargarEstadisticas(exito);
    }

    /** `toggleDistribucion()`. */
    method ToggleDistribucion()
      modifies this`mostrarDistribucion
      ensures mostrarDistribucion == !old(mostrarDistribucion)
    {
      mostrarDistribucion := !mostrarDistribucion;
    }

    /** `toggleDemografia()`. */
    method ToggleDemografia()
      modifies this`mostrarDemografia
      ensures mostrarDemografia == !old(mostrarDemografia)
    {
      mostrarDemografia := !mostrarDemografia;
    }
  }

  /** Toggling either section twice shows it as before. */
  method TogglesDosVeces(c: ReportesGeneralesComponente)
    modifies c
    ensures c.mostrarDistribucion == old(c.mostrarDistribucion)
    ensures c.mostrarDemografia == old(c.mostrarDemografia)
  {
    c.ToggleDistribucion();
    c.ToggleDistribucion();
    c.ToggleDemografia();
    c.ToggleDemografia();
  }
}
