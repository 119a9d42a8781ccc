/**
 * The surveys service: the create/edit survey modal state (`abmEncuesta`),
 * the list of surveys the list page sorts, and the query parameters of the
 * three report requests of a survey.
 */
module EncuestasServicio {
  import opened Comun
  import opened Textos
  import opened Modelo

  /** The modal's form: a title and a description. */
  datatype FormEncuesta = FormEncuesta(titulo: string, descripcion: string)

  /** The blank form. */
  const FormEncuestaVacio: FormEncuesta := FormEncuesta("", "")

  /** `abmEncuesta` together with the `encuestas` list and `total` of the service. */
  class EncuestasServicio {
    var show: bool
    var estado: EstadoAbm
    var form: FormEncuesta
    var encuestaSeleccionada: Option<Encuesta>
    var encuestas: seq<Encuesta>
    var total: int

    /** The initial state: hidden, in 'crear', with the blank form, nothing selected and no surveys. */
    constructor()
      ensures !show && estado == Crear && form == FormEncuestaVacio && encuestaSeleccionada == None
      ensures encuestas == [] && total == 0
    {
      show := false;
      estado := Crear;
      form := FormEncuestaVacio;
      encuestaSeleccionada := None;
      encuestas := [];
      total := 0;
    }

    /**
     * `abrirAbm(estado, encuesta)`: shows the modal and records the mode and the
     * selection; editing copies the survey's title and description into the
     * form, creating blanks it. Editing reads the survey, so it must be given.
     */
    method AbrirAbm(nuevoEstado: EstadoAbm, encuesta: Option<Encuesta>)
      requires nuevoEstado == Editar ==> encuesta.Some?
      modifies this`show, this`estado, this`form, this`encuestaSeleccionada
      ensures show && estado == nuevoEstado && encuestaSeleccionada == encuesta
      ensures nuevoEstado == Editar ==>
        form.titulo == encuesta.value.titulo && form.descripcion == encuesta.value.descripcion
      ensures nuevoEstado == Crear ==> form == FormEncuestaVacio
    {
      estado := nuevoEstado;
      encuestaSeleccionada := encuesta;
      show := true;
      if nuevoEstado == Editar {
        form := FormEncuesta(encuesta.value.titulo, encuesta.value.descripcion);
      } else {
        form := FormEncuesta("", "");
      }
    }
  }

  /** The three report requests of a survey, which differ only in their path. */
  datatype Reporte = Estadisticas | Distribucion | Detallado

  /** The last segment of each report's path. */
  function Segmento(r: Reporte): string {
    match r
    case Estadisticas => "estadisticas"
    case Distribucion => "distribucion"
    case Detallado => "reporte"
  }

  /**
   * `obtenerEstadisticas`, `obtenerDistribucion` and `obtenerReporteDetallado`:
   * the path below the surveys endpoint and the query parameters. Each filter
   * is sent only when truthy, so an empty date and the id 0 are left out; the
   * id is sent as its decimal numeral and reads back as the same number.
   */
  method ConsultaReporte(id: string, reporte: Reporte, fechaInicio: Option<string>, fechaFin: Option<string>,
                         encuestadorId: Option<int>)
    returns (ruta: string, params: map<string, string>)
    ensures ruta == "/" + id + "/" + Segmento(reporte)
    ensures params.Keys <= {"fechaInicio", "fechaFin", "encuestadorId"}
    ensures "fechaInicio" in params <==> TextoVerdadero(fechaInicio)
    ensures "fechaInicio" in params ==> params["fechaInicio"] == fechaInicio.value
    ensures "fechaFin" in params <==> TextoVerdadero(fechaFin)
    ensures "fechaFin" in params ==> params["fechaFin"] == fechaFin.value
    ensures "encuestadorId" in params <==> EnteroVerdadero(encuestadorId)
    ensures "encuestadorId" in params ==>
      EsNumerico(params["encuestadorId"]) && LeerEntero(params["encuestadorId"]) == encuestadorId.value
  {
    params := map[];
    if TextoVerdadero(fechaInicio) {
      params := params["fechaInicio" := fechaInicio.value];
    }
    if TextoVerdadero(fechaFin) {
      params := params["fechaFin" := fechaFin.value];
    }
    if EnteroVerdadero(encuestadorId) {
      params := params["encuestadorId" := EnteroATexto(encuestadorId.value)];
      EnteroATextoIdaVuelta(encuestadorId.value);
    }
    ruta := "/" + id + "/" + Segmento(reporte);
  }
}
