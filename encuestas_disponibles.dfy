/**
 * The public page listing the surveys assigned to the signed-in enumerator:
 * the guard on the user id and the filter that keeps the active surveys.
 */
module EncuestasDisponibles {
  import opened Comun
  import opened Secuencias
  import opened Modelo

  const EstadoActiva: string := "Activa"

  /** An assignment of a survey to the user, as the reply lists it. */
  datatype Asignacion = Asignacion(encuesta: Encuesta)

  predicate EsActiva(a: Asignacion) {
    a.encuesta.estado == EstadoActiva
  }

  function EncuestaDe(a: Asignacion): Encuesta {
    a.encuesta
  }

  /** The surveys of the assignments whose survey is 'Activa', in assignment order. */
  function EncuestasActivas(asignaciones: seq<Asignacion>): seq<Encuesta> {
    Mapear(Filtrar(asignaciones, EsActiva), EncuestaDe)
  }

  /**
   * Every survey shown is active, every active assignment's survey is shown,
   * no more are shown than were assigned, and the result of a concatenation is
   * the concatenation of the results, so the input order is kept.
   */
  lemma EncuestasActivasCorrecto(asignaciones: seq<Asignacion>, otras: seq<Asignacion>)
    ensures forall e :: e in EncuestasActivas(asignaciones) ==> e.estado == EstadoActiva
    ensures forall a :: a in asignaciones && EsActiva(a) ==> a.encuesta in EncuestasActivas(asignaciones)
    ensures |EncuestasActivas(asignaciones)| <= |asignaciones|
    ensures EncuestasActivas(asignaciones + otras) == EncuestasActivas(asignaciones) + EncuestasActivas(otras)
  {
    var activas := Filtrar(asignaciones, EsActiva);
    var r := EncuestasActivas(asignaciones);
    forall e | e in r ensures e.estado == EstadoActiva {
      var k :| 0 <= k < |r| && r[k] == e;
      assert activas[k] in activas;
    }
    forall a | a in asignaciones && EsActiva(a) ensures a.encuesta in r {
      var k :| 0 <= k < |activas| && activas[k] == a;
      assert r[k] == a.encuesta;
    }
    FiltrarConcat(asignaciones, otras, EsActiva);
    MapearConcat(activas, Filtrar(otras, EsActiva), EncuestaDe);
  }

  /** The reply to the assignments request: none yet, the assignments, or a failure. */
  datatype Respuesta = SinRespuesta | Exito(asignaciones: seq<Asignacion>) | Fallo

  /**
   * The page's state. `consultas` holds the user ids requested,
   * `redirecciones` counts the navigations to the login page and `errores`
   * the failures reported.
   */
  class EncuestasDisponiblesComponente {
    var encuestas: seq<Encuesta>
    var cargando: bool
    var consultas: seq<int>
    var redirecciones: nat
    var errores: nat

    constructor()
      ensures encuestas == [] && cargando && consultas == [] && redirecciones == 0 && errores == 0
    {
      encuestas := [];
      cargando := true;
      consultas := [];
      redirecciones := 0;
      errores := 0;
    }

    /**
     * `cargarEncuestasAsignadas()` for the signed-in user's id (absent when
     * nobody is signed in). Without a truthy id, nothing is requested, loading
     * stops and the user is sent to the login page. Otherwise the user's
     * assignments are requested, and a successful reply shows the active
     * surveys among them.
     */
    method CargarEncuestasAsignadas(userId: Option<int>, respuesta: Respuesta)
      modifies this
      ensures !EnteroVerdadero(userId) ==>
        !cargando && consultas == old(consultas) && redirecciones == old(redirecciones) + 1
        && encuestas == old(encuestas) && errores == old(errores)
      ensures EnteroVerdadero(userId) ==>
        consultas == old(consultas) + [userId.value] && redirecciones == old(redirecciones)
        && cargando == (if respuesta.SinRespuesta? then old(cargando) else false)
      ensures EnteroVerdadero(userId) && respuesta.Exito? ==>
        encuestas == EncuestasActivas(respuesta.asignaciones) && errores == old(errores)
      ensures EnteroVerdadero(userId) && !respuesta.Exito? ==>
        encuestas == old(encuestas) && errores == old(errores) + (if respuesta.Fallo? then 1 else 0)
    {
      if !EnteroVerdadero(userId) {
        cargando := false;
        redirecciones := redirecciones + 1;
        return;
      }
      consultas := consultas + [userId.value];
      match respuesta
      case SinRespuesta =>
      case Exito(asignaciones) =>
        encuestas := Mapear(Filtrar(asignaciones, EsActiva), EncuestaDe);
        cargando := false;
      case Fallo =>
        cargando := false;
        errores := errores + 1;
    }
  }
}
