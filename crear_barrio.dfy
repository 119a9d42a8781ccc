/**
 * The new-neighbourhood page: the outline drawn point by point, its checks
 * before the creation request, the dirty check when leaving, and the bounded
 * retries of the map start-up.
 */
module CrearBarrio {
  import opened Comun
  import opened Textos
  import opened Modelo

  const MaxIntentos: int := 5
  const DescripcionObligatoria: string := "La descripción del barrio es obligatoria."
  const PocosPuntos: string := "El polígono debe tener al menos 3 puntos."
  const ErrorAlCrear: string := "Error al crear el barrio"
  const BarrioCreado: string := "Barrio creado correctamente"

  /** The alert shown for the creation reply `exito`: success, error, or none while it is pending. */
  function AvisosDeRespuesta(exito: Option<bool>): seq<string> {
    match exito
    case Some(true) => [BarrioCreado]
    case Some(false) => [ErrorAlCrear]
    case None => []
  }

  /** The creation request: the trimmed description, the outline and its author. */
  datatype NuevoBarrio = NuevoBarrio(descripcion: string, coordenadas: seq<Coordenada>, creatorUserId: int)

  /** What `guardarBarrio` refuses, in the order it checks. */
  datatype Problema = Ninguno | FaltaDescripcion | FaltanPuntos

  /** The first check of `guardarBarrio` that fails: a blank (trimmed) description, then fewer than three points. */
  function ProblemaDe(descripcion: string, puntos: nat): (p: Problema)
    ensures p == FaltaDescripcion <==> EsBlanco(descripcion)
    ensures p == FaltanPuntos <==> !EsBlanco(descripcion) && puntos < 3
    ensures p == Ninguno <==> !EsBlanco(descripcion) && puntos >= 3
  {
    if EsBlanco(descripcion) then FaltaDescripcion
    else if puntos < 3 then FaltanPuntos
    else Ninguno
  }

  /** The message shown for each refusal. */
  function Mensaje(p: Problema): string {
    match p
    case Ninguno => ""
    case FaltaDescripcion => DescripcionObligatoria
    case FaltanPuntos => PocosPuntos
  }

  /**
   * How one attempt to start the map goes: the map library is not loaded, the
   * container is missing or has no size (each schedules another attempt),
   * building the map throws, or it succeeds.
   */
  datatype Intento = SinLeaflet | SinElemento | SinDimensiones | Excepcion | Exito

  /** The attempts that only schedule another one. */
  predicate Pospone(i: Intento) {
    i == SinLeaflet || i == SinElemento || i == SinDimensiones
  }

  /**
   * The page's state. `poligono` is the outline on the map, absent until there
   * are three points. `avisos` holds the messages shown, `solicitudes` the
   * creation requests, `confirmaciones` the questions put to the user and
   * `salidas` the navigations back to the list.
   */
  class CrearBarrioComponente {
    var descripcion: string
    var mapaInicializado: bool
    var mapaCargando: bool
    var mapaError: bool
    var poligono: Option<seq<Coordenada>>
    var coordenadas: seq<Coordenada>
    var guardando: bool
    var intentosInicializacion: int
    var avisos: seq<string>
    var solicitudes: seq<NuevoBarrio>
    var confirmaciones: nat
    var salidas: nat

    constructor()
      ensures descripcion == "" && !mapaInicializado && mapaCargando && !mapaError
      ensures poligono == None && coordenadas == [] && !guardando && intentosInicializacion == 0
      ensures avisos == [] && solicitudes == [] && confirmaciones == 0 && salidas == 0
    {
      descripcion := "";
      mapaInicializado := false;
      mapaCargando := true;
      mapaError := false;
      poligono := None;
      coordenadas := [];
      guardando := false;
      intentosInicializacion := 0;
      avisos := [];
      solicitudes := [];
      confirmaciones := 0;
      salidas := 0;
    }

    /**
     * `inicializarMapa()`: counts the attempt; past the fifth it gives up with
     * an error. Otherwise the outcome `intento` decides; `reintentar` says
     * whether another attempt is scheduled.
     */
    method InicializarMapa(intento: Intento) returns (reintentar: bool)
      modifies this`intentosInicializacion, this`mapaCargando, this`mapaError, this`mapaInicializado
      ensures intentosInicializacion == old(intentosInicializacion) + 1
      ensures intentosInicializacion > MaxIntentos ==>
        !mapaCargando && mapaError && !reintentar && mapaInicializado == old(mapaInicializado)
      ensures intentosInicializacion <= MaxIntentos && Pospone(intento) ==>
        reintentar && mapaCargando == old(mapaCargando) && mapaError == old(mapaError)
        && mapaInicializado == old(mapaInicializado)
      ensures intentosInicializacion <= MaxIntentos && intento == Excepcion ==>
        mapaError && !mapaCargando && mapaInicializado == old(mapaInicializado)
        && (reintentar <==> intentosInicializacion < MaxIntentos && !old(mapaInicializado))
      ensures intentosInicializacion <= MaxIntentos && intento == Exito ==>
        mapaInicializado && !mapaCargando && !mapaError && !reintentar
    {
      intentosInicializacion := intentosInicializacion + 1;
      if intentosInicializacion > MaxIntentos {
        mapaCargando := false;
        mapaError := true;
        return false;
      }
      match intento
      case SinLeaflet => reintentar := true;
      case SinElemento => reintentar := true;
      case SinDimensiones => reintentar := true;
      case Excepcion =>
        mapaError := true;
        mapaCargando := false;
        reintentar := intentosInicializacion < MaxIntentos && !mapaInicializado;
      case Exito =>
        mapaInicializado := true;
        mapaCargando := false;
        mapaError := false;
        reintentar := false;
    }

    /**
     * The chain of scheduled attempts, each taking its outcome from `intentos`,
     * until one schedules no other or the outcomes run out. From a fresh
     * counter it makes at most six attempts, and when the sixth is reached the
     * map ends in error.
     */
    method CadenaDeIntentos(intentos: seq<Intento>) returns (hechos: nat)
      requires intentosInicializacion == 0
      modifies this`intentosInicializacion, this`mapaCargando, this`mapaError, this`mapaInicializado
      ensures hechos <= MaxIntentos + 1 && hechos <= |intentos|
      ensures intentosInicializacion == hechos
      ensures hechos == MaxIntentos + 1 ==> mapaError && !mapaCargando
    {
      hechos := 0;
      var reintentar := true;
      while reintentar && hechos < |intentos|
        invariant hechos <= |intentos|
        invariant intentosInicializacion == hechos
        invariant hechos <= MaxIntentos + 1
        invariant hechos == MaxIntentos + 1 ==> !reintentar && mapaError && !mapaCargando
        decreases |intentos| - hechos
      {
        reintentar := InicializarMapa(intentos[hechos]);
        hechos := hechos + 1;
      }
    }

    /** `recargarMapa()`: a fresh start of the map with the attempt counter back at zero. */
    method RecargarMapa()
      modifies this`intentosInicializacion, this`mapaCargando, this`mapaError, this`mapaInicializado
      ensures intentosInicializacion == 0 && !mapaInicializado && mapaCargando && !mapaError
    {
      mapaInicializado := false;
      mapaCargando := true;
      mapaError := false;
      intentosInicializacion := 0;
    }

    /**
     * `agregarPunto(latlng)`: the point goes at the end of the outline; from
     * the third point on, the polygon is redrawn through all the points.
     */
    method AgregarPunto(p: Coordenada)
      modifies this`coordenadas, this`poligono
      ensures coordenadas == old(coordenadas) + [p]
      ensures |coordenadas| >= 3 ==> poligono == Some(coordenadas)
      ensures |coordenadas| < 3 ==> poligono == old(poligono)
    {
      coordenadas := coordenadas + [p];
      if |coordenadas| >= 3 {
        poligono := Some(coordenadas);
      }
    }

    /** `limpiarMapa()`: no points and no polygon remain. */
    method LimpiarMapa()
      modifies this`coordenadas, this`poligono
      ensures coordenadas == [] && poligono == None
    {
      coordenadas := [];
      poligono := None;
    }

    /**
     * `guardarBarrio()` for the signed-in user `usuarioId`. A blank description
     * is refused first, then an outline of fewer than three points; otherwise
     * the user is asked, and once they confirm the trimmed description is sent
     * with the points. `exito` is the reply: success shows its alert and goes
     * back to the list, failure shows an error, and while none arrived the
     * page stays saving.
     */
    method GuardarBarrio(usuarioId: int, confirmado: bool, exito: Option<bool>)
      modifies this`avisos, this`solicitudes, this`confirmaciones, this`salidas, this`guardando
      ensures ProblemaDe(descripcion, |coordenadas|) != Ninguno ==>
        avisos == old(avisos) + [Mensaje(ProblemaDe(descripcion, |coordenadas|))] && solicitudes == old(solicitudes)
        && confirmaciones == old(confirmaciones) && salidas == old(salidas) && guardando == old(guardando)
      ensures ProblemaDe(descripcion, |coordenadas|) == Ninguno ==> confirmaciones == old(confirmaciones) + 1
      ensures ProblemaDe(descripcion, |coordenadas|) == Ninguno && !confirmado ==>
        avisos == old(avisos) && solicitudes == old(solicitudes) && salidas == old(salidas) && guardando == old(guardando)
      ensures ProblemaDe(descripcion, |coordenadas|) == Ninguno && confirmado ==>
        solicitudes == old(solicitudes) + [NuevoBarrio(Recortar(descripcion), coordenadas, usuarioId)]
        && (guardando <==> exito.None?)
        && salidas == old(salidas) + (if exito == Some(true) then 1 else 0)
        && avisos == old(avisos) + AvisosDeRespuesta(exito)
    {
      var problema := ProblemaDe(descripcion, |coordenadas|);
      if problema != Ninguno {
        avisos := avisos + [Mensaje(problema)];
        return;
      }
      confirmaciones := confirmaciones + 1;
      if confirmado {
        EnviarBarrio(NuevoBarrio(Recortar(descripcion), coordenadas, usuarioId), exito);
      }
    }

    /**
     * The confirmed part of `guardarBarrio()`: the page is saving while the
     * creation request `nuevo` is pending; success shows its alert and goes
     * back to the list, and failure shows an error.
     */
    method EnviarBarrio(nuevo: NuevoBarrio, exito: Option<bool>)
      modifies this`avisos, this`solicitudes, this`salidas, this`guardando
      ensures solicitudes == old(solicitudes) + [nuevo]
      ensures guardando <==> exito.None?
      ensures salidas == old(salidas) + (if exito == Some(true) then 1 else 0)
      ensures avisos == old(avisos) + AvisosDeRespuesta(exito)
    {
      guardando := true;
      solicitudes := solicitudes + [nuevo];
      if exito.Some? {
        guardando := false;
        if exito.value {
          avisos := avisos + [BarrioCreado];
          salidas := salidas + 1;
        } else {
          avisos := avisos + [ErrorAlCrear];
        }
      }
    }

    /** Something would be lost by leaving: a point or a non-blank description. */
    predicate HayDatos()
      reads this
    {
      |coordenadas| > 0 || !EsBlanco(descripcion)
    }

    /**
     * `cancelar()`: with data entered the user is asked first and the page is
     * left only once they confirm; with none it is left at once.
     */
    method Cancelar(confirmado: bool)
      modifies this`confirmaciones, this`salidas
      ensures HayDatos() ==>
        confirmaciones == old(confirmaciones) + 1 && salidas == old(salidas) + (if confirmado then 1 else 0)
      ensures !HayDatos() ==> confirmaciones == old(confirmaciones) && salidas == old(salidas) + 1
    {
      if |coordenadas| > 0 || !EsBlanco(descripcion) {
        confirmaciones := confirmaciones + 1;
        if confirmado {
          salidas := salidas + 1;
        }
      } else {
        salidas := salidas + 1;
      }
    }
  }

  /** The description sent is the trimmed one: not blank, with no white space at either end. */
  lemma DescripcionEnviada(descripcion: string)
    requires !EsBlanco(descripcion)
    ensures Recortar(descripcion) != ""
    ensures !EsEspacio(Recortar(descripcion)[0]) && !EsEspacio(Recortar(descripcion)[|Recortar(descripcion)| - 1])
    ensures Recortar(Recortar(descripcion)) == Recortar(descripcion)
  {
    RecortarIdempotente(descripcion);
  }

  /** Adding three points to an empty outline draws the polygon through exactly those points. */
  method TresPuntosDibujanPoligono(c: CrearBarrioComponente, a: Coordenada, b: Coordenada, d: Coordenada)
    requires c.coordenadas == []
    modifies c
    ensures c.coordenadas == [a, b, d] && c.poligono == Some([a, b, d])
  {
    c.AgregarPunto(a);
    c.AgregarPunto(b);
    c.AgregarPunto(d);
  }
}
