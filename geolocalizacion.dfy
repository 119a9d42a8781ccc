/**
 * The neighbourhoods map page: the sorted list of distinct descriptions
 * offered as a filter, the filtered list drawn on the map, and the counts shown
 * beside it.
 */
module Geolocalizacion {
  import opened Comun
  import opened Textos
  import opened Secuencias
  import opened Modelo

  function DescripcionDe(b: Barrio): string {
    b.descripcion
  }

  function Identidad(s: string): string {
    s
  }

  /** JavaScript's default `sort` order on strings, as "a may precede b". */
  predicate OrdenTexto(a: string, b: string) {
    MenorIgualLex(a, b)
  }

  lemma OrdenTextoPreorden()
    ensures PreordenTotal(OrdenTexto)
  {
    forall a: string, b: string, c: string
      ensures OrdenTexto(a, b) || OrdenTexto(b, a)
      ensures OrdenTexto(a, b) && OrdenTexto(b, c) ==> OrdenTexto(a, c)
    {
      MenorIgualLexOrdenTotal(a, b, c);
    }
  }

  /** The neighbourhoods' descriptions, each once, in the default string sort order. */
  function DescripcionesUnicas(barrios: seq<Barrio>): seq<string> {
    Ordenar(SinRepetirPor(Mapear(barrios, DescripcionDe), Identidad), OrdenTexto)
  }

  /** Every neighbourhood's description is offered. */
  lemma DescripcionesUnicasCubren(barrios: seq<Barrio>)
    ensures forall b :: b in barrios ==> b.descripcion in DescripcionesUnicas(barrios)
  {
    var nombres := Mapear(barrios, DescripcionDe);
    var unicos := SinRepetirPor(nombres, Identidad);
    OrdenarMiembros(unicos, OrdenTexto);
    SinRepetirPorCubre(nombres, Identidad);
    forall b | b in barrios ensures b.descripcion in unicos {
      var k :| 0 <= k < |barrios| && barrios[k] == b;
      assert nombres[k] == b.descripcion && nombres[k] in nombres;
      assert TieneClave(unicos, Identidad, b.descripcion);
      var j :| 0 <= j < |unicos| && Identidad(unicos[j]) == b.descripcion;
    }
  }

  /** Only descriptions of the neighbourhoods are offered. */
  lemma DescripcionesUnicasSoloDeBarrios(barrios: seq<Barrio>)
    ensures forall d :: d in DescripcionesUnicas(barrios) ==> exists b :: b in barrios && b.descripcion == d
  {
    var nombres := Mapear(barrios, DescripcionDe);
    var unicos := SinRepetirPor(nombres, Identidad);
    OrdenarMiembros(unicos, OrdenTexto);
    forall d | d in DescripcionesUnicas(barrios) ensures exists b :: b in barrios && b.descripcion == d {
      assert d in nombres;
      var k :| 0 <= k < |nombres| && nombres[k] == d;
      assert barrios[k] in barrios && barrios[k].descripcion == d;
    }
  }

  /** The descriptions are offered each once, in strictly increasing order. */
  lemma DescripcionesUnicasCrecientes(barrios: seq<Barrio>)
    ensures forall i, j :: 0 <= i < j < |DescripcionesUnicas(barrios)| ==>
      MenorLex(DescripcionesUnicas(barrios)[i], DescripcionesUnicas(barrios)[j])
  {
    var nombres := Mapear(barrios, DescripcionDe);
    var unicos := SinRepetirPor(nombres, Identidad);
    var r := DescripcionesUnicas(barrios);
    OrdenTextoPreorden();
    OrdenarOrdena(unicos, OrdenTexto);
    SinRepetirPorDistintas(nombres, Identidad);
    ClavesDistintasPermutacion(unicos, r, Identidad);
    forall i, j | 0 <= i < j < |r| ensures MenorLex(r[i], r[j]) {
      assert OrdenTexto(r[i], r[j]);
      assert Identidad(r[i]) != Identidad(r[j]);
    }
  }

  /** The neighbourhoods whose description is exactly `d`, in order. */
  function ConDescripcion(barrios: seq<Barrio>, d: string): seq<Barrio> {
    Filtrar(barrios, (b: Barrio) => b.descripcion == d)
  }

  /**
   * The filter keeps every neighbourhood of that description as often as it
   * occurs and no other; it commutes with concatenation, so their order is
   * the original one.
   */
  lemma ConDescripcionCorrecto(barrios: seq<Barrio>, otros: seq<Barrio>, d: string)
    ensures forall b :: b in ConDescripcion(barrios, d) ==> b.descripcion == d
    ensures forall b ::
      multiset(ConDescripcion(barrios, d))[b] == (if b.descripcion == d then multiset(barrios)[b] else 0)
    ensures ConDescripcion(barrios + otros, d) == ConDescripcion(barrios, d) + ConDescripcion(otros, d)
  {
    FiltrarMultiplicidad(barrios, (b: Barrio) => b.descripcion == d);
    FiltrarConcat(barrios, otros, (b: Barrio) => b.descripcion == d);
  }

  /** The list `filtrarPorDescripcion` draws for the filter `d`. */
  function Filtrado(barrios: seq<Barrio>, d: string): (r: seq<Barrio>)
    ensures |r| <= |barrios|
  {
    if d == "" then barrios else ConDescripcion(barrios, d)
  }

  /** The neighbourhood has a non-empty list of coordinates. */
  predicate TieneCoordenadas(b: Barrio) {
    b.coordenadas.Some? && |b.coordenadas.value| > 0
  }

  /** What `obtenerEstadisticas()` returns. */
  datatype Estadisticas = Estadisticas(total: int, filtrados: int, conCoordenadas: int)

  /**
   * The page's state. `filtroAplicado` is the filter the drawn list was last
   * computed with; the filter text itself is bound to an input and may have
   * changed since. `errores` counts the failed loads reported to the user.
   */
  class GeolocalizacionComponente {
    var barrios: seq<Barrio>
    var barriosFiltrados: seq<Barrio>
    var cargando: bool
    var filtroDescripcion: string
    var descripcionesUnicas: seq<string>
    var errores: nat
    ghost var filtroAplicado: string

    /** The drawn list is the full list filtered by the last applied filter. */
    ghost predicate Valid()
      reads this
    {
      barriosFiltrados == Filtrado(barrios, filtroAplicado)
    }

    constructor()
      ensures Valid()
      ensures barrios == [] && barriosFiltrados == [] && cargando && filtroDescripcion == ""
      ensures descripcionesUnicas == [] && errores == 0
    {
      barrios := [];
      barriosFiltrados := [];
      cargando := true;
      filtroDescripcion := "";
      descripcionesUnicas := [];
      errores := 0;
      filtroAplicado := "";
    }

    /** `obtenerDescripcionesUnicas()`. */
    method ObtenerDescripcionesUnicas()
      modifies this`descripcionesUnicas
      ensures descripcionesUnicas == DescripcionesUnicas(barrios)
    {
      descripcionesUnicas := Ordenar(SinRepetirPor(Mapear(barrios, DescripcionDe), Identidad), OrdenTexto);
    }

    /**
     * `cargarBarrios()` once the reply arrived: `respuesta` holds the
     * neighbourhoods of a successful reply and is absent for a failed one. A
     * success shows them all and recomputes the descriptions.
     */
    method CargarBarrios(respuesta: Option<seq<Barrio>>)
      requires Valid()
      modifies this`barrios, this`barriosFiltrados, this`filtroAplicado, this`descripcionesUnicas
      modifies this`cargando, this`errores
      ensures Valid() && !cargando
      ensures respuesta.Some? ==>
        barrios == respuesta.value && barriosFiltrados == barrios
        && descripcionesUnicas == DescripcionesUnicas(barrios) && errores == old(errores)
      ensures respuesta.None? ==>
        barrios == old(barrios) && barriosFiltrados == old(barriosFiltrados)
        && descripcionesUnicas == old(descripcionesUnicas) && errores == old(errores) + 1
      ensures filtroDescripcion == old(filtroDescripcion)
    {
      if respuesta.Some? {
        barrios := respuesta.value;
        barriosFiltrados := barrios;
        filtroAplicado := "";
        ObtenerDescripcionesUnicas();
        cargando := false;
      } else {
        cargando := false;
        errores := errores + 1;
      }
    }

    /** The filter input's binding. */
    method EscribirFiltro(d: string)
      requires Valid()
      modifies this`filtroDescripcion
      ensures Valid() && filtroDescripcion == d
    {
      filtroDescripcion := d;
    }

    /**
     * `filtrarPorDescripcion()`: the empty filter draws every neighbourhood,
     * any other only those with exactly that description.
     */
    method FiltrarPorDescripcion()
      requires Valid()
      modifies this`barriosFiltrados, this`filtroAplicado
      ensures Valid() && filtroAplicado == filtroDescripcion
      ensures filtroDescripcion == "" ==> barriosFiltrados == barrios
      ensures filtroDescripcion != "" ==> barriosFiltrados == ConDescripcion(barrios, filtroDescripcion)
    {
      if filtroDescripcion == "" {
        barriosFiltrados := barrios;
      } else {
        var d := filtroDescripcion;
        barriosFiltrados := Filtrar(barrios, (b: Barrio) => b.descripcion == d);
      }
      filtroAplicado := filtroDescripcion;
    }

    /** `obtenerEstadisticas()`. */
    function ObtenerEstadisticas(): (r: Estadisticas)
      requires Valid()
      reads this
      ensures r.total == |barrios| && r.filtrados == |barriosFiltrados|
      ensures 0 <= r.conCoordenadas <= r.filtrados <= r.total
    {
      Estadisticas(|barrios|, |barriosFiltrados|, |Filtrar(barriosFiltrados, TieneCoordenadas)|)
    }

    /** `mostrarTodosLosBarrios()`: clears the filter and draws every neighbourhood. */
    method MostrarTodosLosBarrios()
      requires Valid()
      modifies this`filtroDescripcion, this`barriosFiltrados, this`filtroAplicado
      ensures Valid() && filtroDescripcion == "" && barriosFiltrados == barrios
    {
      filtroDescripcion := "";
      barriosFiltrados := barrios;
      filtroAplicado := "";
    }

    /** `limpiarSeleccion()`: the same reset as `mostrarTodosLosBarrios()`. */
    method LimpiarSeleccion()
      requires Valid()
      modifies this`filtroDescripcion, this`barriosFiltrados, this`filtroAplicado
      ensures Valid() && filtroDescripcion == "" && barriosFiltrados == barrios
    {
      filtroDescripcion := "";
      barriosFiltrados := barrios;
      filtroAplicado := "";
    }
  }

  /**
   * With no filter applied the counts show every neighbourhood as drawn, and
   * counting those with an outline never exceeds either.
   */
  lemma SinFiltroTodosDibujados(c: GeolocalizacionComponente)
    requires c.Valid() && c.filtroAplicado == ""
    ensures c.ObtenerEstadisticas().filtrados == c.ObtenerEstadisticas().total
  {
  }
}
