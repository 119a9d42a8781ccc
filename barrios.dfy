/**
 * The neighbourhoods list page: the sort column and direction, the page and
 * filter state that every list request carries, the `.kml` file check in
 * front of the import, and the actions dropdown.
 */
module Barrios {
  import opened Comun
  import opened Textos
  import opened Modelo
  import opened BarriosServicio

  const ExtensionKml: string := ".kml"
  const ArchivoInvalido: string := "Por favor selecciona un archivo KML válido"

  /** A list request: the sort, the filters and the page it is sent with. */
  datatype ConsultaBarrios = ConsultaBarrios(
    direccion: Sentido, columna: string, activo: string, parametro: string, pagina: int, itemsPorPagina: Numero)

  /** A successful reply to a list request. */
  datatype ListadoBarrios = ListadoBarrios(barrios: seq<Barrio>, totalItems: int)

  /** A file picked in the file input, of which only the name is read here. */
  datatype Archivo = Archivo(nombre: string)

  /** A file was picked and its name ends with '.kml'; the check is case-sensitive, so '.KML' is refused. */
  predicate EsKml(archivo: Option<Archivo>) {
    archivo.Some? && TerminaCon(archivo.value.nombre, ExtensionKml)
  }

  /** A name is accepted exactly when it is some stem followed by '.kml'. */
  lemma EsKmlSii(nombre: string)
    ensures EsKml(Some(Archivo(nombre))) <==> exists stem :: nombre == stem + ExtensionKml
  {
    TerminaConSii(nombre, ExtensionKml);
  }

  /** The check does not fold case. */
  lemma KmlEnMayusculasRechazado()
    ensures !EsKml(Some(Archivo("barrios.KML")))
    ensures EsKml(Some(Archivo("barrios.kml")))
  {
    assert "barrios.KML"[7..] == ".KML";
    assert "barrios.kml"[7..] == ExtensionKml;
  }

  /**
   * The page component over the shared service. `consultas` holds the list
   * requests sent, `importaciones` the files sent to be imported and `avisos`
   * the error messages shown.
   */
  class BarriosComponente {
    const servicio: BarriosServicio
    var totalItems: Numero
    var paginaActual: int
    var cantidadItems: Numero
    var filtroActivo: string
    var filtroParametro: string
    var direccion: Sentido
    var columna: string
    var buscandoBarrios: bool
    var importandoKml: bool
    var dropdownAccionesAbierto: bool
    var consultas: seq<ConsultaBarrios>
    var importaciones: seq<Archivo>
    var avisos: seq<string>

    /**
     * The initial state: first page of ten, active ones only, by description
     * ascending; the total is undefined until a list reply arrives.
     */
    constructor(servicio: BarriosServicio)
      ensures this.servicio == servicio && totalItems == SinValor
      ensures paginaActual == 1 && cantidadItems == Num(10) && filtroActivo == "true" && filtroParametro == ""
      ensures direccion == Asc && columna == "descripcion"
      ensures buscandoBarrios && !importandoKml && !dropdownAccionesAbierto
      ensures consultas == [] && importaciones == [] && avisos == []
    {
      this.servicio := servicio;
      totalItems := SinValor;
      paginaActual := 1;
      cantidadItems := Num(10);
      filtroActivo := "true";
      filtroParametro := "";
      direccion := Asc;
      columna := "descripcion";
      buscandoBarrios := true;
      importandoKml := false;
      dropdownAccionesAbierto := false;
      consultas := [];
      importaciones := [];
      avisos := [];
    }

    /** The request `listarBarrios()` sends in the current state. */
    function ConsultaActual(): ConsultaBarrios
      reads this
    {
      ConsultaBarrios(direccion, columna, filtroActivo, filtroParametro, paginaActual, cantidadItems)
    }

    /**
     * `listarBarrios()`: sends one request; `respuesta` is its successful
     * reply, absent while none arrived, which replaces the list and the total.
     */
    method ListarBarrios(respuesta: Option<ListadoBarrios>)
      modifies this`consultas, this`totalItems, this`buscandoBarrios, servicio`barrios
      ensures consultas == old(consultas) + [ConsultaActual()]
      ensures respuesta.None? ==>
        totalItems == old(totalItems) && buscandoBarrios == old(buscandoBarrios) && servicio.barrios == old(servicio.barrios)
      ensures respuesta.Some? ==>
        totalItems == Num(respuesta.value.totalItems) && !buscandoBarrios && servicio.barrios == respuesta.value.barrios
    {
      consultas := consultas + [ConsultaActual()];
      if respuesta.Some? {
        servicio.barrios := respuesta.value.barrios;
        totalItems := Num(respuesta.value.totalItems);
        buscandoBarrios := false;
      }
    }

    /** `cambiarPagina(nroPagina)`: marks the page as loading and requests that page. */
    method CambiarPagina(nroPagina: int, respuesta: Option<ListadoBarrios>)
      modifies this`paginaActual, this`consultas, this`totalItems, this`buscandoBarrios, servicio`barrios
      ensures paginaActual == nroPagina
      ensures consultas == old(consultas) + [ConsultaActual()]
      ensures respuesta.None? ==>
        totalItems == old(totalItems) && buscandoBarrios && servicio.barrios == old(servicio.barrios)
      ensures respuesta.Some? ==>
        totalItems == Num(respuesta.value.totalItems) && !buscandoBarrios && servicio.barrios == respuesta.value.barrios
    {
      buscandoBarrios := true;
      paginaActual := nroPagina;
      ListarBarrios(respuesta);
    }

    /**
     * `ordenarPorColumna(columna)`: the current column flips its direction, a
     * new one is sorted ascending; either way the first page is requested.
     */
    method OrdenarPorColumna(nuevaColumna: string, respuesta: Option<ListadoBarrios>)
      modifies this`columna, this`direccion, this`paginaActual, this`consultas, this`totalItems,
        this`buscandoBarrios, servicio`barrios
      ensures nuevaColumna == old(columna) ==> direccion == Invertir(old(direccion))
      ensures nuevaColumna != old(columna) ==> direccion == Asc
      ensures columna == nuevaColumna && paginaActual == 1
      ensures consultas == old(consultas) + [ConsultaActual()]
      ensures respuesta.None? ==>
        totalItems == old(totalItems) && buscandoBarrios && servicio.barrios == old(servicio.barrios)
      ensures respuesta.Some? ==>
        totalItems == Num(respuesta.value.totalItems) && !buscandoBarrios && servicio.barrios == respuesta.value.barrios
    {
      if columna == nuevaColumna {
        direccion := if direccion == Asc then Desc else Asc;
      } else {
        columna := nuevaColumna;
        direccion := Asc;
      }
      CambiarPagina(1, respuesta);
    }

    /** `filtrarActivos(event)`: the selected value becomes the `activo` filter; back to the first page. */
    method FiltrarActivos(valor: string, respuesta: Option<ListadoBarrios>)
      modifies this`filtroActivo, this`paginaActual, this`consultas, this`totalItems, this`buscandoBarrios, servicio`barrios
      ensures filtroActivo == valor && paginaActual == 1
      ensures consultas == old(consultas) + [ConsultaActual()]
      ensures respuesta.None? ==>
        totalItems == old(totalItems) && buscandoBarrios == old(buscandoBarrios) && servicio.barrios == old(servicio.barrios)
      ensures respuesta.Some? ==>
        totalItems == Num(respuesta.value.totalItems) && !buscandoBarrios && servicio.barrios == respuesta.value.barrios
    {
      paginaActual := 1;
      filtroActivo := valor;
      ListarBarrios(respuesta);
    }

    /**
     * `filtrarParametro(event)`: the selected page size, already converted by
     * `Number`, becomes `cantidadItems`; back to the first page.
     */
    method FiltrarParametro(cantidad: Numero, respuesta: Option<ListadoBarrios>)
      modifies this`cantidadItems, this`paginaActual, this`consultas, this`totalItems, this`buscandoBarrios, servicio`barrios
      ensures cantidadItems == cantidad && paginaActual == 1
      ensures consultas == old(consultas) + [ConsultaActual()]
      ensures respuesta.None? ==>
        totalItems == old(totalItems) && buscandoBarrios == old(buscandoBarrios) && servicio.barrios == old(servicio.barrios)
      ensures respuesta.Some? ==>
        totalItems == Num(respuesta.value.totalItems) && !buscandoBarrios && servicio.barrios == respuesta.value.barrios
    {
      paginaActual := 1;
      cantidadItems := cantidad;
      ListarBarrios(respuesta);
    }

    /**
     * `onFileSelected(event)`: only a file whose name ends in '.kml' is sent
     * to be imported, which marks the import as running; anything else shows
     * the error and changes nothing else.
     */
    method OnFileSelected(archivo: Option<Archivo>)
      modifies this`importandoKml, this`importaciones, this`avisos
      ensures EsKml(archivo) ==>
        importandoKml && importaciones == old(importaciones) + [archivo.value] && avisos == old(avisos)
      ensures !EsKml(archivo) ==>
        importandoKml == old(importandoKml) && importaciones == old(importaciones)
        && avisos == old(avisos) + [ArchivoInvalido]
    {
      if archivo.Some? && TerminaCon(archivo.value.nombre, ExtensionKml) {
        importandoKml := true;
        importaciones := importaciones + [archivo.value];
      } else {
        avisos := avisos + [ArchivoInvalido];
      }
    }

    /** `toggleDropdownAcciones()`. */
    method ToggleDropdownAcciones()
      modifies this`dropdownAccionesAbierto
      ensures dropdownAccionesAbierto == !old(dropdownAccionesAbierto)
    {
      dropdownAccionesAbierto := !dropdownAccionesAbierto;
    }

    /** `cerrarDropdownAcciones()`. */
    method CerrarDropdownAcciones()
      modifies this`dropdownAccionesAbierto
      ensures !dropdownAccionesAbierto
    {
      dropdownAccionesAbierto := false;
    }
  }
}
