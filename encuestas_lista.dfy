/**
 * The surveys list page: the client-side re-sort by lowercased title after a
 * survey is created or updated, the replacement of an updated survey, and the
 * sort-column, filter and page state that drives the list requests.
 */
module EncuestasLista {
  import opened Comun
  import opened Textos
  import opened Secuencias
  import opened Modelo
  import opened EncuestasServicio

  /** The sort key `titulo.toLowerCase()`. */
  function ClaveTitulo(e: Encuesta): string {
    Minusculas(e.titulo)
  }

  /** The 'asc' comparator, as "a may precede b": `b`'s key is not below `a`'s. */
  predicate TituloAscendente(a: Encuesta, b: Encuesta) {
    MenorIgualLex(ClaveTitulo(a), ClaveTitulo(b))
  }

  /** The 'desc' comparator, as "a may precede b": `a`'s key is not below `b`'s. */
  predicate TituloDescendente(a: Encuesta, b: Encuesta) {
    MenorIgualLex(ClaveTitulo(b), ClaveTitulo(a))
  }

  /** The comparator `ordenarEncuestas` uses in each direction. */
  function Comparador(d: Sentido): (Encuesta, Encuesta) -> bool {
    if d == Asc then TituloAscendente else TituloDescendente
  }

  /** Both comparators are consistent. */
  lemma ComparadoresPreorden()
    ensures PreordenTotal(TituloAscendente)
    ensures PreordenTotal(TituloDescendente)
  {
    forall a: Encuesta, b: Encuesta, c: Encuesta
      ensures TituloAscendente(a, b) || TituloAscendente(b, a)
      ensures TituloAscendente(a, b) && TituloAscendente(b, c) ==> TituloAscendente(a, c)
    {
      MenorIgualLexOrdenTotal(ClaveTitulo(a), ClaveTitulo(b), ClaveTitulo(c));
    }
    forall a: Encuesta, b: Encuesta
      ensures TituloDescendente(a, b) || TituloDescendente(b, a)
    {
      MenorIgualLexOrdenTotal(ClaveTitulo(a), ClaveTitulo(b), ClaveTitulo(b));
    }
    forall a: Encuesta, b: Encuesta, c: Encuesta
      ensures TituloDescendente(a, b) && TituloDescendente(b, c) ==> TituloDescendente(a, c)
    {
      MenorIgualLexOrdenTotal(ClaveTitulo(c), ClaveTitulo(b), ClaveTitulo(a));
    }
  }

  /** The list `ordenarEncuestas` leaves in place of `s`. */
  function EncuestasOrdenadas(s: seq<Encuesta>, d: Sentido): seq<Encuesta> {
    Ordenar(s, Comparador(d))
  }

  /**
   * The sorted list holds the same surveys, ordered by lowercased title:
   * non-decreasing for 'asc' and non-increasing for 'desc'.
   */
  lemma EncuestasOrdenadasCorrecto(s: seq<Encuesta>, d: Sentido)
    ensures multiset(EncuestasOrdenadas(s, d)) == multiset(s)
    ensures d == Asc ==> forall i, j :: 0 <= i < j < |s| ==>
      MenorIgualLex(ClaveTitulo(EncuestasOrdenadas(s, d)[i]), ClaveTitulo(EncuestasOrdenadas(s, d)[j]))
    ensures d == Desc ==> forall i, j :: 0 <= i < j < |s| ==>
      MenorIgualLex(ClaveTitulo(EncuestasOrdenadas(s, d)[j]), ClaveTitulo(EncuestasOrdenadas(s, d)[i]))
  {
    ComparadoresPreorden();
    OrdenarOrdena(s, Comparador(d));
    var r := EncuestasOrdenadas(s, d);
    if d == Asc {
      forall i, j | 0 <= i < j < |s|
        ensures MenorIgualLex(ClaveTitulo(r[i]), ClaveTitulo(r[j]))
      {
        assert TituloAscendente(r[i], r[j]);
      }
    } else {
      forall i, j | 0 <= i < j < |s|
        ensures MenorIgualLex(ClaveTitulo(r[j]), ClaveTitulo(r[i]))
      {
        assert TituloDescendente(r[i], r[j]);
      }
    }
  }

  /** The first position of a survey with that id, or -1, as `findIndex` gives it. */
  function PrimerIndice(s: seq<Encuesta>, id: int): (i: int)
    ensures -1 <= i < |s|
    ensures i >= 0 ==> s[i].id == id && forall k :: 0 <= k < i ==> s[k].id != id
    ensures i == -1 <==> forall k :: 0 <= k < |s| ==> s[k].id != id
  {
    if s == [] then -1
    else if s[0].id == id then 0
    else
      var j := PrimerIndice(s[1..], id);
      assert forall k :: 1 <= k < |s| ==> s[k] == s[1..][k - 1];
      if j == -1 then -1 else j + 1
  }

  /** The `findIndex` scan. */
  method BuscarIndice(s: seq<Encuesta>, id: int) returns (index: int)
    ensures index == PrimerIndice(s, id)
  {
    var i := 0;
    while i < |s|
      invariant 0 <= i <= |s|
      invariant forall k :: 0 <= k < i ==> s[k].id != id
    {
      if s[i].id == id {
        return i;
      }
      i := i + 1;
    }
    return -1;
  }

  /**
   * `encuestas[index] = encuesta` followed by the spread copy. When the id is
   * missing the index is -1, which names no element, so the copy is the list
   * as it was.
   */
  function Reemplazo(s: seq<Encuesta>, e: Encuesta): seq<Encuesta> {
    var i := PrimerIndice(s, e.id);
    if i >= 0 then s[i := e] else s
  }

  /**
   * The replacement keeps the length; it puts `e` at the first position of its
   * id and leaves every other element in place, or changes nothing when the id
   * is not in the list.
   */
  lemma ReemplazoCorrecto(s: seq<Encuesta>, e: Encuesta)
    ensures |Reemplazo(s, e)| == |s|
    ensures PrimerIndice(s, e.id) >= 0 ==>
      Reemplazo(s, e)[PrimerIndice(s, e.id)] == e
      && (forall k :: 0 <= k < |s| && k != PrimerIndice(s, e.id) ==> Reemplazo(s, e)[k] == s[k])
      && multiset(Reemplazo(s, e)) == multiset(s) - multiset{s[PrimerIndice(s, e.id)]} + multiset{e}
    ensures (forall k :: 0 <= k < |s| ==> s[k].id != e.id) ==> Reemplazo(s, e) == s
  {
    var i := PrimerIndice(s, e.id);
    if i >= 0 {
      assert s == s[..i] + [s[i]] + s[i + 1..];
      assert s[i := e] == s[..i] + [e] + s[i + 1..];
    }
  }

  /** A list request: the sort, the page and the filters it is sent with. */
  datatype ConsultaLista = ConsultaLista(
    direccion: Sentido, columna: string, pagina: int, itemsPorPagina: int, estado: string, parametro: string)

  /** A successful reply to a list request: the page of surveys and the total count. */
  datatype Listado = Listado(encuestas: seq<Encuesta>, totalItems: int)

  /**
   * The page component over the shared service. `consultas` holds the list
   * requests sent, and `detallesAbiertos` the ids of the surveys whose detail
   * page the router was sent to.
   */
  class EncuestasComponente {
    const servicio: EncuestasServicio
    var paginaActual: int
    var cantidadItems: int
    var filtroEstado: string
    var filtroParametro: string
    var direccion: Sentido
    var columna: string
    var cargandoEncuestas: bool
    var consultas: seq<ConsultaLista>
    var detallesAbiertos: seq<int>

    /** The initial state: first page of ten, no filters, sorted by id descending. */
    constructor(servicio: EncuestasServicio)
      ensures this.servicio == servicio
      ensures paginaActual == 1 && cantidadItems == 10 && filtroEstado == "" && filtroParametro == ""
      ensures direccion == Desc && columna == "id" && !cargandoEncuestas && consultas == []
      ensures detallesAbiertos == []
    {
      this.servicio := servicio;
      paginaActual := 1;
      cantidadItems := 10;
      filtroEstado := "";
      filtroParametro := "";
      direccion := Desc;
      columna := "id";
      cargandoEncuestas := false;
      consultas := [];
      detallesAbiertos := [];
    }

    /**
     * `listarEncuestas()`: sends a request with the current sort, page and
     * filters; `respuesta` is its successful reply, absent while none arrived,
     * which replaces the service's list and total.
     */
    method ListarEncuestas(respuesta: Option<Listado>)
      modifies this`cargandoEncuestas, this`consultas, servicio`encuestas, servicio`total
      ensures consultas == old(consultas) + [ConsultaLista(direccion, columna, paginaActual, cantidadItems, filtroEstado, filtroParametro)]
      ensures respuesta.None? ==>
        cargandoEncuestas && servicio.encuestas == old(servicio.encuestas) && servicio.total == old(servicio.total)
      ensures respuesta.Some? ==>
        !cargandoEncuestas && servicio.encuestas == respuesta.value.encuestas && servicio.total == respuesta.value.totalItems
    {
      cargandoEncuestas := true;
      consultas := consultas + [ConsultaLista(direccion, columna, paginaActual, cantidadItems, filtroEstado, filtroParametro)];
      if respuesta.Some? {
        servicio.encuestas := respuesta.value.encuestas;
        servicio.total := respuesta.value.totalItems;
        cargandoEncuestas := false;
      }
    }

    /** `ordenarEncuestas()`: sorts the service's list in place by the current direction. */
    method OrdenarEncuestas()
      modifies servicio`encuestas
      ensures servicio.encuestas == EncuestasOrdenadas(old(servicio.encuestas), direccion)
    {
      servicio.encuestas := Ordenar(servicio.encuestas, Comparador(direccion));
    }

    /**
     * `nuevaEncuesta(encuesta)`: puts the new survey in front of the list and
     * re-sorts, so the list gains exactly that survey, then opens the new
     * survey's detail page.
     */
    method NuevaEncuesta(e: Encuesta)
      modifies servicio`encuestas, this`detallesAbiertos
      ensures servicio.encuestas == EncuestasOrdenadas([e] + old(servicio.encuestas), direccion)
      ensures |servicio.encuestas| == |old(servicio.encuestas)| + 1
      ensures multiset(servicio.encuestas) == multiset(old(servicio.encuestas)) + multiset{e}
      ensures detallesAbiertos == old(detallesAbiertos) + [e.id]
    {
      servicio.encuestas := [e] + servicio.encuestas;
      OrdenarEncuestas();
      detallesAbiertos := detallesAbiertos + [e.id];
    }

    /**
     * `actualizarEncuesta(encuesta)`: replaces the survey with the same id and
     * re-sorts; the length never changes.
     */
    method ActualizarEncuesta(e: Encuesta)
      modifies servicio`encuestas
      ensures servicio.encuestas == EncuestasOrdenadas(Reemplazo(old(servicio.encuestas), e), direccion)
      ensures |servicio.encuestas| == |old(servicio.encuestas)|
    {
      var index := BuscarIndice(servicio.encuestas, e.id);
      if index >= 0 {
        servicio.encuestas := servicio.encuestas[index := e];
      }
      ReemplazoCorrecto(old(servicio.encuestas), e);
      OrdenarEncuestas();
    }

    /** `filtrarParametro(parametro)`: stores the text and goes back to the first page. */
    method FiltrarParametro(parametro: string)
      modifies this`paginaActual, this`filtroParametro
      ensures paginaActual == 1 && filtroParametro == parametro
    {
      paginaActual := 1;
      filtroParametro := parametro;
    }

    /**
     * `ordenarPorColumna(columna)`: selects the column, flips the direction
     * whatever the column was, and reloads with the new sort.
     */
    method OrdenarPorColumna(nuevaColumna: string, respuesta: Option<Listado>)
      modifies this`columna, this`direccion, this`cargandoEncuestas, this`consultas, servicio`encuestas, servicio`total
      ensures columna == nuevaColumna && direccion == Invertir(old(direccion))
      ensures consultas == old(consultas) + [ConsultaLista(direccion, nuevaColumna, paginaActual, cantidadItems, filtroEstado, filtroParametro)]
      ensures respuesta.None? ==>
        cargandoEncuestas && servicio.encuestas == old(servicio.encuestas) && servicio.total == old(servicio.total)
      ensures respuesta.Some? ==>
        !cargandoEncuestas && servicio.encuestas == respuesta.value.encuestas && servicio.total == respuesta.value.totalItems
    {
      columna := nuevaColumna;
      direccion := if direccion == Asc then Desc else Asc;
      ListarEncuestas(respuesta);
    }

    /** `cambiarPagina(pagina)`: shows that page and reloads it. */
    method CambiarPagina(pagina: int, respuesta: Option<Listado>)
      modifies this`paginaActual, this`cargandoEncuestas, this`consultas, servicio`encuestas, servicio`total
      ensures paginaActual == pagina
      ensures consultas == old(consultas) + [ConsultaLista(direccion, columna, pagina, cantidadItems, filtroEstado, filtroParametro)]
      ensures respuesta.None? ==>
        cargandoEncuestas && servicio.encuestas == old(servicio.encuestas) && servicio.total == old(servicio.total)
      ensures respuesta.Some? ==>
        !cargandoEncuestas && servicio.encuestas == respuesta.value.encuestas && servicio.total == respuesta.value.totalItems
    {
      paginaActual := pagina;
      ListarEncuestas(respuesta);
    }
  }
}
