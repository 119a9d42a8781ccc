/**
 * The neighbourhoods service: the list of neighbourhoods and the state of the
 * create/edit modal (`estadoAbm`, `showModalAbm`, `barrioSeleccionado`,
 * `abmForm`).
 */
module BarriosServicio {
  import opened Comun
  import opened Modelo

  class BarriosServicio {
    var estadoAbm: EstadoAbm
    var showModalAbm: bool
    var barrios: seq<Barrio>
    var barrioSeleccionado: Option<Barrio>
    var formDescripcion: string

    /** The initial state: 'crear', hidden, no neighbourhoods, nothing selected, blank form. */
    constructor()
      ensures estadoAbm == Crear && !showModalAbm && barrios == [] && barrioSeleccionado == None
      ensures formDescripcion == ""
    {
      estadoAbm := Crear;
      showModalAbm := false;
      barrios := [];
      barrioSeleccionado := None;
      formDescripcion := "";
    }

    /**
     * `abrirAbm(estado, barrio)`: records the mode and the selection and shows
     * the modal; the form takes the neighbourhood's description only when
     * editing one that was given, and is blank in every other case.
     */
    method AbrirAbm(estado: EstadoAbm, barrio: Option<Barrio>)
      modifies this`estadoAbm, this`barrioSeleccionado, this`showModalAbm, this`formDescripcion
      ensures estadoAbm == estado && barrioSeleccionado == barrio && showModalAbm
      ensures estado == Editar && barrio.Some? ==> formDescripcion == barrio.value.descripcion
      ensures !(estado == Editar && barrio.Some?) ==> formDescripcion == ""
    {
      estadoAbm := estado;
      barrioSeleccionado := barrio;
      showModalAbm := true;
      if estado == Editar && barrio.Some? {
        formDescripcion := barrio.value.descripcion;
      } else {
        formDescripcion := "";
      }
    }

    /** `cerrarAbm()`: hides the modal, drops the selection and blanks the form; the mode and the list stay. */
    method CerrarAbm()
      modifies this`showModalAbm, this`barrioSeleccionado, this`formDescripcion
      ensures !showModalAbm && barrioSeleccionado == None && formDescripcion == ""
      ensures estadoAbm == old(estadoAbm) && barrios == old(barrios)
    {
      showModalAbm := false;
      barrioSeleccionado := None;
      formDescripcion := "";
    }
  }

  /** Opening and then closing the modal leaves it as closed, whatever was opened. */
  method AbrirYCerrar(s: BarriosServicio, estado: EstadoAbm, barrio: Option<Barrio>)
    modifies s
    ensures !s.showModalAbm && s.barrioSeleccionado == None && s.formDescripcion == ""
    ensures s.estadoAbm == estado && s.barrios == old(s.barrios)
  {
    s.AbrirAbm(estado, barrio);
    s.CerrarAbm();
  }
}
