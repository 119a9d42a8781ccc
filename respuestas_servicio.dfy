/**
 * The answers service's create/edit answer modal state (`abmRespuesta`).
 */
module RespuestasServicio {
  import opened Comun

  /**
   * The object handed to the modal to edit. Editing reads its `contenido`
   * property, which may be missing; the form then holds `undefined`.
   */
  datatype RespuestaAbm = RespuestaAbm(contenido: Option<string>)

  /** `abmRespuesta`. The form's description is absent when it holds `undefined`. */
  class RespuestasServicio {
    var show: bool
    var estado: EstadoAbm
    var formDescripcion: Option<string>
    var respuestaSeleccionada: Option<RespuestaAbm>

    /** The initial state: hidden, in 'crear', with a blank description and nothing selected. */
    constructor()
      ensures !show && estado == Crear && formDescripcion == Some("") && respuestaSeleccionada == None
    {
      show := false;
      estado := Crear;
      formDescripcion := Some("");
      respuestaSeleccionada := None;
    }

    /**
     * `abrirAbm(estado, respuesta)`: shows the modal and records the mode and
     * the selection; editing copies the answer's `contenido` into the form,
     * creating blanks it. Editing reads the answer, so it must be given.
     */
    method AbrirAbm(nuevoEstado: EstadoAbm, respuesta: Option<RespuestaAbm>)
      requires nuevoEstado == Editar ==> respuesta.Some?
      modifies this
      ensures show && estado == nuevoEstado && respuestaSeleccionada == respuesta
      ensures nuevoEstado == Editar ==> formDescripcion == respuesta.value.contenido
      ensures nuevoEstado == Crear ==> formDescripcion == Some("")
    {
      estado := nuevoEstado;
      respuestaSeleccionada := respuesta;
      show := true;
      if nuevoEstado == Editar {
        formDescripcion := respuesta.value.contenido;
      } else {
        formDescripcion := Some("");
      }
    }
  }

  /** Opening to create after opening to edit leaves no trace of the edited answer in the form. */
  method EditarLuegoCrear(s: RespuestasServicio, r: RespuestaAbm)
    modifies s
    ensures s.show && s.estado == Crear && s.formDescripcion == Some("") && s.respuestaSeleccionada == None
  {
    s.AbrirAbm(Editar, Some(r));
    s.AbrirAbm(Crear, None);
  }
}
