/**
 * The create/edit modal state of the questions service: what the form
 * holds when the modal is opened to create a question or to edit one.
 */
module PreguntasServicio {
  import opened Comun
  import opened Modelo

  /** An answer row of the form; only rows copied from an existing question carry an id. */
  datatype RespuestaForm = RespuestaForm(descripcion: string, id: Option<Numero>)

  /** The modal's form. */
  datatype FormPregunta = FormPregunta(descripcion: string, multiplesRespuestas: bool, respuestas: seq<RespuestaForm>)

  /** A blank answer row, `{ descripcion: '' }`. */
  const RespuestaVacia: RespuestaForm := RespuestaForm("", None)

  /** The blank form: no description, single choice and two blank answers. */
  const FormVacio: FormPregunta := FormPregunta("", false, [RespuestaVacia, RespuestaVacia])

  /** The row `{ descripcion, id }` copied from an answer of the question. */
  function CopiaRespuesta(r: Respuesta): RespuestaForm {
    RespuestaForm(r.descripcion, Some(r.id))
  }

  function CopiaRespuestas(rs: seq<Respuesta>): (r: seq<RespuestaForm>)
    ensures |r| == |rs|
    ensures forall i :: 0 <= i < |rs| ==> r[i].descripcion == rs[i].descripcion && r[i].id == Some(rs[i].id)
  {
    if rs == [] then [] else [CopiaRespuesta(rs[0])] + CopiaRespuestas(rs[1..])
  }

  /** The form to edit `p`; its answers must have been loaded. */
  function FormEdicion(p: Pregunta): (f: FormPregunta)
    requires p.respuestas.Some?
    ensures f.descripcion == p.descripcion
    ensures f.multiplesRespuestas <==> p.multiplesRespuestas == Some(true)
    ensures |f.respuestas| == |p.respuestas.value|
    ensures forall i :: 0 <= i < |f.respuestas| ==>
      f.respuestas[i].descripcion == p.respuestas.value[i].descripcion && f.respuestas[i].id == Some(p.respuestas.value[i].id)
  {
    FormPregunta(p.descripcion, p.multiplesRespuestas.GetOr(false), CopiaRespuestas(p.respuestas.value))
  }

  /** `abmPregunta` of the service. */
  class PreguntasServicio {
    var show: bool
    var estado: EstadoAbm
    var form: FormPregunta
    var preguntaSeleccionada: Option<Pregunta>
    var encuestaSeleccionada: Option<Encuesta>

    /** The initial state: hidden, in 'crear', with the blank form and nothing selected. */
    constructor()
      ensures !show && estado == Crear && form == FormVacio
      ensures preguntaSeleccionada == None && encuestaSeleccionada == None
    {
      show := false;
      estado := Crear;
      form := FormVacio;
      preguntaSeleccionada := None;
      encuestaSeleccionada := None;
    }

    /**
     * `abrirAbm(estado, pregunta, encuesta)`: shows the modal, records the mode
     * and both selections, and fills the form from the question when editing
     * or with the blank form otherwise. Editing a question whose `Respuestas`
     * were not loaded throws in the `map` call (`lanzada`), after the mode, the
     * selections, `show` and a form without answer rows have been set.
     */
    method AbrirAbm(nuevoEstado: EstadoAbm, pregunta: Option<Pregunta>, encuesta: Option<Encuesta>)
      returns (lanzada: bool)
      requires nuevoEstado == Editar ==> pregunta.Some?
      modifies this
      ensures show && estado == nuevoEstado
      ensures preguntaSeleccionada == pregunta && encuestaSeleccionada == encuesta
      ensures lanzada <==> nuevoEstado == Editar && pregunta.value.respuestas.None?
      ensures nuevoEstado == Editar && !lanzada ==> form == FormEdicion(pregunta.value)
      ensures lanzada ==>
        form == FormPregunta(pregunta.value.descripcion, pregunta.value.multiplesRespuestas == Some(true), [])
      ensures nuevoEstado == Crear ==> form == FormVacio
    {
      estado := nuevoEstado;
      preguntaSeleccionada := pregunta;
      encuestaSeleccionada := encuesta;
      show := true;
      lanzada := false;
      if nuevoEstado == Editar {
        form := FormPregunta(pregunta.value.descripcion, pregunta.value.multiplesRespuestas.GetOr(false), []);
        if pregunta.value.respuestas.None? {
          lanzada := true;
        } else {
          form := form.(respuestas := CopiaRespuestas(pregunta.value.respuestas.value));
        }
      } else {
        form := FormVacio;
      }
    }
  }
}
