/**
 * The create/edit survey modal: the form check, the gate in front of the
 * create and update requests, the dispatch of `submit` and the form reset.
 */
module AbmEncuestas {
  import opened Comun
  import opened Textos
  import opened Modelo
  import opened EncuestasServicio

  const TituloRequerido: string := "El titulo es requerido"

  /** What the form check finds. */
  datatype Problema = Ninguno | FaltaTitulo

  /** The one check of `verificacionFormulario()`: a blank (trimmed) title. */
  function ProblemaDe(f: FormEncuesta): (p: Problema)
    ensures p == FaltaTitulo <==> EsBlanco(f.titulo)
  {
    if EsBlanco(f.titulo) then FaltaTitulo else Ninguno
  }

  /** The message the check returns for each outcome. */
  function Mensaje(p: Problema): string {
    match p
    case Ninguno => ""
    case FaltaTitulo => TituloRequerido
  }

  /** `verificacionFormulario()`. */
  function VerificacionFormulario(f: FormEncuesta): string {
    Mensaje(ProblemaDe(f))
  }

  /** The check yields the title message exactly when the trimmed title is empty, and '' otherwise. */
  lemma VerificacionFormularioSii(f: FormEncuesta)
    ensures VerificacionFormulario(f) == TituloRequerido <==> EsBlanco(f.titulo)
    ensures VerificacionFormulario(f) == "" <==> !EsBlanco(f.titulo)
  {
  }

  /** The description plays no part in the check. */
  lemma DescripcionNoVerificada(f: FormEncuesta, d: string)
    ensures VerificacionFormulario(f.(descripcion := d)) == VerificacionFormulario(f)
  {
  }

  /** Every message but '' is non-blank, so the gate on the trimmed message being non-empty is the title check. */
  lemma MensajeNoBlanco(p: Problema)
    ensures EsBlanco(Mensaje(p)) <==> p == Ninguno
  {
    match p
    case Ninguno => EsBlancoSii("");
    case FaltaTitulo => NoBlanco(TituloRequerido);
  }

  /** The gate on the message of outcome `p`: its trim is non-empty exactly when the check failed. */
  method HayError(p: Problema) returns (hay: bool)
    ensures hay <==> p != Ninguno
  {
    var errorMsj := Mensaje(p);
    hay := !EsBlanco(errorMsj);
    MensajeNoBlanco(p);
  }

  /** The blank form is rejected. */
  lemma FormVacioRechazado()
    ensures VerificacionFormulario(FormEncuestaVacio) == TituloRequerido
  {
    EsBlancoSii(FormEncuestaVacio.titulo);
  }

  /** A request the modal sends: a creation with the form and its author, or an update of a survey. */
  datatype Solicitud =
    | Creacion(form: FormEncuesta, creatorUserId: int)
    | Actualizacion(id: int, form: FormEncuesta)

  /**
   * The modal component, bound to the shared service. `solicitudes` holds the
   * requests sent, `avisos` the messages shown, and `insertadas`/`actualizadas`
   * the surveys passed on through `insertEvent` and `updateEvent`.
   */
  class AbmEncuestasComponente {
    const servicio: EncuestasServicio
    var solicitudes: seq<Solicitud>
    var avisos: seq<string>
    var insertadas: seq<Encuesta>
    var actualizadas: seq<Encuesta>

    constructor(servicio: EncuestasServicio)
      ensures this.servicio == servicio
      ensures solicitudes == [] && avisos == [] && insertadas == [] && actualizadas == []
    {
      this.servicio := servicio;
      solicitudes := [];
      avisos := [];
      insertadas := [];
      actualizadas := [];
    }

    /** `reinicioFormulario()`: blanks title and description. */
    method ReinicioFormulario()
      modifies servicio`form
      ensures servicio.form == FormEncuestaVacio
    {
      servicio.form := FormEncuesta("", "");
    }

    /**
     * `nuevaEncuesta()` for the signed-in user `usuarioId`. A blank title shows
     * the message and sends nothing. Otherwise, once the user confirms, the
     * form is sent with its author; `respuesta` is the created survey of a
     * successful reply (absent when none arrived or the request failed), which
     * is passed on, and then the form is blanked and the modal hidden.
     */
    method NuevaEncuesta(usuarioId: int, confirmado: bool, respuesta: Option<Encuesta>)
      modifies this`solicitudes, this`avisos, this`insertadas, servicio`form, servicio`show
      ensures ProblemaDe(old(servicio.form)) == FaltaTitulo ==>
        avisos == old(avisos) + [VerificacionFormulario(old(servicio.form))] && solicitudes == old(solicitudes)
        && insertadas == old(insertadas) && servicio.form == old(servicio.form) && servicio.show == old(servicio.show)
      ensures ProblemaDe(old(servicio.form)) == Ninguno ==> avisos == old(avisos)
      ensures ProblemaDe(old(servicio.form)) == Ninguno && !confirmado ==>
        solicitudes == old(solicitudes) && insertadas == old(insertadas)
        && servicio.form == old(servicio.form) && servicio.show == old(servicio.show)
      ensures ProblemaDe(old(servicio.form)) == Ninguno && confirmado ==>
        solicitudes == old(solicitudes) + [Creacion(old(servicio.form), usuarioId)]
      ensures ProblemaDe(old(servicio.form)) == Ninguno && confirmado && respuesta.Some? ==>
        insertadas == old(insertadas) + [respuesta.value] && servicio.form == FormEncuestaVacio && !servicio.show
      ensures ProblemaDe(old(servicio.form)) == Ninguno && confirmado && respuesta.None? ==>
        insertadas == old(insertadas) && servicio.form == old(servicio.form) && servicio.show == old(servicio.show)
    {
      var problema := ProblemaDe(servicio.form);
      var errorMsj := Mensaje(problema);
      var hayError := HayError(problema);
      if hayError {
        avisos := avisos + [errorMsj];
        return;
      }
      if confirmado {
        solicitudes := solicitudes + [Creacion(servicio.form, usuarioId)];
        if respuesta.Some? {
          insertadas := insertadas + [respuesta.value];
          ReinicioFormulario();
          servicio.show := false;
        }
      }
    }

    /**
     * `actualizarEncuesta()`: the same gate, then an update of the selected
     * survey with the form; a successful reply is passed on, the form is
     * blanked and the modal hidden. The request reads the selected survey's
     * id, so a survey must be selected when the request is sent.
     */
    method ActualizarEncuesta(confirmado: bool, respuesta: Option<Encuesta>)
      requires ProblemaDe(servicio.form) == Ninguno && confirmado ==> servicio.encuestaSeleccionada.Some?
      modifies this`solicitudes, this`avisos, this`actualizadas, servicio`form, servicio`show
      ensures ProblemaDe(old(servicio.form)) == FaltaTitulo ==>
        avisos == old(avisos) + [VerificacionFormulario(old(servicio.form))] && solicitudes == old(solicitudes)
        && actualizadas == old(actualizadas) && servicio.form == old(servicio.form) && servicio.show == old(servicio.show)
      ensures ProblemaDe(old(servicio.form)) == Ninguno ==> avisos == old(avisos)
      ensures ProblemaDe(old(servicio.form)) == Ninguno && !confirmado ==>
        solicitudes == old(solicitudes) && actualizadas == old(actualizadas)
        && servicio.form == old(servicio.form) && servicio.show == old(servicio.show)
      ensures ProblemaDe(old(servicio.form)) == Ninguno && confirmado ==>
        solicitudes == old(solicitudes) + [Actualizacion(servicio.encuestaSeleccionada.value.id, old(servicio.form))]
      ensures ProblemaDe(old(servicio.form)) == Ninguno && confirmado && respuesta.Some? ==>
        actualizadas == old(actualizadas) + [respuesta.value] && servicio.form == FormEncuestaVacio && !servicio.show
      ensures ProblemaDe(old(servicio.form)) == Ninguno && confirmado && respuesta.None? ==>
        actualizadas == old(actualizadas) && servicio.form == old(servicio.form) && servicio.show == old(servicio.show)
    {
      var problema := ProblemaDe(servicio.form);
      var errorMsj := Mensaje(problema);
      var hayError := HayError(problema);
      if hayError {
        avisos := avisos + [errorMsj];
        return;
      }
      if confirmado {
        solicitudes := solicitudes + [Actualizacion(servicio.encuestaSeleccionada.value.id, servicio.form)];
        if respuesta.Some? {
          actualizadas := actualizadas + [respuesta.value];
          ReinicioFormulario();
          servicio.show := false;
        }
      }
    }

    /**
     * `submit()`: creates in 'crear' and updates otherwise; whichever is sent
     * is the only request added.
     */
    method Submit(usuarioId: int, confirmado: bool, respuesta: Option<Encuesta>)
      requires servicio.estado == Editar && ProblemaDe(servicio.form) == Ninguno && confirmado ==>
        servicio.encuestaSeleccionada.Some?
      modifies this`solicitudes, this`avisos, this`insertadas, this`actualizadas, servicio`form, servicio`show
      ensures ProblemaDe(old(servicio.form)) == Ninguno && confirmado ==>
        |solicitudes| == |old(solicitudes)| + 1 && solicitudes[..|old(solicitudes)|] == old(solicitudes)
      ensures ProblemaDe(old(servicio.form)) == Ninguno && confirmado ==>
        (solicitudes[|old(solicitudes)|].Creacion? <==> old(servicio.estado) == Crear)
      ensures ProblemaDe(old(servicio.form)) == FaltaTitulo || !confirmado ==> solicitudes == old(solicitudes)
      ensures old(servicio.estado) == Crear ==> actualizadas == old(actualizadas)
      ensures old(servicio.estado) == Editar ==> insertadas == old(insertadas)
    {
      if servicio.estado == Crear {
        NuevaEncuesta(usuarioId, confirmado, respuesta);
      } else {
        ActualizarEncuesta(confirmado, respuesta);
      }
    }
  }
}
