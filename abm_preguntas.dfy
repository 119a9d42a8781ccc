/**
 * The create/edit question modal: the form check, the gate it puts in front
 * of the create and update requests, and the editing of the answer rows.
 */
module AbmPreguntas {
  import opened Comun
  import opened Textos
  import opened PreguntasServicio

  const DescripcionRequerida: string := "La descripción es requerida"
  const MinimoRespuestas: string := "Debe tener al menos 2 respuestas"
  const RespuestasVacias: string := "No puede tener respuestas vacias"

  /** Does some answer row have a blank description? */
  predicate AlgunaVacia(rs: seq<RespuestaForm>) {
    exists i :: 0 <= i < |rs| && EsBlanco(rs[i].descripcion)
  }

  /** What the form check finds, in the order it checks. */
  datatype Problema = Ninguno | FaltaDescripcion | MenosDeDosRespuestas | HayRespuestasVacias

  /** The first check of `verificacionFormulario()` that fails. */
  function ProblemaDe(f: FormPregunta): (p: Problema)
    ensures EsBlanco(f.descripcion) ==> p == FaltaDescripcion
    ensures !EsBlanco(f.descripcion) && |f.respuestas| < 2 ==> p == MenosDeDosRespuestas
    ensures !EsBlanco(f.descripcion) && |f.respuestas| >= 2 && AlgunaVacia(f.respuestas) ==> p == HayRespuestasVacias
    ensures p == Ninguno <==>
      !EsBlanco(f.descripcion) && |f.respuestas| >= 2
      && forall i :: 0 <= i < |f.respuestas| ==> !EsBlanco(f.respuestas[i].descripcion)
  {
    if EsBlanco(f.descripcion) then FaltaDescripcion
    else if |f.respuestas| < 2 then MenosDeDosRespuestas
    else if AlgunaVacia(f.respuestas) then HayRespuestasVacias
    else Ninguno
  }

  /** The message the check returns for each outcome. */
  function Mensaje(p: Problema): string {
    match p
    case Ninguno => ""
    case FaltaDescripcion => DescripcionRequerida
    case MenosDeDosRespuestas => MinimoRespuestas
    case HayRespuestasVacias => RespuestasVacias
  }

  /** `verificacionFormulario()`: the message of the first failing check, or ''. */
  function VerificacionFormulario(f: FormPregunta): string {
    Mensaje(ProblemaDe(f))
  }

  /**
   * The form passes exactly when its description is not blank, it has at
   * least two answers and none of them is blank; otherwise the message names
   * the first failing check.
   */
  lemma VerificacionFormularioSii(f: FormPregunta)
    ensures VerificacionFormulario(f) == "" <==>
      !EsBlanco(f.descripcion) && |f.respuestas| >= 2
      && forall i :: 0 <= i < |f.respuestas| ==> !EsBlanco(f.respuestas[i].descripcion)
    ensures EsBlanco(f.descripcion) ==> VerificacionFormulario(f) == DescripcionRequerida
    ensures !EsBlanco(f.descripcion) && |f.respuestas| < 2 ==> VerificacionFormulario(f) == MinimoRespuestas
    ensures !EsBlanco(f.descripcion) && |f.respuestas| >= 2 && AlgunaVacia(f.respuestas) ==>
      VerificacionFormulario(f) == RespuestasVacias
  {
  }

  /** Every message is non-blank, so the trimmed message is non-empty exactly when there is a problem. */
  lemma MensajeNoBlanco(p: Problema)
    ensures EsBlanco(Mensaje(p)) <==> p == Ninguno
  {
    match p
    case Ninguno => EsBlancoSii("");
    case FaltaDescripcion => NoBlanco(DescripcionRequerida);
    case MenosDeDosRespuestas => NoBlanco(MinimoRespuestas);
    case HayRespuestasVacias => NoBlanco(RespuestasVacias);
  }

  /** The blank form of a new question fails on its description. */
  lemma FormVacioRechazado()
    ensures VerificacionFormulario(FormVacio) == DescripcionRequerida
  {
    EsBlancoSii(FormVacio.descripcion);
    assert ProblemaDe(FormVacio) == FaltaDescripcion;
  }

  /**
   * `respuestas.splice(index, 1)`: removes the element at `index`, counted
   * from the end when negative; an index past the end removes nothing.
   */
  function Eliminar<T>(s: seq<T>, index: int): seq<T> {
    var inicio := if index < 0 then (if |s| + index < 0 then 0 else |s| + index) else (if index < |s| then index else |s|);
    if inicio < |s| then s[..inicio] + s[inicio + 1..] else s
  }

  /** For an index of the list, exactly that element goes and the others keep their order. */
  lemma EliminarIndice<T>(s: seq<T>, index: int)
    requires 0 <= index < |s|
    ensures |Eliminar(s, index)| == |s| - 1
    ensures forall i :: 0 <= i < index ==> Eliminar(s, index)[i] == s[i]
    ensures forall i :: index <= i < |s| - 1 ==> Eliminar(s, index)[i] == s[i + 1]
    ensures multiset(Eliminar(s, index)) + multiset{s[index]} == multiset(s)
  {
    assert s == s[..index] + [s[index]] + s[index + 1..];
  }

  /** An index past the end removes nothing; a negative one counts from the end. */
  lemma EliminarFueraDeRango<T>(s: seq<T>, index: int)
    ensures index >= |s| ==> Eliminar(s, index) == s
    ensures -|s| <= index < 0 ==> Eliminar(s, index) == Eliminar(s, |s| + index)
  {
  }

  /** Removing the row just added gives back the rows as they were. */
  lemma EliminarAgregada(rs: seq<RespuestaForm>)
    ensures Eliminar(rs + [RespuestaVacia], |rs|) == rs
    ensures Eliminar(rs + [RespuestaVacia], -1) == rs
  {
    assert (rs + [RespuestaVacia])[..|rs|] == rs;
  }

  /**
   * The modal component, bound to the shared service. `solicitudes` counts
   * the create and update requests sent and `avisos` the messages shown to
   * the user.
   */
  class AbmPreguntasComponente {
    const servicio: PreguntasServicio
    var solicitudes: nat
    var avisos: seq<string>

    constructor(servicio: PreguntasServicio)
      ensures this.servicio == servicio && solicitudes == 0 && avisos == []
    {
      this.servicio := servicio;
      solicitudes := 0;
      avisos := [];
    }

    /** `agregarRespuestas()`: one blank row at the end, the others unchanged. */
    method AgregarRespuestas()
      modifies servicio`form
      ensures servicio.form.respuestas == old(servicio.form.respuestas) + [RespuestaVacia]
      ensures servicio.form.descripcion == old(servicio.form.descripcion)
      ensures servicio.form.multiplesRespuestas == old(servicio.form.multiplesRespuestas)
    {
      servicio.form := servicio.form.(respuestas := servicio.form.respuestas + [RespuestaVacia]);
    }

    /** `eliminarRespuesta(index)`. */
    method EliminarRespuesta(index: int)
      modifies servicio`form
      ensures servicio.form.respuestas == Eliminar(old(servicio.form.respuestas), index)
      ensures servicio.form.descripcion == old(servicio.form.descripcion)
      ensures servicio.form.multiplesRespuestas == old(servicio.form.multiplesRespuestas)
    {
      servicio.form := servicio.form.(respuestas := Eliminar(servicio.form.respuestas, index));
    }

    /**
     * `crearPregunta()` and `actualizarPregunta()`, which differ only in the
     * request they send. A failing check shows its message and sends nothing;
     * otherwise, once the user confirms, one request is sent, and a successful
     * reply closes the modal. `exito` is the reply, absent while none arrived.
     * The request reads the selected survey's id and, to update, the selected
     * question's id.
     */
    method Guardar(actualizar: bool, confirmado: bool, exito: Option<bool>)
      requires ProblemaDe(servicio.form) == Ninguno && confirmado ==>
        servicio.encuestaSeleccionada.Some? && (actualizar ==> servicio.preguntaSeleccionada.Some?)
      modifies this`solicitudes, this`avisos, servicio`show
      ensures ProblemaDe(servicio.form) != Ninguno ==>
        solicitudes == old(solicitudes) && avisos == old(avisos) + [VerificacionFormulario(servicio.form)]
        && servicio.show == old(servicio.show)
      ensures ProblemaDe(servicio.form) == Ninguno && !confirmado ==>
        solicitudes == old(solicitudes) && avisos == old(avisos) && servicio.show == old(servicio.show)
      ensures ProblemaDe(servicio.form) == Ninguno && confirmado ==>
        solicitudes == old(solicitudes) + 1 && avisos == old(avisos)
        && servicio.show == (if exito == Some(true) then false else old(servicio.show))
    {
      var problema := ProblemaDe(servicio.form);
      var errorMsj := Mensaje(problema);
      MensajeNoBlanco(problema);
      if !EsBlanco(errorMsj) {
        avisos := avisos + [errorMsj];
        return;
      }
      if confirmado {
        solicitudes := solicitudes + 1;
        if exito == Some(true) {
          servicio.show := false;
        }
      }
    }
  }
}
