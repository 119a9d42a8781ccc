/**
 * The records the client receives from the API, with the fields its logic
 * reads. An `orden` is the position the server keeps for a question or answer;
 * `activo` is the truthiness of the server's `activo` flag.
 */
module Modelo {
  import opened Comun
  import opened Secuencias

  /** An answer option of a question. Its id may be missing or `NaN` in a malformed payload. */
  datatype Respuesta = Respuesta(id: Numero, orden: int, activo: bool, descripcion: string)

  /** A question of a survey; `respuestas` is absent when the payload has no `Respuestas` array. */
  datatype Pregunta = Pregunta(
    id: int,
    orden: int,
    activo: bool,
    multiplesRespuestas: Option<bool>,
    descripcion: string,
    respuestas: Option<seq<Respuesta>>)

  /** A survey; `preguntas` is absent when the payload has no `Preguntas` array. */
  datatype Encuesta = Encuesta(
    id: int,
    titulo: string,
    descripcion: string,
    estado: string,
    preguntas: Option<seq<Pregunta>>)

  /** A point of a neighbourhood outline; the coordinates are opaque to the logic modelled here. */
  datatype Coordenada = Coordenada(lat: real, lng: real)

  /** A neighbourhood; `coordenadas` is absent when the payload has no `CoordenadasToBarrio` array. */
  datatype Barrio = Barrio(id: int, descripcion: string, activo: bool, coordenadas: Option<seq<Coordenada>>)

  /** A user of the system, as the survey assignment and report payloads carry it. */
  datatype Usuario = Usuario(id: int, nombre: string, apellido: string, activo: bool)

  /** `!!p.activo` for a question. */
  predicate PreguntaActiva(p: Pregunta) {
    p.activo
  }

  /** `!p.activo` for a question. */
  predicate PreguntaInactiva(p: Pregunta) {
    !p.activo
  }

  /** The ascending-`orden` comparator for questions, as "a may precede b". */
  predicate OrdenPregunta(a: Pregunta, b: Pregunta) {
    a.orden <= b.orden
  }

  /** The same comparator for answers. */
  predicate OrdenRespuesta(a: Respuesta, b: Respuesta) {
    a.orden <= b.orden
  }

  /** Both comparators are consistent: `sort` with them orders by `orden`. */
  lemma OrdenesSonPreordenes()
    ensures PreordenTotal(OrdenPregunta)
    ensures PreordenTotal(OrdenRespuesta)
  {
  }
}
