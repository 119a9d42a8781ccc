/** Small value types shared by every component of the client. */
module Comun {

  /** A value that may be absent: a JavaScript `null` or `undefined`. */
  datatype Option<+T> = None | Some(value: T) {

    /** The value, or `default` when absent (JavaScript's `||` on an object). */
    function GetOr(default: T): T {
      match this
      case Some(v) => v
      case None => default
    }
  }

  /**
   * A JavaScript `number` used as an identifier: an integer, or a value that is
   * not a usable number (`undefined`, `null` or `NaN`).
   */
  datatype Numero = Num(valor: int) | SinValor

  /** `!!x` for a number: false for 0, NaN, null and undefined. */
  predicate Verdadero(n: Numero) {
    n.Num? && n.valor != 0
  }

  /** A number that is neither undefined, null nor `NaN`. */
  predicate Definido(n: Numero) {
    n.Num?
  }

  /** Truthiness of an optional JavaScript string: present and not ''. */
  predicate TextoVerdadero(s: Option<string>) {
    s.Some? && s.value != ""
  }

  /** Truthiness of an optional JavaScript number id: present and not 0. */
  predicate EnteroVerdadero(n: Option<int>) {
    n.Some? && n.value != 0
  }

  /** The two modes of every create/edit modal: 'crear' and 'editar'. */
  datatype EstadoAbm = Crear | Editar

  /** A sort direction, `'asc'` or `'desc'`. */
  datatype Sentido = Asc | Desc

  /** The opposite sort direction. */
  function Invertir(d: Sentido): (r: Sentido)
    ensures r != d
  {
    if d == Asc then Desc else Asc
  }

  /** Two flips give back the direction. */
  lemma InvertirDosVeces(d: Sentido)
    ensures Invertir(Invertir(d)) == d
  {
  }
}
