/** Values shared by every part of the model: optional values, the identifiers and
    clock readings the system generates, and the exceptions its operations throw. */
module Comum {

  /** A value that may be absent (a Java `null` or an empty `Optional`). */
  datatype Option<+T> = None | Some(value: T)

  /** A generated UUID; only equality between identifiers matters here. */
  type Uuid = nat

  /** A reading of `LocalDateTime.now()`; only "set / not set" and equality matter. */
  type Instante = int

  /** A monetary amount in cents: the source stores every amount as a scale-2 decimal. */
  type Centavos = int

  /** The exceptions the modelled operations can throw (and callers observe). */
  datatype Excecao =
    | IllegalStateException(mensagem: string)
    | IllegalArgumentException(mensagem: string)
    | NullPointerException
      /** The fraud-classification client failed or timed out. */
    | FalhaApiFraudes

  /** Either a normal return carrying a value, or a thrown exception. */
  datatype Resultado<+T> = Ok(valor: T) | Lanca(excecao: Excecao)
}
