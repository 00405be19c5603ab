/** The failures the registry raises, one constructor per exception class,
    and the result type every fallible operation returns. */
module Resultados {

  datatype Error =
    | PacienteNoEncontrado   // PacienteNoEncontradoException
    | MedicoNoDisponible     // MedicoNoDisponibleException
    | TurnoOcupado           // TurnoOcupadoException
    | RecetaInvalida         // RecetaInvalidaException
    | RegistroDuplicado      // RegistroDuplicadoException
    | EspecialidadInvalida   // EspecialidadInvalidaException
    | ValorInvalido          // ValueError from a record constructor
    | AtributoInexistente    // AttributeError from reading a missing attribute

  /** Either the new value (the operation committed) or the error it raised
      (the operation changed nothing). */
  datatype Result<+T> = Ok(value: T) | Err(error: Error)

  datatype Option<+T> = None | Some(value: T)
}
