/** The plain records the registry stores: patients, appointments (turnos),
    prescriptions (recetas) and per-patient medical histories. */
module Registros {
  import opened Resultados
  import opened Calendario

  datatype Paciente = Paciente(nombre: string, dni: string, fechaNacimiento: string)

  /** `Paciente(nombre, dni, fecha_nacimiento)`: every field is mandatory. */
  function NuevoPaciente(nombre: string, dni: string, fechaNacimiento: string): (r: Result<Paciente>)
    ensures r.Ok? <==> nombre != [] && dni != [] && fechaNacimiento != []
    ensures r.Err? ==> r.error == ValorInvalido
    ensures r.Ok? ==> r.value.dni == dni && r.value.nombre == nombre
    ensures r.Ok? ==> r.value.fechaNacimiento == fechaNacimiento
  {
    if nombre == [] || dni == [] || fechaNacimiento == [] then Err(ValorInvalido)
    else Ok(Paciente(nombre, dni, fechaNacimiento))
  }

  /** An appointment. The physician is recorded by licence: it is the only
      part of the physician the registry ever reads back from a turno, and it
      never changes. */
  datatype Turno = Turno(paciente: Paciente, matricula: string, fechaHora: Instante, especialidad: string)

  /** `Turno(paciente, medico, fecha_hora, especialidad)`: the patient, the
      physician and the instant are always present, so only an empty
      specialty name is refused. */
  function NuevoTurno(paciente: Paciente, matricula: string, fechaHora: Instante, especialidad: string): (r: Result<Turno>)
    ensures r.Ok? <==> especialidad != []
    ensures r.Err? ==> r.error == ValorInvalido
    ensures r.Ok? ==> r.value.paciente == paciente && r.value.matricula == matricula
    ensures r.Ok? ==> r.value.fechaHora == fechaHora && r.value.especialidad == especialidad
  {
    if especialidad == [] then Err(ValorInvalido)
    else Ok(Turno(paciente, matricula, fechaHora, especialidad))
  }

  /** A prescription, without its issue time. */
  datatype Receta = Receta(paciente: Paciente, matricula: string, medicamentos: seq<string>)

  /** `Receta(paciente, medico, medicamentos)`: the medicine list must not be
      empty. */
  function NuevaReceta(paciente: Paciente, matricula: string, medicamentos: seq<string>): (r: Result<Receta>)
    ensures r.Ok? <==> medicamentos != []
    ensures r.Err? ==> r.error == RecetaInvalida
    ensures r.Ok? ==> r.value.paciente == paciente && r.value.matricula == matricula
    ensures r.Ok? ==> r.value.medicamentos == medicamentos
  {
    if medicamentos == [] then Err(RecetaInvalida)
    else Ok(Receta(paciente, matricula, medicamentos))
  }

  /** A patient's append-only record of appointments and prescriptions. */
  datatype HistoriaClinica = HistoriaClinica(paciente: Paciente, turnos: seq<Turno>, recetas: seq<Receta>)

  function NuevaHistoria(p: Paciente): (h: HistoriaClinica)
    ensures h.paciente == p && |h.turnos| == 0 && |h.recetas| == 0
  {
    HistoriaClinica(p, [], [])
  }

  /** `agregar_turno`: the appointment goes at the end; prescriptions stay. */
  function AgregarTurno(h: HistoriaClinica, t: Turno): (h': HistoriaClinica)
    ensures h'.paciente == h.paciente && h'.recetas == h.recetas
    ensures |h'.turnos| == |h.turnos| + 1
    ensures h'.turnos[..|h.turnos|] == h.turnos && h'.turnos[|h.turnos|] == t
  {
    h.(turnos := h.turnos + [t])
  }

  /** `agregar_receta`: the prescription goes at the end; appointments stay. */
  function AgregarReceta(h: HistoriaClinica, r: Receta): (h': HistoriaClinica)
    ensures h'.paciente == h.paciente && h'.turnos == h.turnos
    ensures |h'.recetas| == |h.recetas| + 1
    ensures h'.recetas[..|h.recetas|] == h.recetas && h'.recetas[|h.recetas|] == r
  {
    h.(recetas := h.recetas + [r])
  }
}
