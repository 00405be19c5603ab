/** The clinic registry and its booking engine. */
module Clinicas {
  import opened Texto
  import opened Resultados
  import opened Calendario
  import opened Especialidades
  import opened Medicos
  import opened Registros

  /** Patients by DNI, physicians by licence, the global appointment list in
      booking order, and medical histories by DNI. */
  datatype Clinica = Clinica(
    pacientes: map<string, Paciente>,
    medicos: map<string, Medico>,
    turnos: seq<Turno>,
    historias: map<string, HistoriaClinica>)

  /** Every registered patient has a history and every history belongs to a
      registered patient. The operations below rely on this. */
  predicate HistoriasAlDia(c: Clinica) {
    c.pacientes.Keys == c.historias.Keys
  }

  /** The appointments of one patient, in the order of the global list. */
  function TurnosDe(ts: seq<Turno>, dni: string): (r: seq<Turno>)
    ensures |r| <= |ts|
    ensures forall j :: 0 <= j < |r| ==> r[j].paciente.dni == dni
  {
    if ts == [] then []
    else
      var ultimo := ts[|ts| - 1];
      TurnosDe(ts[..|ts| - 1], dni) + (if ultimo.paciente.dni == dni then [ultimo] else [])
  }

  /** Every appointment of the list is in its own patient's share. */
  lemma {:induction false} TurnosDeCompleto(ts: seq<Turno>)
    ensures forall i :: 0 <= i < |ts| ==> ts[i] in TurnosDe(ts, ts[i].paciente.dni)
    decreases |ts|
  {
    if ts != [] {
      var previos := ts[..|ts| - 1];
      TurnosDeCompleto(previos);
      forall i | 0 <= i < |ts|
        ensures ts[i] in TurnosDe(ts, ts[i].paciente.dni)
      {
        if i < |ts| - 1 {
          assert ts[i] == previos[i];
        }
      }
    }
  }

  /** The conflict loop: is the physician already booked at exactly this
      instant? Scans the global list from the first appointment on. */
  predicate Ocupado(ts: seq<Turno>, matricula: string, t: Instante): (b: bool)
    ensures b <==> exists i :: 0 <= i < |ts| && ts[i].matricula == matricula && ts[i].fechaHora == t
  {
    ts != [] && ((ts[0].matricula == matricula && ts[0].fechaHora == t) || Ocupado(ts[1..], matricula, t))
  }

  /** No two appointments share a physician and an instant. */
  predicate SinTurnosRepetidos(ts: seq<Turno>) {
    forall i, j :: 0 <= i < j < |ts| ==>
      !(ts[i].matricula == ts[j].matricula && ts[i].fechaHora == ts[j].fechaHora)
  }

  /** An appointment refers to a registered patient and a registered
      physician who offers its specialty on its weekday. */
  predicate TurnoRegistrado(c: Clinica, t: Turno) {
    && t.paciente.dni in c.pacientes
    && c.pacientes[t.paciente.dni] == t.paciente
    && t.matricula in c.medicos
    && Atiende(c.medicos[t.matricula], t.especialidad, DiaSemanaEnEspanol(t.fechaHora))
  }

  /** A prescription refers to its history's patient and to a registered
      physician. */
  predicate RecetaRegistrada(c: Clinica, h: HistoriaClinica, r: Receta) {
    r.paciente == h.paciente && r.matricula in c.medicos && r.medicamentos != []
  }

  /** Every key names the record stored under it, and every registered
      physician is valid. */
  predicate ClavesCoherentes(c: Clinica) {
    && (forall k :: k in c.pacientes ==> c.pacientes[k].dni == k)
    && (forall k :: k in c.medicos ==> c.medicos[k].matricula == k && MedicoValido(c.medicos[k]))
  }

  /** Every history belongs to the patient registered under its key and
      lists exactly that patient's share of the global appointment list. */
  predicate HistoriasCoherentes(c: Clinica) {
    forall k :: k in c.historias ==>
      && k in c.pacientes
      && c.historias[k].paciente == c.pacientes[k]
      && c.historias[k].turnos == TurnosDe(c.turnos, k)
  }

  predicate RecetasRegistradas(c: Clinica) {
    forall k, j :: k in c.historias && 0 <= j < |c.historias[k].recetas| ==>
      RecetaRegistrada(c, c.historias[k], c.historias[k].recetas[j])
  }

  predicate TurnosRegistrados(c: Clinica) {
    forall i :: 0 <= i < |c.turnos| ==> TurnoRegistrado(c, c.turnos[i])
  }

  /** The registry invariant every operation preserves. In a valid registry
      every booked appointment appears in its patient's history. */
  predicate Valid(c: Clinica): (b: bool)
    ensures b ==> forall i :: 0 <= i < |c.turnos| ==>
                    c.turnos[i].paciente.dni in c.historias
                    && c.turnos[i] in c.historias[c.turnos[i].paciente.dni].turnos
  {
    TurnosDeCompleto(c.turnos);
    && HistoriasAlDia(c)
    && ClavesCoherentes(c)
    && HistoriasCoherentes(c)
    && RecetasRegistradas(c)
    && TurnosRegistrados(c)
    && SinTurnosRepetidos(c.turnos)
  }

  /** `Clinica()`: an empty registry. */
  function Vacia(): (c: Clinica)
    ensures Valid(c)
    ensures |c.pacientes| == 0 && |c.medicos| == 0 && |c.turnos| == 0 && |c.historias| == 0
  {
    Clinica(map[], map[], [], map[])
  }

  /** `agregar_paciente`: refuses a DNI already registered; otherwise stores
      the patient and an empty history under its DNI. */
  function AgregarPaciente(c: Clinica, p: Paciente): (r: Result<Clinica>)
    ensures r.Err? <==> p.dni in c.pacientes
    ensures r.Err? ==> r.error == RegistroDuplicado
    ensures r.Ok? ==> r.value.pacientes.Keys == c.pacientes.Keys + {p.dni}
    ensures r.Ok? ==> r.value.historias.Keys == c.historias.Keys + {p.dni}
    ensures r.Ok? ==> r.value.pacientes[p.dni] == p && r.value.historias[p.dni] == NuevaHistoria(p)
    ensures r.Ok? ==> forall k :: k in c.pacientes ==> r.value.pacientes[k] == c.pacientes[k]
    ensures r.Ok? ==> forall k :: k in c.historias && k != p.dni ==> r.value.historias[k] == c.historias[k]
    ensures r.Ok? ==> r.value.medicos == c.medicos && r.value.turnos == c.turnos
    ensures r.Ok? && HistoriasAlDia(c) ==> HistoriasAlDia(r.value)
  {
    if p.dni in c.pacientes then Err(RegistroDuplicado)
    else Ok(c.(pacientes := c.pacientes[p.dni := p],
               historias := c.historias[p.dni := NuevaHistoria(p)]))
  }

  /** `agregar_medico`: refuses a licence already registered; otherwise
      stores the physician under its licence. */
  function AgregarMedico(c: Clinica, m: Medico): (r: Result<Clinica>)
    ensures r.Err? <==> m.matricula in c.medicos
    ensures r.Err? ==> r.error == RegistroDuplicado
    ensures r.Ok? ==> r.value.medicos.Keys == c.medicos.Keys + {m.matricula}
    ensures r.Ok? ==> r.value.medicos[m.matricula] == m
    ensures r.Ok? ==> forall k :: k in c.medicos ==> r.value.medicos[k] == c.medicos[k]
    ensures r.Ok? ==> r.value.pacientes == c.pacientes && r.value.historias == c.historias
    ensures r.Ok? ==> r.value.turnos == c.turnos
  {
    if m.matricula in c.medicos then Err(RegistroDuplicado)
    else Ok(c.(medicos := c.medicos[m.matricula := m]))
  }

  /** `obtener_medico_por_matricula`. */
  function ObtenerMedicoPorMatricula(c: Clinica, matricula: string): (r: Result<Medico>)
    ensures r.Err? <==> matricula !in c.medicos
    ensures r.Err? ==> r.error == MedicoNoDisponible
    ensures r.Ok? ==> r.value == c.medicos[matricula]
    ensures r.Ok? && Valid(c) ==> r.value.matricula == matricula && MedicoValido(r.value)
  {
    if matricula !in c.medicos then Err(MedicoNoDisponible)
    else Ok(c.medicos[matricula])
  }

  /** Adding a specialty to a physician the registry already holds: the
      registry stores the physician object itself, so the caller's
      `agregar_especialidad` on the object returned by
      `obtener_medico_por_matricula` changes the registered physician. */
  function AgregarEspecialidadRegistrada(c: Clinica, matricula: string, e: Especialidad): (r: Result<Clinica>)
    ensures r.Err? <==> matricula !in c.medicos || TieneTipo(c.medicos[matricula].especialidades, e.tipo)
    ensures matricula !in c.medicos ==> r == Err(MedicoNoDisponible)
    ensures matricula in c.medicos && r.Err? ==> r.error == RegistroDuplicado
    ensures r.Ok? ==> r.value.medicos.Keys == c.medicos.Keys
    ensures r.Ok? ==> r.value.medicos[matricula].especialidades
                        == c.medicos[matricula].especialidades + [e]
    ensures r.Ok? ==> r.value.medicos[matricula]
                        == c.medicos[matricula].(especialidades := c.medicos[matricula].especialidades + [e])
    ensures r.Ok? ==> forall k :: k in c.medicos && k != matricula ==> r.value.medicos[k] == c.medicos[k]
    ensures r.Ok? ==> r.value.pacientes == c.pacientes && r.value.historias == c.historias
    ensures r.Ok? ==> r.value.turnos == c.turnos
  {
    match ObtenerMedicoPorMatricula(c, matricula)
    case Err(err) => Err(err)
    case Ok(m) =>
      match AgregarEspecialidad(m, e)
      case Err(err) => Err(err)
      case Ok(m') => Ok(c.(medicos := c.medicos[matricula := m']))
  }

  /** `agendar_turno`: checks, in this order, the patient, the physician,
      the physician's availability for the specialty on the instant's weekday,
      and that the physician is free at that exact instant; then appends the
      appointment to the global list and to the patient's history. */
  function AgendarTurno(c: Clinica, dni: string, matricula: string, especialidad: string, t: Instante): (r: Result<Clinica>)
    requires HistoriasAlDia(c)
    ensures dni !in c.pacientes ==> r == Err(PacienteNoEncontrado)
    ensures dni in c.pacientes && matricula !in c.medicos ==> r == Err(MedicoNoDisponible)
    ensures dni in c.pacientes && matricula in c.medicos
            && !Atiende(c.medicos[matricula], especialidad, DiaSemanaEnEspanol(t))
            ==> r == Err(MedicoNoDisponible)
    ensures dni in c.pacientes && matricula in c.medicos
            && Atiende(c.medicos[matricula], especialidad, DiaSemanaEnEspanol(t))
            && Ocupado(c.turnos, matricula, t)
            ==> r == Err(TurnoOcupado)
    ensures r.Ok? ==> dni in c.pacientes && matricula in c.medicos && !Ocupado(c.turnos, matricula, t)
    ensures r.Ok? ==> Atiende(c.medicos[matricula], especialidad, DiaSemanaEnEspanol(t))
    ensures r.Ok? ==>
      var turno := Turno(c.pacientes[dni], matricula, t, especialidad);
      && r.value.turnos == c.turnos + [turno]
      && r.value.historias.Keys == c.historias.Keys
      && r.value.historias[dni] == AgregarTurno(c.historias[dni], turno)
      && (forall k :: k in c.historias && k != dni ==> r.value.historias[k] == c.historias[k])
      && r.value.pacientes == c.pacientes && r.value.medicos == c.medicos
  {
    if dni !in c.pacientes then Err(PacienteNoEncontrado)
    else if matricula !in c.medicos then Err(MedicoNoDisponible)
    else
      var medico := c.medicos[matricula];
      var paciente := c.pacientes[dni];
      var dia := DiaSemanaEnEspanol(t);
      if !Atiende(medico, especialidad, dia) then Err(MedicoNoDisponible)
      else if Ocupado(c.turnos, matricula, t) then Err(TurnoOcupado)
      else
        match NuevoTurno(paciente, matricula, t, especialidad)
        case Err(err) => Err(err)
        case Ok(turno) =>
          Ok(c.(turnos := c.turnos + [turno],
                historias := c.historias[dni := AgregarTurno(c.historias[dni], turno)]))
  }

  /** `agendar_turno` as written: after the patient and licence checks it
      reads `medico._Medico__especialidades__`, but the physician's list is
      stored under `__especialidades__` (a name ending in two underscores
      is not mangled), so that read raises AttributeError before anything
      is stored. No booking ever succeeds. */
  function AgendarTurnoComoEscrito(c: Clinica, dni: string, matricula: string, especialidad: string, t: Instante): (r: Result<Clinica>)
    ensures r.Err?
    ensures dni !in c.pacientes ==> r.error == PacienteNoEncontrado
    ensures dni in c.pacientes && matricula !in c.medicos ==> r.error == MedicoNoDisponible
    ensures dni in c.pacientes && matricula in c.medicos ==> r.error == AtributoInexistente
  {
    if dni !in c.pacientes then Err(PacienteNoEncontrado)
    else if matricula !in c.medicos then Err(MedicoNoDisponible)
    else Err(AtributoInexistente)
  }

  /** `emitir_receta`: checks the patient, then the physician, then that the
      medicine list is not empty; then appends the prescription to that
      patient's history only. */
  function EmitirReceta(c: Clinica, dni: string, matricula: string, medicamentos: seq<string>): (r: Result<Clinica>)
    requires HistoriasAlDia(c)
    ensures r.Ok? <==> dni in c.pacientes && matricula in c.medicos && medicamentos != []
    ensures dni !in c.pacientes ==> r == Err(PacienteNoEncontrado)
    ensures dni in c.pacientes && matricula !in c.medicos ==> r == Err(MedicoNoDisponible)
    ensures dni in c.pacientes && matricula in c.medicos && medicamentos == []
            ==> r == Err(RecetaInvalida)
    ensures r.Ok? ==>
      var receta := Receta(c.pacientes[dni], matricula, medicamentos);
      && r.value.historias.Keys == c.historias.Keys
      && r.value.historias[dni] == AgregarReceta(c.historias[dni], receta)
      && (forall k :: k in c.historias && k != dni ==> r.value.historias[k] == c.historias[k])
      && r.value.turnos == c.turnos
      && r.value.pacientes == c.pacientes && r.value.medicos == c.medicos
  {
    if dni !in c.pacientes then Err(PacienteNoEncontrado)
    else if matricula !in c.medicos then Err(MedicoNoDisponible)
    else if medicamentos == [] then Err(RecetaInvalida)
    else
      var paciente := c.pacientes[dni];
      match NuevaReceta(paciente, matricula, medicamentos)
      case Err(err) => Err(err)
      case Ok(receta) =>
        Ok(c.(historias := c.historias[dni := AgregarReceta(c.historias[dni], receta)]))
  }

  /** `obtener_historia_clinica`. */
  function ObtenerHistoriaClinica(c: Clinica, dni: string): (r: Result<HistoriaClinica>)
    ensures r.Err? <==> dni !in c.historias
    ensures r.Err? ==> r.error == PacienteNoEncontrado
    ensures r.Ok? ==> r.value == c.historias[dni]
    ensures r.Ok? && Valid(c) ==>
              dni in c.pacientes && r.value.paciente == c.pacientes[dni]
              && r.value.turnos == TurnosDe(c.turnos, dni)
  {
    if dni !in c.historias then Err(PacienteNoEncontrado)
    else Ok(c.historias[dni])
  }
}
