/** The registry invariant is kept by every operation, and the booking
    engine accepts exactly the requests its four checks let through. */
module Invariantes {
  import opened Texto
  import opened Resultados
  import opened Calendario
  import opened Especialidades
  import opened Medicos
  import opened Registros
  import opened Clinicas

  /** Appending an appointment extends exactly the history of its patient. */
  lemma TurnosDeAgregar(ts: seq<Turno>, t: Turno, dni: string)
    ensures TurnosDe(ts + [t], dni) == TurnosDe(ts, dni) + (if t.paciente.dni == dni then [t] else [])
  {
    assert (ts + [t])[..|ts|] == ts;
  }

  /** A DNI no appointment mentions has an empty appointment history. */
  lemma {:induction false} TurnosDeAjeno(ts: seq<Turno>, dni: string)
    requires forall i :: 0 <= i < |ts| ==> ts[i].paciente.dni != dni
    ensures TurnosDe(ts, dni) == []
    decreases |ts|
  {
    if ts != [] {
      TurnosDeAjeno(ts[..|ts| - 1], dni);
    }
  }

  /** Adding a specialty never withdraws availability. */
  lemma AtiendeCreciente(m: Medico, e: Especialidad, tipo: string, dia: string)
    requires Atiende(m, tipo, dia)
    ensures Atiende(m.(especialidades := m.especialidades + [e]), tipo, dia)
  {
    var i :| 0 <= i < |m.especialidades|
      && MismoTipo(m.especialidades[i].tipo, tipo)
      && VerificarDia(m.especialidades[i], dia);
    assert (m.especialidades + [e])[i] == m.especialidades[i];
  }

  /** Registering a new patient keeps the invariant; in particular the new
      patient's history is empty and agrees with the global list. */
  lemma AgregarPacienteValido(c: Clinica, p: Paciente)
    requires Valid(c)
    requires AgregarPaciente(c, p).Ok?
    ensures Valid(AgregarPaciente(c, p).value)
  {
    var c' := AgregarPaciente(c, p).value;
    forall i | 0 <= i < |c.turnos|
      ensures c.turnos[i].paciente.dni != p.dni
    {
      assert TurnoRegistrado(c, c.turnos[i]);
    }
    TurnosDeAjeno(c.turnos, p.dni);
    forall k | k in c'.historias
      ensures c'.historias[k].turnos == TurnosDe(c'.turnos, k)
      ensures c'.historias[k].paciente == c'.pacientes[k]
    {
    }
    forall k, j | k in c'.historias && 0 <= j < |c'.historias[k].recetas|
      ensures RecetaRegistrada(c', c'.historias[k], c'.historias[k].recetas[j])
    {
      assert k != p.dni;
      assert RecetaRegistrada(c, c.historias[k], c.historias[k].recetas[j]);
    }
    forall i | 0 <= i < |c'.turnos|
      ensures TurnoRegistrado(c', c'.turnos[i])
    {
      assert TurnoRegistrado(c, c.turnos[i]);
    }
  }

  /** Registering a new valid physician keeps the invariant. */
  lemma AgregarMedicoValido(c: Clinica, m: Medico)
    requires Valid(c) && MedicoValido(m)
    requires AgregarMedico(c, m).Ok?
    ensures Valid(AgregarMedico(c, m).value)
  {
    var c' := AgregarMedico(c, m).value;
    forall i | 0 <= i < |c'.turnos|
      ensures TurnoRegistrado(c', c'.turnos[i])
    {
      assert TurnoRegistrado(c, c.turnos[i]);
    }
    forall k, j | k in c'.historias && 0 <= j < |c'.historias[k].recetas|
      ensures RecetaRegistrada(c', c'.historias[k], c'.historias[k].recetas[j])
    {
      assert RecetaRegistrada(c, c.historias[k], c.historias[k].recetas[j]);
    }
  }

  /** Giving a registered physician a further valid specialty keeps the
      invariant, including the availability of every booked appointment. */
  lemma AgregarEspecialidadRegistradaValido(c: Clinica, matricula: string, e: Especialidad)
    requires Valid(c) && EspecialidadValida(e)
    requires AgregarEspecialidadRegistrada(c, matricula, e).Ok?
    ensures Valid(AgregarEspecialidadRegistrada(c, matricula, e).value)
  {
    var c' := AgregarEspecialidadRegistrada(c, matricula, e).value;
    var m := c.medicos[matricula];
    AgregarEspecialidadValido(m, e);
    assert c'.medicos[matricula] == AgregarEspecialidad(m, e).value;
    forall i | 0 <= i < |c'.turnos|
      ensures TurnoRegistrado(c', c'.turnos[i])
    {
      var t := c.turnos[i];
      assert TurnoRegistrado(c, t);
      if t.matricula == matricula {
        AtiendeCreciente(m, e, t.especialidad, DiaSemanaEnEspanol(t.fechaHora));
      }
    }
    forall k, j | k in c'.historias && 0 <= j < |c'.historias[k].recetas|
      ensures RecetaRegistrada(c', c'.historias[k], c'.historias[k].recetas[j])
    {
      assert RecetaRegistrada(c, c.historias[k], c.historias[k].recetas[j]);
    }
  }

  /** A free slot stays unique once it is taken. */
  lemma SinTurnosRepetidosAgregar(ts: seq<Turno>, t: Turno)
    requires SinTurnosRepetidos(ts)
    requires forall i :: 0 <= i < |ts| ==> !(ts[i].matricula == t.matricula && ts[i].fechaHora == t.fechaHora)
    ensures SinTurnosRepetidos(ts + [t])
  {
    var ts' := ts + [t];
    forall i, j | 0 <= i < j < |ts'|
      ensures !(ts'[i].matricula == ts'[j].matricula && ts'[i].fechaHora == ts'[j].fechaHora)
    {
      assert ts'[i] == ts[i];
      if j < |ts| {
        assert ts'[j] == ts[j];
      }
    }
  }

  /** Prescriptions stay registered when histories keep their patients and
      prescriptions and no physician is removed. */
  lemma RecetasRegistradasMarco(c: Clinica, c': Clinica)
    requires RecetasRegistradas(c)
    requires c.medicos.Keys <= c'.medicos.Keys
    requires forall k :: k in c'.historias ==>
               || c'.historias[k].recetas == []
               || (k in c.historias && c'.historias[k].recetas == c.historias[k].recetas
                   && c'.historias[k].paciente == c.historias[k].paciente)
    ensures RecetasRegistradas(c')
  {
    forall k, j | k in c'.historias && 0 <= j < |c'.historias[k].recetas|
      ensures RecetaRegistrada(c', c'.historias[k], c'.historias[k].recetas[j])
    {
      assert RecetaRegistrada(c, c.historias[k], c.historias[k].recetas[j]);
    }
  }

  /** Appending a registered appointment to the global list and to its
      patient's history keeps every history equal to its patient's share. */
  lemma HistoriasCoherentesAgregarTurno(c: Clinica, dni: string, turno: Turno)
    requires HistoriasCoherentes(c) && dni in c.historias && turno.paciente.dni == dni
    ensures HistoriasCoherentes(c.(turnos := c.turnos + [turno],
                                   historias := c.historias[dni := AgregarTurno(c.historias[dni], turno)]))
  {
    var c' := c.(turnos := c.turnos + [turno],
                 historias := c.historias[dni := AgregarTurno(c.historias[dni], turno)]);
    forall k | k in c'.historias
      ensures c'.historias[k].turnos == TurnosDe(c'.turnos, k)
    {
      TurnosDeAgregar(c.turnos, turno, k);
    }
  }

  /** Appending a registered appointment for a free slot to the global list
      and to its patient's history keeps the invariant. */
  lemma ValidAgregarTurno(c: Clinica, dni: string, turno: Turno)
    requires Valid(c)
    requires dni in c.pacientes && turno.paciente == c.pacientes[dni]
    requires TurnoRegistrado(c, turno)
    requires forall i :: 0 <= i < |c.turnos| ==>
               !(c.turnos[i].matricula == turno.matricula && c.turnos[i].fechaHora == turno.fechaHora)
    ensures Valid(c.(turnos := c.turnos + [turno],
                     historias := c.historias[dni := AgregarTurno(c.historias[dni], turno)]))
  {
    var c' := c.(turnos := c.turnos + [turno],
                 historias := c.historias[dni := AgregarTurno(c.historias[dni], turno)]);
    SinTurnosRepetidosAgregar(c.turnos, turno);
    assert turno.paciente.dni == dni;
    HistoriasCoherentesAgregarTurno(c, dni, turno);
    RecetasRegistradasMarco(c, c');
    assert TurnosRegistrados(c') by {
      forall i | 0 <= i < |c'.turnos|
        ensures TurnoRegistrado(c', c'.turnos[i])
      {
        if i < |c.turnos| {
          assert TurnoRegistrado(c, c.turnos[i]);
        }
      }
    }
    assert ClavesCoherentes(c') by {
      assert c'.pacientes == c.pacientes && c'.medicos == c.medicos;
    }
  }

  /** A successful booking keeps the invariant: the new appointment is
      registered, no slot is taken twice, and every history still equals
      its patient's share of the global list. */
  lemma AgendarTurnoValido(c: Clinica, dni: string, matricula: string, especialidad: string, t: Instante)
    requires Valid(c)
    requires AgendarTurno(c, dni, matricula, especialidad, t).Ok?
    ensures Valid(AgendarTurno(c, dni, matricula, especialidad, t).value)
  {
    var turno := Turno(c.pacientes[dni], matricula, t, especialidad);
    assert TurnoRegistrado(c, turno);
    ValidAgregarTurno(c, dni, turno);
  }

  /** Issuing a prescription keeps the invariant. */
  lemma EmitirRecetaValido(c: Clinica, dni: string, matricula: string, medicamentos: seq<string>)
    requires Valid(c)
    requires EmitirReceta(c, dni, matricula, medicamentos).Ok?
    ensures Valid(EmitirReceta(c, dni, matricula, medicamentos).value)
  {
    var c' := EmitirReceta(c, dni, matricula, medicamentos).value;
    forall k, j | k in c'.historias && 0 <= j < |c'.historias[k].recetas|
      ensures RecetaRegistrada(c', c'.historias[k], c'.historias[k].recetas[j])
    {
      if k != dni || j < |c.historias[k].recetas| {
        assert RecetaRegistrada(c, c.historias[k], c.historias[k].recetas[j]);
      }
    }
    forall i | 0 <= i < |c'.turnos|
      ensures TurnoRegistrado(c', c'.turnos[i])
    {
      assert TurnoRegistrado(c, c.turnos[i]);
    }
  }

  /** On a valid registry a booking succeeds exactly when the patient is
      registered, the physician is registered, some specialty of the
      physician has the requested name (up to letter case) and covers the
      instant's weekday, and no appointment holds that physician at that
      exact instant. The empty-specialty check of the appointment record can
      therefore never fire. */
  lemma AgendarTurnoExito(c: Clinica, dni: string, matricula: string, especialidad: string, t: Instante)
    requires Valid(c)
    ensures AgendarTurno(c, dni, matricula, especialidad, t).Ok? <==>
      && dni in c.pacientes
      && matricula in c.medicos
      && (exists i :: 0 <= i < |c.medicos[matricula].especialidades|
            && Lower(c.medicos[matricula].especialidades[i].tipo) == Lower(especialidad)
            && DiaSemanaEnEspanol(t) in c.medicos[matricula].especialidades[i].dias)
      && (forall i :: 0 <= i < |c.turnos| ==>
            !(c.turnos[i].matricula == matricula && c.turnos[i].fechaHora == t))
    ensures AgendarTurno(c, dni, matricula, especialidad, t) != Err(ValorInvalido)
  {
    NombreDiaEnMinusculas(DiaDeLaSemana(t));
    if dni in c.pacientes && matricula in c.medicos {
      var m := c.medicos[matricula];
      if Atiende(m, especialidad, DiaSemanaEnEspanol(t)) {
        var i :| 0 <= i < |m.especialidades|
          && MismoTipo(m.especialidades[i].tipo, especialidad)
          && VerificarDia(m.especialidades[i], DiaSemanaEnEspanol(t));
        assert EspecialidadValida(m.especialidades[i]);
        LowerEmpty(m.especialidades[i].tipo);
        LowerEmpty(especialidad);
      }
    }
  }

  /** Booking the same physician at the same instant a second time fails
      with TurnoOcupado whoever the patient and whichever the specialty, once
      the earlier checks pass; the first booking added exactly one
      appointment. */
  lemma AgendarTurnoRepetido(c: Clinica, dni: string, matricula: string, especialidad: string, t: Instante,
                             dni2: string, especialidad2: string)
    requires HistoriasAlDia(c)
    requires AgendarTurno(c, dni, matricula, especialidad, t).Ok?
    requires dni2 in c.pacientes
    requires Atiende(c.medicos[matricula], especialidad2, DiaSemanaEnEspanol(t))
    ensures HistoriasAlDia(AgendarTurno(c, dni, matricula, especialidad, t).value)
    ensures AgendarTurno(AgendarTurno(c, dni, matricula, especialidad, t).value,
                         dni2, matricula, especialidad2, t) == Err(TurnoOcupado)
    ensures |AgendarTurno(c, dni, matricula, especialidad, t).value.turnos| == |c.turnos| + 1
  {
    var c' := AgendarTurno(c, dni, matricula, especialidad, t).value;
    assert c'.turnos[|c.turnos|].matricula == matricula;
    assert Ocupado(c'.turnos, matricula, t);
  }

  /** On a valid registry the history query fails exactly for an
      unregistered DNI. */
  lemma ObtenerHistoriaClinicaValido(c: Clinica, dni: string)
    requires Valid(c)
    ensures ObtenerHistoriaClinica(c, dni).Ok? <==> dni in c.pacientes
  {
  }

  /** A freshly registered patient has an empty history. */
  lemma HistoriaDePacienteNuevo(c: Clinica, p: Paciente)
    requires AgregarPaciente(c, p).Ok?
    ensures ObtenerHistoriaClinica(AgregarPaciente(c, p).value, p.dni) == Ok(HistoriaClinica(p, [], []))
  {
  }

  /** A freshly registered physician is what the licence lookup returns. */
  lemma MedicoNuevoEncontrado(c: Clinica, m: Medico)
    requires AgregarMedico(c, m).Ok?
    ensures ObtenerMedicoPorMatricula(AgregarMedico(c, m).value, m.matricula) == Ok(m)
  {
  }

  /** After a successful prescription the history query shows the earlier
      prescriptions followed by exactly the new one, and the same
      appointments as before. */
  lemma EmitirRecetaHistoria(c: Clinica, dni: string, matricula: string, medicamentos: seq<string>)
    requires HistoriasAlDia(c)
    requires EmitirReceta(c, dni, matricula, medicamentos).Ok?
    ensures var h := ObtenerHistoriaClinica(EmitirReceta(c, dni, matricula, medicamentos).value, dni);
      && h.Ok?
      && h.value.recetas == c.historias[dni].recetas + [Receta(c.pacientes[dni], matricula, medicamentos)]
      && h.value.turnos == c.historias[dni].turnos
  {
  }

  /** The booking engine as written differs from the intended one on
      exactly the requests that pass the patient and licence checks: there
      the written code always fails with AttributeError, while the intended
      code books, or reports unavailability or a taken slot. */
  lemma AgendarTurnoComoEscritoDifiere(c: Clinica, dni: string, matricula: string, especialidad: string, t: Instante)
    requires HistoriasAlDia(c)
    ensures AgendarTurnoComoEscrito(c, dni, matricula, especialidad, t)
              == AgendarTurno(c, dni, matricula, especialidad, t)
            <==> dni !in c.pacientes || matricula !in c.medicos
  {
  }
}
