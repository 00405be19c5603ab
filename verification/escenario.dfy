/** The unit-test scenario of the clinic: patient "12345678", physician
    "M123" practising "Pediatría" on Mondays and Wednesdays. */
module Escenario {
  import opened Texto
  import opened Resultados
  import opened Calendario
  import opened Especialidades
  import opened Medicos
  import opened Registros
  import opened Clinicas

  const Juan: Paciente := Paciente("Juan Perez", "12345678", "01/01/1990")

  const Pediatria: Especialidad := Especialidad("Pediatría", ["lunes", "miércoles"])

  const Gomez: Medico := Medico("Dra. Gomez", "M123", [Pediatria])

  /** 2025-06-09 10:00, a Monday, and the next day at the same time. */
  const LunesDiez: Instante := FechaHora(2025, 6, 9, 10, 0)
  const MartesDiez: Instante := FechaHora(2025, 6, 10, 10, 0)

  /** The registry after the set-up steps. */
  const Inicial: Clinica :=
    Clinica(map["12345678" := Juan], map["M123" := Gomez], [],
            map["12345678" := NuevaHistoria(Juan)])

  /** The set-up steps build the records and the registry above, and that
      registry is valid. */
  lemma Preparacion()
    ensures NuevoPaciente("Juan Perez", "12345678", "01/01/1990") == Ok(Juan)
    ensures NuevaEspecialidad("Pediatría", ["lunes", "miércoles"]) == Ok(Pediatria)
    ensures NuevoMedico("Dra. Gomez", "M123").Ok?
    ensures AgregarEspecialidad(NuevoMedico("Dra. Gomez", "M123").value, Pediatria) == Ok(Gomez)
    ensures AgregarPaciente(Vacia(), Juan).Ok?
    ensures AgregarMedico(AgregarPaciente(Vacia(), Juan).value, Gomez) == Ok(Inicial)
    ensures Valid(Inicial)
  {
    assert Lower("lunes") == "lunes";
    assert Lower("miércoles") == "miércoles";
    assert !Blank("lunes") by { assert !IsSpace("lunes"[0]); }
    assert !Blank("miércoles") by { assert !IsSpace("miércoles"[0]); }
    assert ["lunes", "miércoles"][1..] == ["miércoles"];
    assert ["miércoles"][1..] == [];
    assert NormalizarDias(["lunes", "miércoles"]) == ["lunes", "miércoles"];
    assert EspecialidadValida(Pediatria);
    assert MedicoValido(Gomez);
  }

  /** The calendar anchor: 2025-06-09 is a Monday and 2025-06-10 a Tuesday. */
  lemma Dias()
    ensures DiaSemanaEnEspanol(LunesDiez) == "lunes"
    ensures DiaSemanaEnEspanol(MartesDiez) == "martes"
  {
  }

  /** Registering the same DNI, licence or specialty name again is refused. */
  lemma Duplicados()
    ensures AgregarPaciente(Inicial, Paciente("Otro", "12345678", "02/02/2000")) == Err(RegistroDuplicado)
    ensures AgregarMedico(Inicial, Medico("Otra", "M123", [])) == Err(RegistroDuplicado)
    ensures NuevaEspecialidad("Pediatría", ["viernes"]).Ok?
    ensures AgregarEspecialidad(Gomez, NuevaEspecialidad("Pediatría", ["viernes"]).value) == Err(RegistroDuplicado)
  {
    assert !Blank("viernes") by { assert !IsSpace("viernes"[0]); }
    assert MismoTipo(Gomez.especialidades[0].tipo, "Pediatría");
  }

  /** Monday succeeds with one appointment for "M123"; Tuesday is refused;
      the same Monday slot cannot be booked twice. */
  lemma Reservas()
    ensures AgendarTurno(Inicial, "12345678", "M123", "Pediatría", LunesDiez).Ok?
    ensures var c := AgendarTurno(Inicial, "12345678", "M123", "Pediatría", LunesDiez).value;
      && |c.turnos| == 1 && c.turnos[0].matricula == "M123"
      && |c.historias["12345678"].turnos| == 1
      && AgendarTurno(c, "12345678", "M123", "Pediatría", LunesDiez) == Err(TurnoOcupado)
    ensures AgendarTurno(Inicial, "12345678", "M123", "Pediatría", MartesDiez) == Err(MedicoNoDisponible)
  {
    Dias();
    assert Lower("lunes") == "lunes";
    assert Lower("martes") == "martes";
    assert Lower("miércoles") == "miércoles";
    assert Atiende(Gomez, "Pediatría", "lunes") by {
      assert VerificarDia(Gomez.especialidades[0], "lunes");
    }
    assert !Atiende(Gomez, "Pediatría", "martes");
  }

  /** A prescription with one medicine lands in the history; an empty list
      is refused; an unknown DNI has no history. */
  lemma Recetas()
    ensures EmitirReceta(Inicial, "12345678", "M123", ["Paracetamol"]).Ok?
    ensures var c := EmitirReceta(Inicial, "12345678", "M123", ["Paracetamol"]).value;
      ObtenerHistoriaClinica(c, "12345678").Ok?
      && |ObtenerHistoriaClinica(c, "12345678").value.recetas| == 1
    ensures EmitirReceta(Inicial, "12345678", "M123", []) == Err(RecetaInvalida)
    ensures ObtenerHistoriaClinica(Inicial, "99999999") == Err(PacienteNoEncontrado)
  {
  }

  /** The Monday booking of the test, run through the engine as written:
      the intended engine books it, the written one fails with
      AttributeError. */
  lemma ReservaComoEscrita()
    ensures AgendarTurnoComoEscrito(Inicial, "12345678", "M123", "Pediatría", LunesDiez) == Err(AtributoInexistente)
    ensures AgendarTurno(Inicial, "12345678", "M123", "Pediatría", LunesDiez).Ok?
  {
    Reservas();
  }
}
