# Clinic registry and booking engine — a Dafny model

This project models the core of a single-clinic registry (`src/modelo.py`).
The registry records patients by DNI and physicians by licence (matrícula).
It keeps one medical history (historia clínica) per patient and a global list
of appointments (turnos). It books appointments and issues prescriptions
(recetas).

A physician has an ordered list of specialties (especialidades). Each
specialty is a name plus the weekday names on which it is practised. A
booking is accepted only when all of these hold:

- the patient is registered;
- the physician is registered;
- one of the physician's specialties has the requested name (ignoring letter
  case) and covers the weekday of the requested instant;
- the physician has no other appointment at exactly that instant.

The model is functional. Every entity is an immutable datatype. The registry
`Clinicas.Clinica` is a record of three maps and a sequence. Every operation is
a pure function that returns `Ok(new registry)` or `Err(error)`. There is one
error constructor per exception class of the source, plus `ValorInvalido` for
`ValueError` and `AtributoInexistente` for the `AttributeError` of
`src/modelo.py:164`. A failed operation returns no registry, so it changes nothing.
The predicate `Clinicas.Valid` is the registry invariant, and module
`Invariantes` proves that every operation preserves it:

- every stored key matches the record stored under it;
- patient keys and history keys are the same set;
- every history equals its patient's share of the global appointment list,
  in order;
- every appointment names a registered patient, and a registered physician who
  offers its specialty on its weekday;
- no two appointments share a licence and an instant;
- every registered physician has non-empty fields and specialty names that are
  pairwise distinct ignoring letter case.

Modules, leaf first:

- `Texto`: ASCII model of `str.lower`, and the blank test `not s.strip()`.
- `Resultados`: the error kinds, `Result` and `Option`.
- `Calendario`: instants, weekday index, Spanish weekday names.
- `Especialidades`, `Medicos`, `Registros`: the entity records and their
  constructors and operations.
- `Clinicas`: the registry operations.
- `Invariantes`: invariant preservation and the booking success condition.
- `Escenario`: the unit-test scenario from `tests/test_modelo.py`, restated as
  lemmas.

Modelling decisions:

- **Instants.** An instant is a natural number of minutes since 0001-01-01
  00:00 of the proleptic Gregorian calendar. That day is a Monday, so
  `weekday()` is the day count modulo 7. `Calendario.FechaHora` converts a
  calendar date to an instant. The scenario proves that 2025-06-09 is a
  Monday. Seconds and microseconds are not modelled: the command-line front
  end parses instants with `%H:%M` (`src/cli.py:46`) and the tests use whole
  minutes. Two source instants in the same minute that differ in seconds are
  distinct slots there but one slot here.
- **Physician references.** An appointment or prescription records the
  physician's licence. In the source it holds the physician object. The
  licence never changes, and it is the only part of the physician the
  registry reads back from an appointment.
- **Physicians change after registration.** The registry stores the physician
  object itself. So a caller that fetches a physician with
  `obtener_medico_por_matricula` and calls `agregar_especialidad` on it changes
  the registered physician (`src/cli.py:50-54`).
  `Clinicas.AgregarEspecialidadRegistrada` models that sharing explicitly.
- **Weekday lists.** Days are stored as the source stores them: a list in
  input order, duplicates kept, lower-cased but not trimmed. They are not
  normalised into a set. A specialty given `" lunes"` therefore never matches
  a Monday.
- **Booking as intended.** `Clinicas.AgendarTurno` and the lemmas about it
  model the booking engine as evidently intended: the availability check
  reads the physician's specialty list. The code as written reads a
  misspelled attribute and can never book; see "## Findings" and
  `Clinicas.AgendarTurnoComoEscrito`.
- **The unused `ValueError` in `Turno`.** The `Turno` constructor can raise
  `ValueError` only for an empty specialty name. Inside a booking that error
  cannot fire, because a specialty name already matched the request, and
  `Invariantes.AgendarTurnoExito` proves this.

## Model

| member | source | states |
|---|---|---|
| Texto.Lower | src/modelo.py:30 | lower-casing preserves length and folds each character on its own (ASCII letters only) |
| Texto.Blank | src/modelo.py:30 | the scan of `not d.strip()` is true iff every character is one Python strips as white space |
| Texto.LowerKeepsBlank | src/modelo.py:30 | a day entry is blank exactly when its lower-cased form is, so filtering before or after lower-casing agrees |
| Calendario.DiaDeLaSemana | src/modelo.py:197 | the weekday index of an instant is always in 0..6 |
| Calendario.DiaSiguiente | src/modelo.py:197 | the next day has the next weekday index, with Sunday wrapping to Monday |
| Calendario.DiaSemanaEnEspanol | src/modelo.py:194-197 | every instant maps to one of the seven Spanish weekday names |
| Calendario.NombreDiaInyectivo | src/modelo.py:196-197 | the index-to-name mapping is total on 0..6 and injective; 0 is "lunes" and 6 is "domingo" |
| Calendario.NombreDiaEnMinusculas | src/modelo.py:196 | the weekday names are already lower-case, so the day check's own lower-casing leaves them unchanged |
| Especialidades.NormalizarDias | src/modelo.py:30 | the normalised list is never longer than the input; its contents are stated by `NormalizarDiasMiembros` and its order by `NormalizarDiasConcat` |
| Especialidades.NormalizarDiasMiembros | src/modelo.py:30-31 | the stored days are exactly the lower-cased non-blank entries; each is non-blank and lower-case; the list is empty iff every entry is blank |
| Especialidades.NormalizarDiasConcat | src/modelo.py:30 | normalising works entry by entry (normalising a concatenation concatenates the parts), so the kept days stay in input order |
| Especialidades.NuevaEspecialidad | src/modelo.py:26-32 | succeeds iff the name is non-empty and some entry is non-blank; otherwise fails with EspecialidadInvalida; a built specialty keeps its name and stores exactly the normalised days (`NormalizarDias`), which are non-empty, non-blank and lower-case |
| Especialidades.VerificarDia | src/modelo.py:37-38 | for a valid specialty, a query day is accepted iff some stored day equals it ignoring letter case; a valid specialty never accepts a blank query |
| Especialidades.VerificarDiaNueva | src/modelo.py:37-38 | for a constructed specialty, a query day is accepted iff some non-blank input entry equals it ignoring letter case |
| Medicos.NuevoMedico | src/modelo.py:45-50 | succeeds iff name and licence are non-empty (ValueError otherwise); the physician starts with no specialties and satisfies the physician invariant |
| Medicos.TieneTipo | src/modelo.py:53 | the duplicate scan is true iff some specialty of the list has the given name ignoring letter case |
| Medicos.AgregarEspecialidad | src/modelo.py:52-55 | fails with RegistroDuplicado iff a specialty with the same name ignoring case exists; otherwise appends exactly one element at the end and keeps name and licence |
| Medicos.AgregarEspecialidadValido | src/modelo.py:52-55 | adding a valid specialty keeps the specialty names pairwise distinct ignoring case |
| Medicos.AgregarEspecialidadDuplicada | src/modelo.py:53-54 | after a specialty is added, any specialty whose name differs only in letter case is refused with RegistroDuplicado |
| Medicos.PrimeraParaDia | src/modelo.py:61-62 | returns the index of the first specialty covering the day; no earlier specialty covers it; it returns the list length when none does |
| Medicos.EspecialidadParaDia | src/modelo.py:60-64 | returns None iff no specialty covers the day; otherwise returns the name of the first covering specialty in list order |
| Medicos.AtiendeEnCaracterizado | src/modelo.py:164 | the scan behind `any(...)` is true iff some specialty has the requested name ignoring case and covers the day |
| Medicos.Atiende | src/modelo.py:164 | the availability test holds iff some specialty has the requested name ignoring case and accepts the day |
| Medicos.AtiendeEspecialidadParaDia | src/modelo.py:164 | the booking engine's availability test agrees with `obtener_especialidad_para_dia`: availability implies a specialty for that day, and the returned name is one the physician is available for |
| Registros.NuevoPaciente | src/modelo.py:12-17 | succeeds iff name, DNI and birth date are all non-empty; otherwise fails with ValueError; the fields are kept |
| Registros.NuevoTurno | src/modelo.py:71-77 | succeeds iff the specialty name is non-empty (patient, physician and instant are always present); the fields are kept |
| Registros.NuevaReceta | src/modelo.py:89-94 | succeeds iff the medicine list is non-empty, otherwise fails with RecetaInvalida; the fields are kept |
| Registros.NuevaHistoria | src/modelo.py:102-107 | a new history belongs to its patient and has no appointments or prescriptions |
| Registros.AgregarTurno | src/modelo.py:109-110 | appends exactly one appointment at the end; the earlier ones and the prescriptions are unchanged |
| Registros.AgregarReceta | src/modelo.py:112-113 | appends exactly one prescription at the end; the earlier ones and the appointments are unchanged |
| Clinicas.TurnosDe | src/modelo.py:172 | a patient's share of the global appointment list is no longer than the list and holds only that patient's appointments |
| Clinicas.TurnosDeCompleto | src/modelo.py:171-172 | every appointment of the global list is in its own patient's share |
| Clinicas.Ocupado | src/modelo.py:167-169 | the conflict loop finds a clash iff some appointment has the same licence and exactly the same instant |
| Clinicas.Valid | src/modelo.py:126-142 | the registry invariant (keys match records, patient keys equal history keys, histories equal each patient's share, appointments registered and available, no double booking); in a valid registry every booked appointment appears in its patient's history |
| Clinicas.Vacia | src/modelo.py:127-131 | the new registry is empty and satisfies the invariant |
| Clinicas.AgregarPaciente | src/modelo.py:133-137 | fails with RegistroDuplicado iff the DNI is registered; otherwise adds the patient and an empty history under that DNI, changes nothing else, and keeps patient keys equal to history keys |
| Clinicas.AgregarMedico | src/modelo.py:139-142 | fails with RegistroDuplicado iff the licence is registered; otherwise adds the physician under its licence and changes nothing else |
| Clinicas.ObtenerMedicoPorMatricula | src/modelo.py:150-153 | fails with MedicoNoDisponible iff the licence is unknown; otherwise returns the stored physician, which on a valid registry carries that licence and is valid |
| Clinicas.AgregarEspecialidadRegistrada | src/cli.py:50-54 | fails with MedicoNoDisponible for an unknown licence and with RegistroDuplicado for a duplicate name; otherwise that physician is the stored one with the specialty appended, and nothing else in the registry changes |
| Clinicas.AgendarTurno | src/modelo.py:155-172 | checks run in order: PacienteNoEncontrado, then MedicoNoDisponible for the licence, then MedicoNoDisponible for availability, then TurnoOcupado; success appends one appointment to the global list and to that patient's history, and nothing else changes |
| Clinicas.AgendarTurnoComoEscrito | src/modelo.py:155-164 | the booking engine as written: PacienteNoEncontrado, then MedicoNoDisponible, and otherwise always AttributeError from the attribute read at line 164; it never books |
| Clinicas.EmitirReceta | src/modelo.py:177-187 | succeeds iff patient and physician are registered and the list is non-empty; errors in order PacienteNoEncontrado, MedicoNoDisponible, RecetaInvalida; success appends one prescription to that patient's history only, and leaves the appointment list untouched |
| Clinicas.ObtenerHistoriaClinica | src/modelo.py:189-192 | fails with PacienteNoEncontrado iff the DNI has no history; otherwise returns the stored history, which on a valid registry belongs to that patient and lists exactly the patient's appointments in booking order |
| Invariantes.TurnosDeAgregar | src/modelo.py:171-172 | appending an appointment to the global list extends only its own patient's share, by exactly that appointment |
| Invariantes.TurnosDeAjeno | src/modelo.py:137 | a DNI that no appointment mentions has an empty share of the appointment list |
| Invariantes.AtiendeCreciente | src/modelo.py:55 | adding a specialty never withdraws a physician's availability |
| Invariantes.AgregarPacienteValido | src/modelo.py:133-137 | registering a patient preserves the registry invariant |
| Invariantes.AgregarMedicoValido | src/modelo.py:139-142 | registering a valid physician preserves the registry invariant |
| Invariantes.AgregarEspecialidadRegistradaValido | src/modelo.py:52-55 | adding a valid specialty to a registered physician preserves the registry invariant, including every booked appointment's availability |
| Invariantes.SinTurnosRepetidosAgregar | src/modelo.py:167-171 | appending an appointment whose slot no appointment holds keeps every slot unique |
| Invariantes.RecetasRegistradasMarco | src/modelo.py:187 | prescriptions stay registered when histories keep their patient and prescriptions and no physician is removed |
| Invariantes.HistoriasCoherentesAgregarTurno | src/modelo.py:171-172 | appending an appointment to the global list and to its own patient's history keeps every history equal to its patient's share |
| Invariantes.ValidAgregarTurno | src/modelo.py:170-172 | appending a registered appointment for a free slot to both lists preserves the registry invariant |
| Invariantes.AgendarTurnoValido | src/modelo.py:155-172 | a successful booking preserves the invariant: no two appointments share licence and instant, and histories agree with the global list |
| Invariantes.EmitirRecetaValido | src/modelo.py:177-187 | issuing a prescription preserves the registry invariant |
| Invariantes.AgendarTurnoExito | src/modelo.py:155-170 | on a valid registry, booking succeeds iff the patient is known, the licence is known, a specialty matches the name ignoring case and holds the weekday, and no appointment has that licence and instant; the Turno ValueError never fires |
| Invariantes.AgendarTurnoRepetido | src/modelo.py:167-169 | after a successful booking, booking the same physician at the same instant fails with TurnoOcupado once the earlier checks pass; the first booking added exactly one appointment |
| Invariantes.AgendarTurnoComoEscritoDifiere | src/modelo.py:155-165 | the engine as written agrees with the intended one iff the request fails the patient or licence check |
| Invariantes.EmitirRecetaHistoria | src/modelo.py:186-187 | after a successful prescription the history query returns the earlier prescriptions followed by exactly the new one, with the appointments unchanged |
| Invariantes.ObtenerHistoriaClinicaValido | src/modelo.py:189-192 | on a valid registry the history query succeeds iff the DNI is a registered patient |
| Invariantes.HistoriaDePacienteNuevo | src/modelo.py:136-137 | right after registration the patient's history exists and is empty |
| Invariantes.MedicoNuevoEncontrado | src/modelo.py:150-153 | right after registration the licence lookup returns the registered physician |
| Escenario.Preparacion | tests/test_modelo.py:10-17 | the test set-up builds the expected patient, specialty, physician and registry, and that registry is valid |
| Escenario.Dias | tests/test_modelo.py:32-39 | 2025-06-09 is a Monday ("lunes") and 2025-06-10 a Tuesday ("martes") |
| Escenario.Duplicados | tests/test_modelo.py:19-29 | re-registering DNI "12345678", licence "M123", or specialty "Pediatría" is refused with RegistroDuplicado |
| Escenario.Reservas | tests/test_modelo.py:31-47 | the Monday booking succeeds with one appointment for "M123"; the Tuesday one fails with MedicoNoDisponible; rebooking the Monday slot fails with TurnoOcupado |
| Escenario.ReservaComoEscrita | tests/test_modelo.py:31-36 | the Monday booking of the test fails with AttributeError in the engine as written, and succeeds in the intended engine |
| Escenario.Recetas | tests/test_modelo.py:49-60 | one prescription lands in the history; an empty list fails with RecetaInvalida; an unknown DNI has no history |

## Findings

| source | as written | input that shows it | evidently intended | confidence | as-written member | corrected member |
|---|---|---|---|---|---|---|
| src/modelo.py:164 | reads `medico._Medico__especialidades__`, but line 50 stores the list as `__especialidades__`; a name ending in two underscores is not mangled, so that attribute does not exist and the read raises AttributeError on every request past the licence check | the Monday booking of tests/test_modelo.py:33 ("12345678", "M123", "Pediatría", 2025-06-09 10:00) | scan the physician's own specialty list for a matching name that covers the weekday | high; not executed | Clinicas.AgendarTurnoComoEscrito, Escenario.ReservaComoEscrita, Invariantes.AgendarTurnoComoEscritoDifiere | Clinicas.AgendarTurno, Invariantes.AgendarTurnoExito |

## Left out

- Texto.Lower: folds only ASCII A–Z. Python's `str.lower` also folds non-ASCII capitals (for example "MIÉRCOLES" becomes "miércoles"), and the full Unicode case tables are not modelled.
- Clinicas.AgendarTurno: requires that patient keys equal history keys. Without that, the source appends to the global list (line 171) and only then raises `KeyError` on the history lookup (line 172). Every registry the operations build satisfies the requirement, so that path is not modelled.
- Clinicas.EmitirReceta: requires that patient keys equal history keys. Without that, the source raises `KeyError` at line 187 before any state changes. Every registry the operations build satisfies the requirement, so that path is not modelled.
- Clinicas.ObtenerHistoriaClinica and the physician listing: the source returns the live `HistoriaClinica` (`src/modelo.py:192`) and the live `Medico` objects (line 148), so a caller could append to a history or change a physician without the registry's checks and break `Clinicas.Valid`. No caller in the command-line front end or the tests does this; the model returns values, and this sharing is not modelled (except the specialty update of `Clinicas.AgregarEspecialidadRegistrada`).
- Clinicas.RecetaRegistrada: states that a stored prescription's medicine list is non-empty. The source's `Receta` keeps the caller's list object (line 94), so a caller that later empties that list also empties the stored prescription. Immutable sequences drop this sharing; the registry never reads the list back.
- `Receta`'s `datetime.now()` issue time: a wall-clock read, so it is left out, and prescriptions carry no timestamp.
- The `__str__` renderings of every class: presentation only.
- `obtener_pacientes`, `obtener_medicos` and the two `obtener_turnos` accessors: they return copies of the stored collections in dict insertion order. Maps carry no insertion order, and immutable values need no defensive copies.
- `isinstance(…, list)` checks: the typed model always passes sequences.
- The `not paciente` / `not medico` checks in `Turno`, `Receta` and `HistoriaClinica`: objects are always truthy, so these checks never fire and are not modelled.
- Python `datetime` internals: instants are minutes since 0001-01-01. Only equality and the weekday are modelled, and calendar dates are converted only for the test scenario.
- `src/cli.py`: the interactive menu, `input`/`print` and text parsing are I/O. Of its option 4 only the lookup-and-add step (`src/cli.py:53`, `:55`) is modelled, as `Clinicas.AgregarEspecialidadRegistrada`, which takes an already built specialty. The menu itself builds the specialty from trimmed days (line 54) after the lookup, so for an unknown licence with all-blank days it reports `MedicoNoDisponible`, while a caller that builds the specialty first gets `EspecialidadInvalida`.
