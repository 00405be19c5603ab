/** A physician: identity plus an ordered list of specialties whose names
    are pairwise different up to letter case. */
module Medicos {
  import opened Texto
  import opened Resultados
  import opened Especialidades

  datatype Medico = Medico(nombre: string, matricula: string, especialidades: seq<Especialidad>)

  /** `Medico(nombre, matricula)`: both fields are mandatory; the specialty
      list starts empty. */
  function NuevoMedico(nombre: string, matricula: string): (r: Result<Medico>)
    ensures r.Ok? <==> nombre != [] && matricula != []
    ensures r.Err? ==> r.error == ValorInvalido
    ensures r.Ok? ==> r.value.nombre == nombre && r.value.matricula == matricula
    ensures r.Ok? ==> r.value.especialidades == [] && MedicoValido(r.value)
  {
    if nombre == [] || matricula == [] then Err(ValorInvalido)
    else Ok(Medico(nombre, matricula, []))
  }

  /** Specialty names are compared after lower-casing both sides. */
  predicate MismoTipo(a: string, b: string) {
    Lower(a) == Lower(b)
  }

  /** The duplicate test of `agregar_especialidad`: a scan of the list that
      stops at the first specialty whose name matches up to letter case. */
  predicate TieneTipo(es: seq<Especialidad>, tipo: string): (b: bool)
    ensures b <==> exists i :: 0 <= i < |es| && MismoTipo(es[i].tipo, tipo)
  {
    es != [] && (MismoTipo(es[0].tipo, tipo) || TieneTipo(es[1..], tipo))
  }

  /** No two specialties of the list share a name up to letter case. */
  predicate TiposDistintos(es: seq<Especialidad>) {
    forall i, j :: 0 <= i < j < |es| ==> !MismoTipo(es[i].tipo, es[j].tipo)
  }

  /** What the constructor and `agregar_especialidad` guarantee. */
  predicate MedicoValido(m: Medico) {
    && m.nombre != []
    && m.matricula != []
    && TiposDistintos(m.especialidades)
    && forall i :: 0 <= i < |m.especialidades| ==> EspecialidadValida(m.especialidades[i])
  }

  /** `agregar_especialidad`: rejects a name the physician already has (up to
      letter case), otherwise appends the specialty at the end. */
  function AgregarEspecialidad(m: Medico, e: Especialidad): (r: Result<Medico>)
    ensures r.Err? <==> TieneTipo(m.especialidades, e.tipo)
    ensures r.Err? ==> r.error == RegistroDuplicado
    ensures r.Ok? ==> r.value.nombre == m.nombre && r.value.matricula == m.matricula
    ensures r.Ok? ==> |r.value.especialidades| == |m.especialidades| + 1
    ensures r.Ok? ==> r.value.especialidades[..|m.especialidades|] == m.especialidades
    ensures r.Ok? ==> r.value.especialidades[|m.especialidades|] == e
  {
    if TieneTipo(m.especialidades, e.tipo) then Err(RegistroDuplicado)
    else Ok(m.(especialidades := m.especialidades + [e]))
  }

  /** Adding a specialty keeps a physician valid: names stay pairwise
      distinct up to letter case. */
  lemma AgregarEspecialidadValido(m: Medico, e: Especialidad)
    requires MedicoValido(m) && EspecialidadValida(e)
    requires AgregarEspecialidad(m, e).Ok?
    ensures MedicoValido(AgregarEspecialidad(m, e).value)
  {
    var es := AgregarEspecialidad(m, e).value.especialidades;
    forall i, j | 0 <= i < j < |es|
      ensures !MismoTipo(es[i].tipo, es[j].tipo)
    {
      if j == |m.especialidades| {
        assert es[i] == m.especialidades[i];
      }
    }
  }

  /** Once a specialty is in, any specialty whose name differs only in
      letter case is refused and the physician is left as it was. */
  lemma AgregarEspecialidadDuplicada(m: Medico, e: Especialidad, otra: Especialidad)
    requires AgregarEspecialidad(m, e).Ok?
    requires MismoTipo(e.tipo, otra.tipo)
    ensures AgregarEspecialidad(AgregarEspecialidad(m, e).value, otra) == Err(RegistroDuplicado)
  {
    var es := AgregarEspecialidad(m, e).value.especialidades;
    assert es[|m.especialidades|] == e;
  }

  /** Index of the first specialty, in list order, that covers `dia`;
      `|es|` when none does. */
  function PrimeraParaDia(es: seq<Especialidad>, dia: string): (k: nat)
    ensures k <= |es|
    ensures k < |es| ==> VerificarDia(es[k], dia)
    ensures forall j :: 0 <= j < k ==> !VerificarDia(es[j], dia)
  {
    if es == [] then 0
    else if VerificarDia(es[0], dia) then 0
    else 1 + PrimeraParaDia(es[1..], dia)
  }

  /** `obtener_especialidad_para_dia`: the name of the first specialty that
      covers the day, or nothing when no specialty does. */
  function EspecialidadParaDia(m: Medico, dia: string): (r: Option<string>)
    ensures r.None? <==>
              forall j :: 0 <= j < |m.especialidades| ==> !VerificarDia(m.especialidades[j], dia)
    ensures r.Some? ==>
              exists k :: 0 <= k < |m.especialidades|
                && VerificarDia(m.especialidades[k], dia)
                && r.value == m.especialidades[k].tipo
                && forall j :: 0 <= j < k ==> !VerificarDia(m.especialidades[j], dia)
  {
    var k := PrimeraParaDia(m.especialidades, dia);
    if k < |m.especialidades| then Some(m.especialidades[k].tipo) else None
  }

  /** The scan behind `any(...)`: stops at the first specialty with the
      requested name that covers the day. */
  predicate AtiendeEn(es: seq<Especialidad>, tipo: string, dia: string) {
    es != [] && ((MismoTipo(es[0].tipo, tipo) && VerificarDia(es[0], dia)) || AtiendeEn(es[1..], tipo, dia))
  }

  /** The availability test of the booking engine: some specialty has the
      requested name (up to letter case) and covers the day. */
  predicate Atiende(m: Medico, tipo: string, dia: string): (b: bool)
    ensures b <==> exists i :: 0 <= i < |m.especialidades|
                     && MismoTipo(m.especialidades[i].tipo, tipo)
                     && VerificarDia(m.especialidades[i], dia)
  {
    AtiendeEnCaracterizado(m.especialidades, tipo, dia);
    AtiendeEn(m.especialidades, tipo, dia)
  }

  lemma {:induction false} AtiendeEnCaracterizado(es: seq<Especialidad>, tipo: string, dia: string)
    ensures AtiendeEn(es, tipo, dia) <==>
              exists i :: 0 <= i < |es| && MismoTipo(es[i].tipo, tipo) && VerificarDia(es[i], dia)
    decreases |es|
  {
    if es != [] {
      AtiendeEnCaracterizado(es[1..], tipo, dia);
      assert forall i :: 1 <= i < |es| ==> es[i] == es[1..][i - 1];
    }
  }

  /** The booking test agrees with the public query: a physician available
      for some specialty on a day has a specialty for that day, and the name
      the query returns is one the physician is available for. */
  lemma AtiendeEspecialidadParaDia(m: Medico, tipo: string, dia: string)
    ensures Atiende(m, tipo, dia) ==> EspecialidadParaDia(m, dia).Some?
    ensures EspecialidadParaDia(m, dia) == Some(tipo) ==> Atiende(m, tipo, dia)
  {
  }
}
