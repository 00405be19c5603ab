/** A specialty: a name plus the weekday names on which it is practised. */
module Especialidades {
  import opened Texto
  import opened Resultados

  /** `tipo` is the specialty name; `dias` the normalised weekday names. */
  datatype Especialidad = Especialidad(tipo: string, dias: seq<string>)

  /** The weekday list the constructor stores: every non-blank entry,
      lower-cased, in input order. Entries are not trimmed. */
  function NormalizarDias(dias: seq<string>): (r: seq<string>)
    ensures |r| <= |dias|
  {
    if dias == [] then []
    else (if Blank(dias[0]) then [] else [Lower(dias[0])]) + NormalizarDias(dias[1..])
  }

  /** The normalised list holds exactly the lower-cased forms of the
      non-blank entries; each of them is non-blank and already lower-case;
      and it is empty exactly when every entry is blank. */
  lemma {:induction false} NormalizarDiasMiembros(dias: seq<string>)
    ensures forall i :: 0 <= i < |dias| && !Blank(dias[i]) ==> Lower(dias[i]) in NormalizarDias(dias)
    ensures forall d :: d in NormalizarDias(dias) ==>
              exists i :: 0 <= i < |dias| && !Blank(dias[i]) && d == Lower(dias[i])
    ensures forall d :: d in NormalizarDias(dias) ==> !Blank(d) && Lower(d) == d
    ensures NormalizarDias(dias) == [] <==> forall i :: 0 <= i < |dias| ==> Blank(dias[i])
  {
    if dias != [] {
      var resto := dias[1..];
      NormalizarDiasMiembros(resto);
      LowerKeepsBlank(dias[0]);
      LowerIdempotent(dias[0]);
      assert forall i :: 1 <= i < |dias| ==> dias[i] == resto[i - 1];
    }
  }

  /** Normalisation works entry by entry: normalising a concatenation is
      concatenating the normalised parts, so the relative order of the kept
      days is the order they were given in. */
  lemma {:induction false} NormalizarDiasConcat(a: seq<string>, b: seq<string>)
    ensures NormalizarDias(a + b) == NormalizarDias(a) + NormalizarDias(b)
    decreases |a|
  {
    if a == [] {
      assert a + b == b;
    } else {
      assert (a + b)[0] == a[0];
      assert (a + b)[1..] == a[1..] + b;
      NormalizarDiasConcat(a[1..], b);
    }
  }

  /** What the constructor guarantees of every specialty it builds. */
  predicate EspecialidadValida(e: Especialidad) {
    && e.tipo != []
    && e.dias != []
    && forall j :: 0 <= j < |e.dias| ==> !Blank(e.dias[j]) && Lower(e.dias[j]) == e.dias[j]
  }

  /** `Especialidad(tipo, dias)`: fails when the name is empty, the list is
      empty, or every entry is blank. */
  function NuevaEspecialidad(tipo: string, dias: seq<string>): (r: Result<Especialidad>)
    ensures r.Ok? <==> tipo != [] && exists i :: 0 <= i < |dias| && !Blank(dias[i])
    ensures r.Err? ==> r.error == EspecialidadInvalida
    ensures r.Ok? ==> r.value.tipo == tipo && EspecialidadValida(r.value)
    ensures r.Ok? ==> r.value.dias == NormalizarDias(dias)
  {
    if tipo == [] || dias == [] then Err(EspecialidadInvalida)
    else
      var normalizados := NormalizarDias(dias);
      NormalizarDiasMiembros(dias);
      if normalizados == [] then Err(EspecialidadInvalida)
      else Ok(Especialidad(tipo, normalizados))
  }

  /** `verificar_dia`: is the lower-cased query one of the stored days?
      The query's letter case never matters, and a valid specialty never
      accepts a blank query. */
  predicate VerificarDia(e: Especialidad, dia: string): (b: bool)
    ensures EspecialidadValida(e) ==>
              (b <==> exists j :: 0 <= j < |e.dias| && Lower(e.dias[j]) == Lower(dia))
    ensures EspecialidadValida(e) && b ==> !Blank(dia)
  {
    LowerKeepsBlank(dia);
    Lower(dia) in e.dias
  }

  /** For a specialty built by the constructor, a day is accepted exactly
      when some non-blank input entry equals it up to letter case. */
  lemma VerificarDiaNueva(tipo: string, dias: seq<string>, dia: string)
    requires NuevaEspecialidad(tipo, dias).Ok?
    ensures VerificarDia(NuevaEspecialidad(tipo, dias).value, dia) <==>
              exists i :: 0 <= i < |dias| && !Blank(dias[i]) && Lower(dias[i]) == Lower(dia)
  {
    var e := NuevaEspecialidad(tipo, dias).value;
    assert e.dias == NormalizarDias(dias);
    NormalizarDiasMiembros(dias);
  }
}
