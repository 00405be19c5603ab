/** Timestamps and the weekday name the booking check compares against.

    A timestamp is an opaque instant: the number of minutes elapsed since
    0001-01-01 00:00 of the proleptic Gregorian calendar (the earliest
    representable `datetime`). That day is a Monday, so the weekday index
    `datetime.weekday()` (0 = Monday … 6 = Sunday) is the day count modulo 7. */
module Calendario {
  import opened Texto

  type Instante = nat

  const MinutosPorDia: nat := 1440

  /** The days of the week in index order, as the registry spells them. */
  const Dias: seq<string> :=
    ["lunes", "martes", "miércoles", "jueves", "viernes", "sábado", "domingo"]

  /** `fecha_hora.weekday()`. */
  function DiaDeLaSemana(t: Instante): (w: nat)
    ensures w < 7
  {
    t / MinutosPorDia % 7
  }

  /** `dias[i]` for a weekday index. */
  function NombreDia(i: nat): (s: string)
    requires i < 7
    ensures s in Dias
  {
    Dias[i]
  }

  /** `obtener_dia_semana_en_espanol`: the Spanish name of the instant's
      weekday. */
  function DiaSemanaEnEspanol(t: Instante): (s: string)
    ensures s in Dias
  {
    NombreDia(DiaDeLaSemana(t))
  }

  /** The seven names are pairwise different, so the mapping from weekday
      index to name is injective; it starts on Monday and ends on Sunday. */
  lemma NombreDiaInyectivo(i: nat, j: nat)
    requires i < 7 && j < 7
    ensures NombreDia(i) == NombreDia(j) <==> i == j
    ensures NombreDia(0) == "lunes" && NombreDia(6) == "domingo"
  {
  }

  /** The names are already lower-case, so lower-casing the weekday name (as
      `verificar_dia` does) leaves it unchanged. */
  lemma NombreDiaEnMinusculas(i: nat)
    requires i < 7
    ensures Lower(NombreDia(i)) == NombreDia(i)
  {
    assert Lower(Dias[i]) == Dias[i];
  }

  /** The day after any instant has the next weekday, wrapping from Sunday
      to Monday. */
  lemma DiaSiguiente(t: Instante)
    ensures DiaDeLaSemana(t + MinutosPorDia) == (DiaDeLaSemana(t) + 1) % 7
  {
    var q := t / MinutosPorDia;
    var r := t % MinutosPorDia;
    assert t + MinutosPorDia == (q + 1) * MinutosPorDia + r;
    assert (t + MinutosPorDia) / MinutosPorDia == q + 1;
  }

  /** Days before the first of each month in a common year (index 1..12). */
  const DiasAntesDelMes: seq<nat> :=
    [0, 0, 31, 59, 90, 120, 151, 181, 212, 243, 273, 304, 334]

  predicate Bisiesto(y: nat) {
    y % 4 == 0 && (y % 100 != 0 || y % 400 == 0)
  }

  /** Proleptic Gregorian ordinal of a date, 0001-01-01 being day 1. */
  function Ordinal(y: nat, m: nat, d: nat): (o: nat)
    requires 1 <= y && 1 <= m <= 12 && 1 <= d <= 31
    ensures o >= 1
  {
    var y1 := y - 1;
    y1 * 365 + y1 / 4 - y1 / 100 + y1 / 400
      + DiasAntesDelMes[m] + (if m > 2 && Bisiesto(y) then 1 else 0) + d
  }

  /** The instant of a calendar date and wall-clock time. */
  function FechaHora(y: nat, m: nat, d: nat, hh: nat, mm: nat): (t: Instante)
    requires 1 <= y && 1 <= m <= 12 && 1 <= d <= 31 && hh < 24 && mm < 60
    ensures t / MinutosPorDia == Ordinal(y, m, d) - 1
  {
    (Ordinal(y, m, d) - 1) * MinutosPorDia + hh * 60 + mm
  }
}
