/** The calendar arithmetic behind JavaScript's `Date` as the date rules use
    it: a date at local midnight, and the whole number of days between two
    such dates. A date is numbered by the days elapsed since 1 January of
    year 1 in the proleptic Gregorian calendar, which is what the
    millisecond difference of two local midnights divided by one day comes
    to when no daylight-saving shift lies between them. */
module Calendario {

  /** A calendar date: year, month 1..12, day of month. */
  datatype Fecha = Fecha(anio: int, mes: int, dia: int)

  predicate EsBisiesto(anio: int) {
    anio % 4 == 0 && (anio % 100 != 0 || anio % 400 == 0)
  }

  function DiasEnMes(anio: int, mes: int): (n: int)
    requires 1 <= mes <= 12
    ensures 28 <= n <= 31
    ensures mes == 2 ==> (n == 29 <==> EsBisiesto(anio))
  {
    if mes == 2 then (if EsBisiesto(anio) then 29 else 28)
    else if mes == 4 || mes == 6 || mes == 9 || mes == 11 then 30
    else 31
  }

  function DiasEnAnio(anio: int): int {
    if EsBisiesto(anio) then 366 else 365
  }

  /** A date that `new Date(y, m - 1, d)` takes as it is: a real calendar
      date whose year is not read as 1900 + y (years 0 to 99 are). */
  predicate EsFechaValida(f: Fecha) {
    f.anio >= 100 && 1 <= f.mes <= 12 && 1 <= f.dia <= DiasEnMes(f.anio, f.mes)
  }

  /** Days of the year before the first of month `mes` (13 stands for the
      end of the year). */
  function DiasAntesDeMes(anio: int, mes: int): nat
    requires 1 <= mes <= 13
  {
    if mes == 1 then 0 else DiasAntesDeMes(anio, mes - 1) + DiasEnMes(anio, mes - 1)
  }

  /** Days from 1 January of year 1 to 1 January of `anio`. */
  function DiasAntesDeAnio(anio: int): nat
    requires anio >= 1
  {
    if anio == 1 then 0 else DiasAntesDeAnio(anio - 1) + DiasEnAnio(anio - 1)
  }

  /** The number of the day, counting 1 January of year 1 as day 0. */
  function DiaNumero(f: Fecha): int
    requires EsFechaValida(f)
  {
    DiasAntesDeAnio(f.anio) + DiasAntesDeMes(f.anio, f.mes) + f.dia - 1
  }

  /** Calendar order: earlier year, or same year and earlier month, or
      same month and earlier day. */
  predicate Antes(a: Fecha, b: Fecha) {
    a.anio < b.anio || (a.anio == b.anio && (a.mes < b.mes || (a.mes == b.mes && a.dia < b.dia)))
  }

  /** Whole days from `desde` to `hasta`: positive when `hasta` is later. */
  function DiferenciaDias(hasta: Fecha, desde: Fecha): (dias: int)
    requires EsFechaValida(hasta) && EsFechaValida(desde)
    ensures dias < 0 <==> Antes(hasta, desde)
    ensures dias == 0 <==> hasta == desde
    ensures dias > 0 <==> Antes(desde, hasta)
  {
    OrdenSegunDiaNumero(hasta, desde);
    OrdenSegunDiaNumero(desde, hasta);
    DiaNumero(hasta) - DiaNumero(desde)
  }

  /** The calendar day after `f`: the next day of the month, the first of
      the next month, or New Year's Day. */
  function Siguiente(f: Fecha): Fecha
    requires EsFechaValida(f)
  {
    if f.dia < DiasEnMes(f.anio, f.mes) then Fecha(f.anio, f.mes, f.dia + 1)
    else if f.mes < 12 then Fecha(f.anio, f.mes + 1, 1)
    else Fecha(f.anio + 1, 1, 1)
  }

  /** The next calendar day is exactly one day on, so a count of `n` days
      is `n` steps of the calendar. */
  lemma SiguienteEsUnDia(f: Fecha)
    requires EsFechaValida(f)
    ensures EsFechaValida(Siguiente(f)) && Antes(f, Siguiente(f))
    ensures DiferenciaDias(Siguiente(f), f) == 1
  {
    if f.dia == DiasEnMes(f.anio, f.mes) && f.mes == 12 {
      AnioCompleto(f.anio);
    }
  }

  /** The date `n` days after `f`. */
  function DiasDespues(f: Fecha, n: nat): (g: Fecha)
    requires EsFechaValida(f)
    ensures EsFechaValida(g)
  {
    if n == 0 then f
    else
      var previo := DiasDespues(f, n - 1);
      SiguienteEsUnDia(previo);
      Siguiente(previo)
  }

  /** Stepping `n` calendar days from `f` reaches a date whose day count
      from `f` is `n`. */
  lemma {:induction false} DiasDespuesCuenta(f: Fecha, n: nat)
    requires EsFechaValida(f)
    ensures DiferenciaDias(DiasDespues(f, n), f) == n
  {
    if n > 0 {
      DiasDespuesCuenta(f, n - 1);
      SiguienteEsUnDia(DiasDespues(f, n - 1));
    }
  }

  lemma {:induction false} DiasAntesDeMesCrece(anio: int, m1: int, m2: int)
    requires 1 <= m1 < m2 <= 13
    ensures DiasAntesDeMes(anio, m1) + DiasEnMes(anio, m1) <= DiasAntesDeMes(anio, m2)
  {
    if m2 > m1 + 1 {
      DiasAntesDeMesCrece(anio, m1, m2 - 1);
    }
  }

  /** The twelve months fill the year exactly. */
  lemma AnioCompleto(anio: int)
    ensures DiasAntesDeMes(anio, 13) == DiasEnAnio(anio)
  {
    assert DiasAntesDeMes(anio, 2) == 31;
    assert DiasAntesDeMes(anio, 3) == 31 + DiasEnMes(anio, 2);
    assert DiasAntesDeMes(anio, 4) == 62 + DiasEnMes(anio, 2);
    assert DiasAntesDeMes(anio, 5) == 92 + DiasEnMes(anio, 2);
    assert DiasAntesDeMes(anio, 6) == 123 + DiasEnMes(anio, 2);
    assert DiasAntesDeMes(anio, 7) == 153 + DiasEnMes(anio, 2);
    assert DiasAntesDeMes(anio, 8) == 184 + DiasEnMes(anio, 2);
    assert DiasAntesDeMes(anio, 9) == 215 + DiasEnMes(anio, 2);
    assert DiasAntesDeMes(anio, 10) == 245 + DiasEnMes(anio, 2);
    assert DiasAntesDeMes(anio, 11) == 276 + DiasEnMes(anio, 2);
    assert DiasAntesDeMes(anio, 12) == 306 + DiasEnMes(anio, 2);
  }

  lemma {:induction false} DiasAntesDeAnioCrece(a1: int, a2: int)
    requires 1 <= a1 < a2
    ensures DiasAntesDeAnio(a1) + DiasEnAnio(a1) <= DiasAntesDeAnio(a2)
  {
    if a2 > a1 + 1 {
      DiasAntesDeAnioCrece(a1, a2 - 1);
    }
  }

  /** A valid date lies inside its year: its day of the year is below the
      length of the year. */
  lemma DiaDelAnioAcotado(f: Fecha)
    requires EsFechaValida(f)
    ensures DiasAntesDeMes(f.anio, f.mes) + f.dia - 1 < DiasEnAnio(f.anio)
  {
    DiasAntesDeMesCrece(f.anio, f.mes, 13);
    AnioCompleto(f.anio);
  }

  /** Day numbers follow calendar order strictly. */
  lemma DiaNumeroCrece(a: Fecha, b: Fecha)
    requires EsFechaValida(a) && EsFechaValida(b) && Antes(a, b)
    ensures DiaNumero(a) < DiaNumero(b)
  {
    if a.anio < b.anio {
      DiaDelAnioAcotado(a);
      DiasAntesDeAnioCrece(a.anio, b.anio);
    } else if a.mes < b.mes {
      DiasAntesDeMesCrece(a.anio, a.mes, b.mes);
    }
  }

  /** The sign of a day-number difference is the calendar order. */
  lemma OrdenSegunDiaNumero(a: Fecha, b: Fecha)
    requires EsFechaValida(a) && EsFechaValida(b)
    ensures DiaNumero(a) < DiaNumero(b) <==> Antes(a, b)
    ensures DiaNumero(a) == DiaNumero(b) <==> a == b
  {
    if Antes(a, b) {
      DiaNumeroCrece(a, b);
    } else if Antes(b, a) {
      DiaNumeroCrece(b, a);
    }
  }
}
