/** The rules engine proper: the tiered price lookup, the date text
    helpers, the whole-day count to departure and the date eligibility
    classifier, plus the tour label and image lookups. */
module Utilidades {
  import opened Tipos
  import opened Constantes
  import opened Cadenas
  import opened Calendario

  // ---------------------------------------------------------------------
  // Price lookup

  /** `obtenerPrecioPorPersona`: the per-person price for a group of
      `cantidadPax`, the count clamped into the table's range 1..6. */
  function ObtenerPrecioPorPersona(cantidadPax: int): (precio: int)
    ensures cantidadPax < 1 ==> precio == PRECIOS[1]
    ensures cantidadPax > 6 ==> precio == PRECIOS[6]
    ensures 1 <= cantidadPax <= 6 ==> precio == PRECIOS[cantidadPax]
    ensures PRECIOS[6] <= precio <= PRECIOS[1]
  {
    var pax := Min(Max(cantidadPax, 1), 6);
    PRECIOS[pax]
  }

  function Max(a: int, b: int): int { if a >= b then a else b }
  function Min(a: int, b: int): int { if a <= b then a else b }

  /** A larger group never pays more per person. */
  lemma PrecioNoCreciente(a: int, b: int)
    requires a <= b
    ensures ObtenerPrecioPorPersona(a) >= ObtenerPrecioPorPersona(b)
  {
  }

  /** Inside the table, one more occupant lowers the price strictly. */
  lemma PrecioBajaConCadaOcupante(n: int)
    requires 1 <= n < 6
    ensures ObtenerPrecioPorPersona(n + 1) < ObtenerPrecioPorPersona(n)
  {
    PreciosDefinidosYDecrecientes();
  }

  // ---------------------------------------------------------------------
  // Date text

  /** `parsearFecha`: split at '-', read the first three pieces with
      `Number` and build the date. `None` stands for an Invalid Date (a
      piece that is not a number, or fewer than three pieces). The fields
      are kept as read: the month and day overflow that `new Date`
      normalises is left to the callers, which only pass valid dates. */
  function ParsearFecha(fechaString: string): (f: Option<Fecha>)
    ensures var partes := Dividir(fechaString, '-');
            f.Some? <==> |partes| >= 3 && SoloDigitos(partes[0]) && SoloDigitos(partes[1]) && SoloDigitos(partes[2])
    ensures var partes := Dividir(fechaString, '-');
            f.Some? ==> f.value == Fecha(ValorDecimal(partes[0]), ValorDecimal(partes[1]), ValorDecimal(partes[2]))
  {
    var partes := Dividir(fechaString, '-');
    if |partes| < 3 then None
    else
      match (ANumero(partes[0]), ANumero(partes[1]), ANumero(partes[2]))
      case (Num(anio), Num(mes), Num(dia)) => Some(Fecha(anio, mes, dia))
      case _ => None
  }

  /** `formatearFecha`: "YYYY-MM-DD" with month and day padded to two digits. */
  function FormatearFecha(fecha: Fecha): (r: string)
    requires EsFechaValida(fecha)
    ensures ValorDecimal(NatATexto(fecha.anio)) == fecha.anio
    ensures TextoDeTresPiezas(r, NatATexto(fecha.anio), fecha.mes, fecha.dia)
  {
    var a, m, d := EnteroATexto(fecha.anio), RellenarDos(NatATexto(fecha.mes)), RellenarDos(NatATexto(fecha.dia));
    DosCifras(fecha.mes);
    DosCifras(fecha.dia);
    ValorDeNatATexto(fecha.anio);
    PiezasUnidas(a, m, d);
    a + "-" + m + "-" + d
  }

  /** A date text as the date input produces it: four digits without a
      leading zero, '-', two digits, '-', two digits, naming a valid date. */
  predicate EsTextoFecha(s: string) {
    && |s| == 10 && s[4] == '-' && s[7] == '-' && s[0] != '0'
    && SoloDigitos(s[..4]) && SoloDigitos(s[5..7]) && SoloDigitos(s[8..])
    && EsFechaValida(Fecha(ValorDecimal(s[..4]), ValorDecimal(s[5..7]), ValorDecimal(s[8..])))
  }

  /** A date text reads as a date that `new Date` takes without
      normalising it, or as no date at all. */
  predicate SinNormalizar(s: string) {
    ParsearFecha(s).Some? ==> EsFechaValida(ParsearFecha(s).value)
  }

  /** Three numerals joined by '-' parse as the date of their values. */
  lemma ParsearPiezas(a: string, m: string, d: string)
    requires SoloDigitos(a) && SoloDigitos(m) && SoloDigitos(d)
    ensures ParsearFecha(a + ['-'] + m + ['-'] + d)
            == Some(Fecha(ValorDecimal(a), ValorDecimal(m), ValorDecimal(d)))
  {
    SinSeparador(a, '-');
    SinSeparador(m, '-');
    SinSeparador(d, '-');
    DividirTres(a, m, d, '-');
  }

  /** Formatting a date and parsing the text gives the date back. */
  lemma ParsearFormatear(fecha: Fecha)
    requires EsFechaValida(fecha)
    ensures ParsearFecha(FormatearFecha(fecha)) == Some(fecha)
  {
    var a := NatATexto(fecha.anio);
    var m := RellenarDos(NatATexto(fecha.mes));
    var d := RellenarDos(NatATexto(fecha.dia));
    assert FormatearFecha(fecha) == a + ['-'] + m + ['-'] + d;
    ParsearPiezas(a, m, d);
    ValorDeNatATexto(fecha.anio);
    ValorRellenado(fecha.mes);
    ValorRellenado(fecha.dia);
  }

  /** Parsing a well-formed date text and formatting the date gives the
      text back. */
  lemma FormatearParsear(s: string)
    requires EsTextoFecha(s)
    ensures ParsearFecha(s).Some? && EsFechaValida(ParsearFecha(s).value)
    ensures FormatearFecha(ParsearFecha(s).value) == s
  {
    var a, m, d := s[..4], s[5..7], s[8..];
    assert s == a + ['-'] + m + ['-'] + d;
    ParsearPiezas(a, m, d);
    NatATextoDeValor(a);
    RellenadoDeValor(m);
    RellenadoDeValor(d);
  }

  // ---------------------------------------------------------------------
  // Days to departure and the eligibility rules

  /** `obtenerDiasRestantes` on a date: whole days from today's midnight to
      the departure's midnight; NaN for an Invalid Date. */
  function ObtenerDiasRestantes(fechaSalida: Option<Fecha>, hoy: Fecha): (dias: Numero)
    requires EsFechaValida(hoy)
    requires fechaSalida.Some? ==> EsFechaValida(fechaSalida.value)
    ensures dias.NaN? <==> fechaSalida.None?
    ensures dias.Num? ==> (dias.valor < 0 <==> Antes(fechaSalida.value, hoy))
    ensures dias.Num? ==> (dias.valor == 0 <==> fechaSalida.value == hoy)
    ensures dias.Num? ==> dias.valor == DiferenciaDias(fechaSalida.value, hoy)
  {
    match fechaSalida
    case None => NaN
    case Some(destino) => Num(DiferenciaDias(destino, hoy))
  }

  /** `tipo` of `ValidacionResultado`. */
  datatype TipoValidacion = ERROR | CRITICO | URGENTE | ESTANDAR

  /** `ValidacionResultado`: whether the request may proceed, the message
      to show (`null` as `None`) and the band it fell in. */
  datatype ValidacionResultado = ValidacionResultado(valido: bool, error: Option<string>, tipo: TipoValidacion)

  const MENSAJE_PASADO: string := "La fecha no puede ser en el pasado."
  const MENSAJE_CRITICO: string := "Zona Crítica: Salidas en < 72h solo vía WhatsApp."

  function MensajeUrgente(diasRestantes: int): string {
    "Zona Urgente (" + EnteroATexto(diasRestantes) + " días): Requiere mín. 4 personas."
  }

  /** The if-chain of `validarReglasLogistica` once the day count is known.
      A NaN count fails every comparison and falls through to the standard
      band. The minimum group size 4 is written in the rule itself, not
      taken from the configuration. */
  function ClasificarDias(diasRestantes: Numero, cantidadPax: int): (r: ValidacionResultado)
    ensures r.valido <==> r.error.None? && (r.tipo == URGENTE || r.tipo == TipoValidacion.ESTANDAR)
    ensures diasRestantes.NaN? ==> r == ValidacionResultado(true, None, TipoValidacion.ESTANDAR)
    ensures diasRestantes.Num? && diasRestantes.valor < 0 ==>
              r == ValidacionResultado(false, Some(MENSAJE_PASADO), ERROR)
    ensures diasRestantes.Num? && 0 <= diasRestantes.valor <= 2 ==>
              r == ValidacionResultado(false, Some(MENSAJE_CRITICO), CRITICO)
    ensures diasRestantes.Num? && 3 <= diasRestantes.valor <= 5 ==>
              r.tipo == URGENTE && (r.valido <==> cantidadPax >= 4)
    ensures diasRestantes.Num? && 3 <= diasRestantes.valor <= 5 && cantidadPax < 4 ==>
              r.error == Some(MensajeUrgente(diasRestantes.valor))
    ensures diasRestantes.Num? && diasRestantes.valor >= 6 ==> r.valido && r.tipo == TipoValidacion.ESTANDAR
  {
    match diasRestantes
    case NaN => ValidacionResultado(true, None, TipoValidacion.ESTANDAR)
    case Num(dias) =>
      if dias < 0 then ValidacionResultado(false, Some(MENSAJE_PASADO), ERROR)
      else if dias < DIAS_CRITICOS then ValidacionResultado(false, Some(MENSAJE_CRITICO), CRITICO)
      else if dias <= DIAS_URGENTES then
        if cantidadPax < 4 then ValidacionResultado(false, Some(MensajeUrgente(dias)), URGENTE)
        else ValidacionResultado(true, None, URGENTE)
      else ValidacionResultado(true, None, TipoValidacion.ESTANDAR)
  }

  /** `validarReglasLogistica`: classify a departure date text and a group
      size against today. */
  function ValidarReglasLogistica(fechaStr: string, cantidadPax: int, hoy: Fecha): (r: ValidacionResultado)
    requires EsFechaValida(hoy) && SinNormalizar(fechaStr)
    ensures fechaStr == "" ==> r == ValidacionResultado(false, None, ERROR)
    ensures r.valido <==> r.error.None? && (r.tipo == URGENTE || r.tipo == TipoValidacion.ESTANDAR)
    ensures fechaStr != "" && !r.valido ==> r.error.Some?
    ensures fechaStr != "" && ParsearFecha(fechaStr).None? ==>
              r == ValidacionResultado(true, None, TipoValidacion.ESTANDAR)
    ensures fechaStr != "" && ParsearFecha(fechaStr).Some? ==>
              var salida := ParsearFecha(fechaStr).value;
              && r == ClasificarDias(Num(DiferenciaDias(salida, hoy)), cantidadPax)
              && (r.tipo == ERROR <==> Antes(salida, hoy))
  {
    if fechaStr == "" then ValidacionResultado(false, None, ERROR)
    else ClasificarDias(ObtenerDiasRestantes(ParsearFecha(fechaStr), hoy), cantidadPax)
  }

  /** Departing today is never bookable online, whatever the group size. */
  lemma SalidaHoyBloqueada(hoy: Fecha, cantidadPax: int)
    requires EsFechaValida(hoy)
    ensures SinNormalizar(FormatearFecha(hoy))
    ensures var r := ValidarReglasLogistica(FormatearFecha(hoy), cantidadPax, hoy);
            !r.valido && r.tipo == CRITICO
  {
    ParsearFormatear(hoy);
  }

  /** A departure `n` days from today, written as the date input writes it,
      is counted as `n` days away and sorted into the band of `n`: blocked
      below 3 days, needing a group of 4 from 3 to 5 days, open after that. */
  lemma SalidaEnDias(hoy: Fecha, n: nat, cantidadPax: int)
    requires EsFechaValida(hoy)
    ensures var salida := DiasDespues(hoy, n);
            && SinNormalizar(FormatearFecha(salida))
            && ObtenerDiasRestantes(ParsearFecha(FormatearFecha(salida)), hoy) == Num(n)
    ensures var r := ValidarReglasLogistica(FormatearFecha(DiasDespues(hoy, n)), cantidadPax, hoy);
            && (n <= 2 ==> r == ValidacionResultado(false, Some(MENSAJE_CRITICO), CRITICO))
            && (3 <= n <= 5 ==> r.tipo == URGENTE && (r.valido <==> cantidadPax >= 4))
            && (n >= 6 ==> r == ValidacionResultado(true, None, TipoValidacion.ESTANDAR))
  {
    var salida := DiasDespues(hoy, n);
    ParsearFormatear(salida);
    DiasDespuesCuenta(hoy, n);
  }

  // ---------------------------------------------------------------------
  // Tour labels and images

  /** The label a tour variant is shown with: a route name and its length in days. */
  datatype LabelTour = LabelTour(nombre: string, dias: int)

  /** `obtenerLabelTour`. */
  function ObtenerLabelTour(tipoTour: TipoTour): (l: LabelTour)
    ensures l.dias == 3 <==> tipoTour == TRES_DIAS
    ensures l.dias == 3 || l.dias == 4
  {
    match tipoTour
    case TRES_DIAS => LabelTour("Laguna Colorada", 3)
    case CLASICA => LabelTour("Ruta Clásica", 4)
    case INVERSA => LabelTour("Ruta Inversa", 4)
  }

  /** The image asset of each tour variant, named as it is imported. */
  function Imagenes(tipoTour: TipoTour): string {
    match tipoTour
    case TRES_DIAS => "tresDias"
    case CLASICA => "clasica"
    case INVERSA => "inversa"
  }

  /** `obtenerImagenPorTour`: the tour's image, falling back to the
      classic route's image when the lookup is empty. */
  function ObtenerImagenPorTour(tipoTour: TipoTour): (imagen: string)
    ensures imagen != ""
    ensures imagen == Imagenes(tipoTour)
  {
    var imagen := Imagenes(tipoTour);
    if imagen == "" then Imagenes(CLASICA) else imagen
  }

  /** Different tour variants are told apart by label and by image. */
  lemma ToursDistinguibles(t1: TipoTour, t2: TipoTour)
    requires t1 != t2
    ensures ObtenerLabelTour(t1).nombre != ObtenerLabelTour(t2).nombre
    ensures ObtenerImagenPorTour(t1) != ObtenerImagenPorTour(t2)
  {
  }
}
