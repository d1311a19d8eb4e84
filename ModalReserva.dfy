/** The join dialog: the passenger count it works with and the live quote
    it shows for joining a trip. */
module ModalReserva {
  import opened Tipos
  import opened Utilidades

  /** The form's default passenger count. */
  const CANTIDAD_POR_DEFECTO: int := 1

  /** `watch('cantidadPasajeros') || 1`: an unreadable (NaN) or zero count
      becomes 1; any other count, negative ones included, is kept. */
  function CantidadPasajeros(observada: Numero): (cantidad: int)
    ensures cantidad != 0
    ensures observada.Num? && observada.valor != 0 ==> cantidad == observada.valor
    ensures observada == NaN || observada == Num(0) ==> cantidad == CANTIDAD_POR_DEFECTO
  {
    match observada
    case Num(v) => if v != 0 then v else CANTIDAD_POR_DEFECTO
    case NaN => CANTIDAD_POR_DEFECTO
  }

  /** The five derived values of the quote. */
  datatype Calculos = Calculos(
    cuposDisponibles: int,
    precioUnitarioIncentivo: int,
    precioUnitarioActual: int,
    ahorroPorPersona: int,
    totalPagar: int)

  /** `calculos`: free seats, the per-person price now and at the
      occupancy after joining (the price the joiners pay), the saving per
      person and the total to pay. No trip, no quote. */
  function CalcularCotizacion(viaje: Option<Viaje>, cantidadPasajeros: int): (c: Option<Calculos>)
    ensures c.Some? <==> viaje.Some?
    ensures c.Some? ==>
              && c.value.cuposDisponibles == viaje.value.capacidadTotal - viaje.value.ocupantes
              && c.value.precioUnitarioActual == ObtenerPrecioPorPersona(viaje.value.ocupantes)
              && c.value.precioUnitarioIncentivo == ObtenerPrecioPorPersona(viaje.value.ocupantes + cantidadPasajeros)
              && c.value.ahorroPorPersona == c.value.precioUnitarioActual - c.value.precioUnitarioIncentivo
              && c.value.totalPagar == c.value.precioUnitarioIncentivo * cantidadPasajeros
  {
    match viaje
    case None => None
    case Some(v) =>
      var cuposDisponibles := v.capacidadTotal - v.ocupantes;
      var ocupacionFutura := v.ocupantes + cantidadPasajeros;
      var precioUnitarioIncentivo := ObtenerPrecioPorPersona(ocupacionFutura);
      var precioUnitarioActual := ObtenerPrecioPorPersona(v.ocupantes);
      Some(Calculos(
        cuposDisponibles,
        precioUnitarioIncentivo,
        precioUnitarioActual,
        precioUnitarioActual - precioUnitarioIncentivo,
        precioUnitarioIncentivo * cantidadPasajeros))
  }

  /** Joining never raises the per-person price: the saving is never
      negative and the total never exceeds what the joiners would pay at
      today's price. */
  lemma AhorroNoNegativo(viaje: Viaje, cantidadPasajeros: int)
    requires cantidadPasajeros >= 1
    ensures var c := CalcularCotizacion(Some(viaje), cantidadPasajeros).value;
            c.ahorroPorPersona >= 0 && c.totalPagar <= c.precioUnitarioActual * cantidadPasajeros
  {
    PrecioNoCreciente(viaje.ocupantes, viaje.ocupantes + cantidadPasajeros);
  }

  /** A count the form lets through: at least 1 (the schema's minimum) and
      at most the free seats (the number input's maximum). */
  predicate CantidadAdmitida(viaje: Viaje, cantidadPasajeros: int) {
    1 <= cantidadPasajeros <= viaje.capacidadTotal - viaje.ocupantes
  }
}
