/** The trip card: whether the jeep is full, the price now, the price the
    next traveller would pay, and whether the join button is enabled. */
module TarjetaJeep {
  import opened Tipos
  import opened Utilidades

  /** The values the card derives from its trip. */
  datatype Tarjeta = Tarjeta(esLleno: bool, precioActual: int, proximoPrecio: int, unirseDeshabilitado: bool)

  /** `esLleno`, `precioActual`, `proximoPrecio` (0 stands for "no next
      price" on a full jeep) and the `disabled` flag of the join button. */
  function VistaTarjeta(viaje: Viaje): (t: Tarjeta)
    ensures t.esLleno <==> viaje.ocupantes >= viaje.capacidadTotal
    ensures t.unirseDeshabilitado <==> t.esLleno
    ensures t.precioActual == ObtenerPrecioPorPersona(viaje.ocupantes)
    ensures t.esLleno ==> t.proximoPrecio == 0
    ensures !t.esLleno ==> t.proximoPrecio == ObtenerPrecioPorPersona(viaje.ocupantes + 1)
    ensures !t.esLleno ==> 0 < t.proximoPrecio <= t.precioActual
  {
    var esLleno := viaje.ocupantes >= viaje.capacidadTotal;
    var precioActual := ObtenerPrecioPorPersona(viaje.ocupantes);
    var proximoPrecio := if !esLleno then ObtenerPrecioPorPersona(viaje.ocupantes + 1) else 0;
    PrecioNoCreciente(viaje.ocupantes, viaje.ocupantes + 1);
    Tarjeta(esLleno, precioActual, proximoPrecio, esLleno)
  }
}
