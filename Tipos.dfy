/** The shared vocabulary of the booking screens: the closed string unions
    and the record shapes declared in src/types.ts, plus the two ways a
    JavaScript value can be absent that the rules below distinguish. */
module Tipos {

  /** A value that may be missing (`null`, `undefined` or an optional field). */
  datatype Option<T> = None | Some(value: T)

  /** A JavaScript number as the rules use it: an integer, or NaN (what
      `Number`, `parseInt` and an unreadable number input produce when the
      text is not a number). */
  datatype Numero = NaN | Num(valor: int)

  /** The vehicle class; it fixes the capacity of a trip. */
  datatype TipoJeep = ESTANDAR | PRIVADO

  /** The dietary preference a traveller declares. */
  datatype TipoDieta = NORMAL | VEGETARIANO | VEGANO | CELIACO

  /** The tour variant; it only selects a label and an image. */
  datatype TipoTour = TRES_DIAS | CLASICA | INVERSA

  /** One scheduled departure. `fecha` is the "YYYY-MM-DD" text the date
      input produced; `imagen` names the picture shown on the card. */
  datatype Viaje = Viaje(
    id: int,
    fecha: string,
    ocupantes: int,
    capacidadTotal: int,
    tipo: TipoJeep,
    tipoTour: TipoTour,
    imagen: string)

  /** What the search bar hands over: a date, a passenger count, both or neither. */
  datatype FiltroBusqueda = FiltroBusqueda(fecha: Option<string>, pax: Option<Numero>)

  /** The fields of the join form. */
  datatype ReservaFormData = ReservaFormData(
    nombreCompleto: string,
    email: string,
    cantidadPasajeros: int,
    tipoDieta: TipoDieta,
    detallesDieta: Option<string>)

  /** The fields of the create-group form as handed to the trip list.
      Besides the declared fields, the object built by the create form also
      carries `ocupantes` and `capacidadTotal`; they are kept here because
      the form computes them, although the trip list recomputes both. */
  datatype DatosCreacionGrupo = DatosCreacionGrupo(
    nombreCompleto: string,
    email: string,
    cantidadPasajeros: int,
    tipoDieta: TipoDieta,
    detallesDieta: Option<string>,
    fecha: string,
    tipoJeep: TipoJeep,
    tipoTour: TipoTour,
    ocupantes: int,
    capacidadTotal: int)
}
