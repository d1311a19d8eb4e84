/** The create-group dialog: its schema bounds, the passenger slider, the
    estimated price and the submit guard that hands a new group over. */
module ModalCrearGrupo {
  import opened Tipos
  import opened Constantes
  import opened Calendario
  import opened Utilidades

  /** The dialog's fields (`paxIniciales` is the initial group size). */
  datatype FormularioCrear = FormularioCrear(
    nombreCompleto: string,
    email: string,
    fecha: string,
    paxIniciales: int,
    tipoJeep: TipoJeep,
    tipoTour: TipoTour,
    tipoDieta: TipoDieta,
    detallesDieta: Option<string>)

  /** The bounds of the form schema that the rules depend on: a non-empty
      date and 1 to 6 initial passengers, whatever the vehicle class. */
  predicate CumpleEsquema(form: FormularioCrear) {
    |form.fecha| >= 1 && 1 <= form.paxIniciales <= 6
  }

  /** The slider's maximum: 6 for a standard jeep, 4 otherwise. */
  function MaximoDeslizador(tipoJeep: TipoJeep): (maximo: int)
    ensures maximo == Capacidad(tipoJeep)
  {
    if tipoJeep == TipoJeep.ESTANDAR then 6 else 4
  }

  /** `precioEstimado`: the per-person price for the initial group. */
  function PrecioEstimado(paxIniciales: int): (precio: int)
    ensures 1 <= paxIniciales <= 6 ==> precio == PRECIOS[paxIniciales]
    ensures precio == ObtenerPrecioPorPersona(paxIniciales)
  {
    ObtenerPrecioPorPersona(paxIniciales)
  }

  /** `onSubmit`: when the date rules accept the date and group size,
      build the data for the trip list (its passenger count is the initial
      group, and so is its occupancy; the capacity follows the jeep);
      otherwise nothing is handed over. Only a form that passed the schema
      reaches it. */
  function AlEnviar(form: FormularioCrear, hoy: Fecha): (datos: Option<DatosCreacionGrupo>)
    requires CumpleEsquema(form)
    requires EsFechaValida(hoy) && SinNormalizar(form.fecha)
    ensures datos.Some? <==> ValidarReglasLogistica(form.fecha, form.paxIniciales, hoy).valido
    ensures datos.Some? ==>
              && datos.value.cantidadPasajeros == form.paxIniciales
              && datos.value.ocupantes == form.paxIniciales
              && datos.value.capacidadTotal == Capacidad(form.tipoJeep)
              && datos.value.fecha == form.fecha
              && datos.value.tipoJeep == form.tipoJeep
              && datos.value.tipoTour == form.tipoTour
              && datos.value.tipoDieta == form.tipoDieta
  {
    var validacion := ValidarReglasLogistica(form.fecha, form.paxIniciales, hoy);
    if validacion.valido then
      Some(DatosCreacionGrupo(
        form.nombreCompleto,
        form.email,
        form.paxIniciales,
        form.tipoDieta,
        form.detallesDieta,
        form.fecha,
        form.tipoJeep,
        form.tipoTour,
        form.paxIniciales,
        if form.tipoJeep == TipoJeep.ESTANDAR then 6 else 4))
    else None
  }

  /** The schema does not know the vehicle class: a private jeep with 5 or
      6 initial passengers passes it, and when the date rules accept the
      request the group is handed over with more passengers than seats. */
  lemma PrivadoSobrecupoPasaElEsquema(form: FormularioCrear, hoy: Fecha)
    requires form.tipoJeep == PRIVADO && 5 <= form.paxIniciales <= 6 && |form.fecha| >= 1
    requires EsFechaValida(hoy) && SinNormalizar(form.fecha)
    requires ValidarReglasLogistica(form.fecha, form.paxIniciales, hoy).valido
    ensures CumpleEsquema(form)
    ensures form.paxIniciales > MaximoDeslizador(form.tipoJeep)
    ensures var datos := AlEnviar(form, hoy);
            datos.Some? && datos.value.ocupantes > datos.value.capacidadTotal
  {
  }
}
