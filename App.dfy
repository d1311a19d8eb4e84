/** The page that owns the trip list: creating a group, joining a trip,
    filtering the list for display, and the hero carousel's step. The
    component state lives in `EstadoApp`; the list updates it applies are
    the functions before it. */
module App {
  import opened Tipos
  import opened Constantes
  import opened Calendario
  import opened Utilidades
  import opened ModalReserva
  import opened ModalCrearGrupo
  import opened TarjetaJeep

  // ---------------------------------------------------------------------
  // Capacity invariant

  /** A trip holds no more occupants than seats, and no negative count. */
  predicate DentroDeCapacidad(viaje: Viaje) {
    0 <= viaje.ocupantes <= viaje.capacidadTotal
  }

  predicate TodosDentroDeCapacidad(trips: seq<Viaje>) {
    forall i :: 0 <= i < |trips| ==> DentroDeCapacidad(trips[i])
  }

  // ---------------------------------------------------------------------
  // Creating a group

  /** The capacity `handleCreate` gives a new trip: 4 for a private jeep,
      6 otherwise. */
  function CapacidadPorTipo(tipoJeep: TipoJeep): (capacidad: int)
    ensures capacidad == Capacidad(tipoJeep)
    ensures capacidad == MaximoDeslizador(tipoJeep)
  {
    if tipoJeep == PRIVADO then 4 else 6
  }

  /** The trip `handleCreate` builds. The id is a clock reading, so it is
      a parameter. */
  function NuevoViaje(data: DatosCreacionGrupo, id: int): (viaje: Viaje)
    ensures viaje.id == id && viaje.fecha == data.fecha
    ensures viaje.ocupantes == data.cantidadPasajeros
    ensures viaje.capacidadTotal == Capacidad(data.tipoJeep)
    ensures viaje.tipo == data.tipoJeep && viaje.tipoTour == data.tipoTour
    ensures viaje.imagen == ObtenerImagenPorTour(data.tipoTour)
  {
    Viaje(id, data.fecha, data.cantidadPasajeros, CapacidadPorTipo(data.tipoJeep),
          data.tipoJeep, data.tipoTour, ObtenerImagenPorTour(data.tipoTour))
  }

  /** With a passenger count between 1 and the jeep's capacity, prepending
      the new trip keeps every trip within capacity. */
  lemma CrearPreservaCapacidad(trips: seq<Viaje>, data: DatosCreacionGrupo, id: int)
    requires TodosDentroDeCapacidad(trips)
    requires 1 <= data.cantidadPasajeros <= Capacidad(data.tipoJeep)
    ensures TodosDentroDeCapacidad([NuevoViaje(data, id)] + trips)
  {
  }

  /** Nothing in `handleCreate` checks the count against the jeep: five or
      six passengers on a private jeep make a trip over capacity. */
  lemma CrearPrivadoExcedeCapacidad(data: DatosCreacionGrupo, id: int)
    requires data.tipoJeep == PRIVADO && 5 <= data.cantidadPasajeros <= 6
    ensures !DentroDeCapacidad(NuevoViaje(data, id))
  {
  }

  /** A group the create dialog hands over, with no more initial
      passengers than its slider allows, becomes a trip within capacity
      whose capacity is the one the dialog computed. */
  lemma CrearDesdeFormularioDentroDeCapacidad(form: FormularioCrear, hoy: Fecha, id: int)
    requires CumpleEsquema(form) && EsFechaValida(hoy) && SinNormalizar(form.fecha)
    requires form.paxIniciales <= MaximoDeslizador(form.tipoJeep)
    requires AlEnviar(form, hoy).Some?
    ensures var datos := AlEnviar(form, hoy).value;
            && NuevoViaje(datos, id).capacidadTotal == datos.capacidadTotal
            && NuevoViaje(datos, id).ocupantes == form.paxIniciales
            && DentroDeCapacidad(NuevoViaje(datos, id))
  {
  }

  // ---------------------------------------------------------------------
  // Joining a trip

  /** The `map` of `handleConfirmReserva`: every trip whose id is `id`
      gains `cantidad` occupants; nothing else changes. */
  function SumarOcupantes(trips: seq<Viaje>, id: int, cantidad: int): (r: seq<Viaje>)
    ensures |r| == |trips|
    ensures forall i :: 0 <= i < |trips| ==>
              r[i].ocupantes == trips[i].ocupantes + (if trips[i].id == id then cantidad else 0)
    ensures forall i :: 0 <= i < |trips| ==> r[i] == trips[i].(ocupantes := r[i].ocupantes)
  {
    if trips == [] then []
    else
      var t := trips[0];
      var actualizado := if t.id == id then t.(ocupantes := t.ocupantes + cantidad) else t;
      [actualizado] + SumarOcupantes(trips[1..], id, cantidad)
  }

  /** When the count is one the join dialog admits for every trip with the
      selected id, joining keeps every trip within capacity. */
  lemma UnirPreservaCapacidad(trips: seq<Viaje>, id: int, cantidad: int)
    requires TodosDentroDeCapacidad(trips)
    requires forall i :: 0 <= i < |trips| && trips[i].id == id ==> CantidadAdmitida(trips[i], cantidad)
    ensures TodosDentroDeCapacidad(SumarOcupantes(trips, id, cantidad))
  {
  }

  /** `handleConfirmReserva` itself checks no capacity: a count above the
      free seats pushes the trip over capacity. */
  lemma UnirSinCotaExcedeCapacidad(viaje: Viaje, cantidad: int)
    requires DentroDeCapacidad(viaje)
    requires cantidad > viaje.capacidadTotal - viaje.ocupantes
    ensures !TodosDentroDeCapacidad(SumarOcupantes([viaje], viaje.id, cantidad))
  {
  }

  /** The card and the join dialog agree: the dialog's current price is
      the card's, a single joiner is quoted the card's next price, and the
      join button is disabled exactly when the dialog could admit no count. */
  lemma TarjetaCoincideConCotizacion(viaje: Viaje)
    ensures var t := VistaTarjeta(viaje);
            var c := CalcularCotizacion(Some(viaje), 1).value;
            && t.precioActual == c.precioUnitarioActual
            && (!t.esLleno ==> t.proximoPrecio == c.precioUnitarioIncentivo)
            && (t.unirseDeshabilitado <==> !exists n :: CantidadAdmitida(viaje, n))
  {
    if !VistaTarjeta(viaje).unirseDeshabilitado {
      assert CantidadAdmitida(viaje, 1);
    }
  }

  // ---------------------------------------------------------------------
  // Filtering the list for display

  /** `r` keeps some of the elements of `s`, in their order. */
  ghost predicate EsSubsecuencia(r: seq<Viaje>, s: seq<Viaje>)
  {
    if r == [] then true
    else if s == [] then false
    else (r[0] == s[0] && EsSubsecuencia(r[1..], s[1..])) || EsSubsecuencia(r, s[1..])
  }

  /** `Array.prototype.filter` on trips. */
  function Filtrar(trips: seq<Viaje>, conservar: Viaje -> bool): (r: seq<Viaje>)
    ensures EsSubsecuencia(r, trips)
    ensures forall t :: t in r <==> t in trips && conservar(t)
    ensures forall t :: multiset(r)[t] == if conservar(t) then multiset(trips)[t] else 0
  {
    if trips == [] then []
    else
      assert trips == [trips[0]] + trips[1..];
      if conservar(trips[0]) then [trips[0]] + Filtrar(trips[1..], conservar)
      else Filtrar(trips[1..], conservar)
  }

  /** `filtro.pax || 0`: NaN and 0 both read as 0. */
  function PaxOCero(pax: Numero): (p: int)
    ensures pax.Num? ==> p == pax.valor
    ensures pax.NaN? ==> p == 0
  {
    match pax
    case NaN => 0
    case Num(v) => v
  }

  /** The list shown under the search bar. No filter shows everything; a
      non-empty date keeps the trips on that date and ignores the passenger
      count; otherwise a passenger count keeps the trips with at least that
      many free seats. */
  function FiltrarViajes(trips: seq<Viaje>, filtro: Option<FiltroBusqueda>): (r: seq<Viaje>)
    ensures EsSubsecuencia(r, trips)
    ensures filtro.None? ==> r == trips
    ensures filtro.Some? && filtro.value.fecha.Some? && filtro.value.fecha.value != "" ==>
              forall t :: && (t in r <==> t in trips && t.fecha == filtro.value.fecha.value)
                          && multiset(r)[t] == if t.fecha == filtro.value.fecha.value then multiset(trips)[t] else 0
    ensures filtro.Some? && (filtro.value.fecha.None? || filtro.value.fecha.value == "") && filtro.value.pax.Some? ==>
              forall t :: && (t in r <==> t in trips && t.capacidadTotal - t.ocupantes >= PaxOCero(filtro.value.pax.value))
                          && multiset(r)[t] ==
                               if t.capacidadTotal - t.ocupantes >= PaxOCero(filtro.value.pax.value)
                               then multiset(trips)[t] else 0
    ensures filtro.Some? && (filtro.value.fecha.None? || filtro.value.fecha.value == "") && filtro.value.pax.None? ==>
              r == trips
  {
    SubsecuenciaDeSiMisma(trips);
    match filtro
    case None => trips
    case Some(f) =>
      if f.fecha.Some? && f.fecha.value != "" then
        var fecha := f.fecha.value;
        Filtrar(trips, (t: Viaje) => t.fecha == fecha)
      else if f.pax.Some? then
        var pax := PaxOCero(f.pax.value);
        Filtrar(trips, (t: Viaje) => t.capacidadTotal - t.ocupantes >= pax)
      else trips
  }

  lemma {:induction false} SubsecuenciaDeSiMisma(s: seq<Viaje>)
    ensures EsSubsecuencia(s, s)
  {
    if s != [] {
      SubsecuenciaDeSiMisma(s[1..]);
    }
  }

  // ---------------------------------------------------------------------
  // Hero carousel

  /** The carousel's pictures. */
  const IMAGENES_SALAR: seq<string> := ["salar1", "salar2", "salar3"]

  /** One tick of the carousel timer: `(i + 1) % length`. With one picture
      or none the timer is never started, so the index stays. */
  function PasoCarrusel(indice: int, cantidadImagenes: int): (siguiente: int)
    ensures cantidadImagenes <= 1 ==> siguiente == indice
    ensures cantidadImagenes > 1 && 0 <= indice < cantidadImagenes ==>
              0 <= siguiente < cantidadImagenes
              && siguiente == if indice + 1 < cantidadImagenes then indice + 1 else 0
  {
    if cantidadImagenes <= 1 then indice else (indice + 1) % cantidadImagenes
  }

  /** The index after `pasos` ticks, starting from the first picture. */
  function IndiceTrasPasos(pasos: nat, cantidadImagenes: int): int {
    if pasos == 0 then 0 else PasoCarrusel(IndiceTrasPasos(pasos - 1, cantidadImagenes), cantidadImagenes)
  }

  /** Division with remainder is unique. */
  lemma DivisionUnica(a: int, n: int, q: int, r: int)
    requires n > 0 && 0 <= r < n && a == q * n + r
    ensures a % n == r
  {
    var q', r' := a / n, a % n;
    assert (q - q') * n == r' - r;
    assert q - q' >= 1 ==> (q - q') * n >= n;
    assert q - q' <= -1 ==> (q' - q) * n >= n;
  }

  /** The carousel shows the pictures round-robin: after `pasos` ticks it
      is at picture `pasos % length`. */
  lemma {:induction false} CarruselCiclico(pasos: nat, cantidadImagenes: int)
    requires cantidadImagenes > 1
    ensures IndiceTrasPasos(pasos, cantidadImagenes) == pasos % cantidadImagenes
  {
    if pasos > 0 {
      var n := cantidadImagenes;
      CarruselCiclico(pasos - 1, n);
      var q, previo := (pasos - 1) / n, (pasos - 1) % n;
      assert IndiceTrasPasos(pasos, n) == PasoCarrusel(previo, n);
      if previo + 1 < n {
        DivisionUnica(pasos, n, q, previo + 1);
      } else {
        DivisionUnica(pasos, n, q + 1, 0);
      }
    }
  }

  /** The hero's three pictures come round in turn, every third tick. */
  lemma CarruselSalarCiclico(pasos: nat)
    ensures IndiceTrasPasos(pasos, |IMAGENES_SALAR|) == pasos % 3
    ensures 0 <= IndiceTrasPasos(pasos, |IMAGENES_SALAR|) < |IMAGENES_SALAR|
  {
    CarruselCiclico(pasos, |IMAGENES_SALAR|);
  }

  // ---------------------------------------------------------------------
  // Component state

  /** The state of the page: which dialogs are open, the trip chosen for
      joining, the trip list and the active search filter. */
  class EstadoApp {
    var modalCrearOpen: bool
    var modalReservaOpen: bool
    var viajeSeleccionado: Option<Viaje>
    var trips: seq<Viaje>
    var filtro: Option<FiltroBusqueda>

    constructor ()
      ensures !modalCrearOpen && !modalReservaOpen
      ensures viajeSeleccionado == None && trips == [] && filtro == None
    {
      modalCrearOpen, modalReservaOpen := false, false;
      viajeSeleccionado, trips, filtro := None, [], None;
    }

    /** `handleCreate`: prepend the new trip. */
    method HandleCreate(data: DatosCreacionGrupo, id: int)
      modifies this`trips
      ensures trips == [NuevoViaje(data, id)] + old(trips)
      ensures |trips| == |old(trips)| + 1 && trips[1..] == old(trips)
      ensures old(TodosDentroDeCapacidad(trips)) && 1 <= data.cantidadPasajeros <= Capacidad(data.tipoJeep) ==>
                TodosDentroDeCapacidad(trips)
    {
      var nuevoViaje := NuevoViaje(data, id);
      trips := [nuevoViaje] + trips;
      if old(TodosDentroDeCapacidad(trips)) && 1 <= data.cantidadPasajeros <= Capacidad(data.tipoJeep) {
        CrearPreservaCapacidad(old(trips), data, id);
      }
    }

    /** Submitting the create dialog: the group is handed to `handleCreate`
        only when the date rules accept it, and the dialog closes then. */
    method EnviarCrearGrupo(form: FormularioCrear, hoy: Fecha, id: int)
      requires CumpleEsquema(form) && EsFechaValida(hoy) && SinNormalizar(form.fecha)
      modifies this`trips, this`modalCrearOpen
      ensures AlEnviar(form, hoy).None? ==> trips == old(trips) && modalCrearOpen == old(modalCrearOpen)
      ensures AlEnviar(form, hoy).Some? ==>
                trips == [NuevoViaje(AlEnviar(form, hoy).value, id)] + old(trips) && !modalCrearOpen
      ensures old(TodosDentroDeCapacidad(trips)) && form.paxIniciales <= MaximoDeslizador(form.tipoJeep) ==>
                TodosDentroDeCapacidad(trips)
    {
      var datos := AlEnviar(form, hoy);
      if datos.Some? {
        HandleCreate(datos.value, id);
        modalCrearOpen := false;
      }
    }

    /** `handleSearch`: keep the filter. */
    method HandleSearch(f: FiltroBusqueda)
      modifies this`filtro
      ensures filtro == Some(f)
    {
      filtro := Some(f);
    }

    /** `handleJoinClick`: remember the trip and open the join dialog. */
    method HandleJoinClick(viaje: Viaje)
      modifies this`viajeSeleccionado, this`modalReservaOpen
      ensures viajeSeleccionado == Some(viaje) && modalReservaOpen
    {
      viajeSeleccionado := Some(viaje);
      modalReservaOpen := true;
    }

    /** `handleConfirmReserva`: with no trip chosen nothing happens;
        otherwise every trip with the chosen id gains the joining
        passengers and the dialog closes. No capacity is checked here. */
    method HandleConfirmReserva(data: ReservaFormData)
      modifies this`trips, this`modalReservaOpen, this`viajeSeleccionado
      ensures old(viajeSeleccionado).None? ==>
                trips == old(trips) && modalReservaOpen == old(modalReservaOpen) && viajeSeleccionado == None
      ensures old(viajeSeleccionado).Some? ==>
                && trips == SumarOcupantes(old(trips), old(viajeSeleccionado).value.id, data.cantidadPasajeros)
                && !modalReservaOpen && viajeSeleccionado == None
      ensures old(TodosDentroDeCapacidad(trips)) && old(viajeSeleccionado).Some?
              && (forall i :: 0 <= i < |old(trips)| && old(trips)[i].id == old(viajeSeleccionado).value.id ==>
                    CantidadAdmitida(old(trips)[i], data.cantidadPasajeros)) ==>
                TodosDentroDeCapacidad(trips)
    {
      if viajeSeleccionado.None? {
        return;
      }
      trips := SumarOcupantes(trips, viajeSeleccionado.value.id, data.cantidadPasajeros);
      modalReservaOpen := false;
      viajeSeleccionado := None;
    }

    /** The trips on display under the current filter. */
    method ViajesVisibles() returns (visibles: seq<Viaje>)
      ensures visibles == FiltrarViajes(trips, filtro)
    {
      visibles := FiltrarViajes(trips, filtro);
    }
  }
}
