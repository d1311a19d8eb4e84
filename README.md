# Shared-jeep pricing, eligibility and occupancy rules

This project models the rules engine of a booking page for shared jeep
tours out of Uyuni. Travellers create a group on a date or join an
existing departure. The per-person price falls as the jeep fills. How close
the departure date is decides whether a group may be formed at all.

- **Price table** (`Constantes`, `Utilidades.ObtenerPrecioPorPersona`): 800,
  420, 290, 215, 195, 180 for 1 to 6 occupants. Counts below 1 or above 6
  are clamped into that range first.
- **Date rules** (`Utilidades.ValidarReglasLogistica`): the whole days from
  today to the departure sort a request into four results.
  - An empty date gives `ERROR` with no message.
  - A past date gives `ERROR` with a message.
  - 0 to 2 days gives `CRITICO`, which is blocked.
  - 3 to 5 days gives `URGENTE`, which needs at least 4 passengers.
  - Anything later gives `ESTANDAR`.
- **Date text** (`ParsearFecha`, `FormatearFecha`): conversion between
  "YYYY-MM-DD" and (year, month, day), with round trips both ways. Today is
  a parameter. The day count is the difference of day numbers in the
  Gregorian calendar (`Calendario`), and its sign is proved to be calendar
  order.
- **Trip list** (`App`): creating prepends a trip whose capacity comes from
  the jeep type. Joining adds passengers to the trips with the chosen id.
  The search shows the whole list, the trips on a date, or the trips with
  enough free seats. The page state is the class `App.EstadoApp`. Its
  methods reassign the `trips` field as the page's state setters do.
- **Views**: the join dialog's quote (`ModalReserva`), the trip card
  (`TarjetaJeep`) and the create dialog's submit guard (`ModalCrearGrupo`).

A non-empty date text that does not read as a date is modelled as
JavaScript treats it. The day count is NaN, and every comparison with NaN is
false. So the request falls through to `ESTANDAR` and is valid.
`ValidarReglasLogistica` states this case. The date input never produces
such a text.

Capacity is not guarded where the trip list changes. `handleConfirmReserva`
adds any count. The only upper bound is the number input's `max`, which is
the free seats. The create schema allows 1 to 6 passengers for either jeep,
but a private jeep has 4 seats. The model keeps both operations unguarded.
`UnirPreservaCapacidad` and `CrearPreservaCapacidad` prove that the
invariant `0 <= ocupantes <= capacidadTotal` survives under the bounds the
forms are meant to apply. `UnirSinCotaExcedeCapacidad`,
`CrearPrivadoExcedeCapacidad` and
`ModalCrearGrupo.PrivadoSobrecupoPasaElEsquema` show the bound being broken
when those guards are missing.

Three facts about the code shape the model:
- Neither `handleCreate` nor `handleConfirmReserva` checks the count
  against the jeep's capacity. The only count checks are the schema bounds
  (1 to 6 when creating, at least 1 when joining) and, when creating, the
  urgent band's minimum of 4.
- A past date gives `ERROR` with a message, not `CRITICO`.
- The minimum group of 4 in the urgent band is a literal in the rule
  (src/lib/utilidades.ts:66). It is not a named constant.

## Model

| member | source | states |
|---|---|---|
| `Constantes.Capacidad` | src/lib/constantes.ts:12-15 | the seat count of each jeep class lies in 1..6 and is a key of the price table |
| `Constantes.PreciosDefinidosYDecrecientes` | src/lib/constantes.ts:3-10 | the price table has exactly the keys 1..6 and each extra occupant strictly lowers the price |
| `Constantes.BandasDisjuntasYCompletas` | src/lib/constantes.ts:17-20 | the critical threshold is below the urgent one, so every non-negative day count lies in exactly one of the critical, urgent and standard bands |
| `Constantes.DietasCompletasSinRepetir` | src/lib/constantes.ts:22-27 | the diet options list the four diets, each once |
| `Calendario.DiferenciaDias` | src/lib/utilidades.ts:33-40 | the whole-day difference is negative, zero or positive exactly when the departure is before, on or after today in calendar order |
| `Utilidades.ObtenerPrecioPorPersona` | src/lib/utilidades.ts:13-17 | total over integers: below 1 it is the 1-occupant price, above 6 the 6-occupant price, otherwise the table entry; always between 180 and 800 |
| `Utilidades.PrecioNoCreciente` | src/lib/utilidades.ts:13-17 | for all a <= b, the price for a is at least the price for b |
| `Utilidades.PrecioBajaConCadaOcupante` | src/lib/utilidades.ts:13-17 | within 1..5 one more occupant strictly lowers the price |
| `Utilidades.ParsearFecha` | src/lib/utilidades.ts:20-23 | a date comes back exactly when splitting on '-' gives at least three pieces and the first three are numerals, and then it is the date of their three values |
| `Utilidades.FormatearFecha` | src/lib/utilidades.ts:26-31 | the year's numeral (which reads back as the year), '-', the month as two digits, '-', the day as two digits |
| `Utilidades.ParsearPiezas` | src/lib/utilidades.ts:20-23 | three digit strings joined by '-' parse to the date of their values |
| `Utilidades.ParsearFormatear` | src/lib/utilidades.ts:20-31 | parsing the formatted text of a valid date gives the date back |
| `Utilidades.FormatearParsear` | src/lib/utilidades.ts:20-31 | a zero-padded "YYYY-MM-DD" text of a valid date with a four-digit year parses to a valid date that formats back to the same text |
| `Calendario.SiguienteEsUnDia` | src/lib/utilidades.ts:33-40 | the next calendar day is a valid date after the given one, and the whole-day difference between them is exactly 1, across month and year ends |
| `Calendario.DiasDespuesCuenta` | src/lib/utilidades.ts:33-40 | the date reached by n single-day steps is n days away by the day count |
| `Utilidades.ObtenerDiasRestantes` | src/lib/utilidades.ts:33-40 | NaN exactly for an invalid date; otherwise the whole-day difference from today to the departure, so negative exactly for a past date and zero exactly for today |
| `Utilidades.ClasificarDias` | src/lib/utilidades.ts:57-72 | NaN falls through to valid ESTANDAR; negative days are invalid ERROR; 0 to 2 days are invalid CRITICO with the WhatsApp message for any group; 3 to 5 days are URGENTE and valid exactly when the group has at least 4, and a smaller group gets the urgent message with the day count; 6 or more are valid ESTANDAR; valid exactly when there is no message and the band is URGENTE or ESTANDAR |
| `Utilidades.ValidarReglasLogistica` | src/lib/utilidades.ts:48-73 | an empty date is invalid ERROR with no message; an unreadable date is valid ESTANDAR; a readable date is classified by its day count from today, and its result is ERROR exactly when it is before today; a refused non-empty date always carries a message; valid exactly when there is no message and the band is URGENTE or ESTANDAR |
| `Utilidades.SalidaEnDias` | src/lib/utilidades.ts:33-72 | a departure n days after today, written as the date input writes it, is counted as n days; below 3 days it is blocked with the WhatsApp message, from 3 to 5 it is URGENTE and valid exactly for groups of at least 4, from 6 on it is valid ESTANDAR |
| `Utilidades.SalidaHoyBloqueada` | src/lib/utilidades.ts:57-62 | a departure today is blocked as CRITICO whatever the group size |
| `Utilidades.ObtenerLabelTour` | src/lib/utilidades.ts:86-93 | the three-day route is the only one labelled with 3 days; the others last 4 |
| `Utilidades.ObtenerImagenPorTour` | src/lib/utilidades.ts:76-83 | the image is the tour's own, never empty, so the fallback to the classic route's image is never taken |
| `Utilidades.ToursDistinguibles` | src/lib/utilidades.ts:76-93 | different tours have different labels and different images |
| `ModalReserva.CantidadPasajeros` | src/components/ModalReserva.tsx:33 | an unreadable or zero count becomes 1; any other count is kept |
| `ModalReserva.CalcularCotizacion` | src/components/ModalReserva.tsx:36-53 | no trip gives no quote; free seats are capacity minus occupants; the current price is at today's occupancy and the incentive price at the occupancy after joining; saving is their difference; total is incentive price times count |
| `ModalReserva.AhorroNoNegativo` | src/components/ModalReserva.tsx:40-51 | for a count of at least 1 the saving is never negative and the total never exceeds the count at today's price |
| `TarjetaJeep.VistaTarjeta` | src/components/TarjetaJeep.tsx:13-59 | full exactly when occupants reach capacity; the join button is disabled exactly when full; the current price is at today's occupancy; the next price is 0 when full, otherwise the price with one more occupant, positive and no higher than the current one |
| `ModalCrearGrupo.MaximoDeslizador` | src/components/ModalCrearGrupo.tsx:125 | the slider's maximum is the jeep's capacity |
| `ModalCrearGrupo.PrecioEstimado` | src/components/ModalCrearGrupo.tsx:35 | the estimate is the table price for the initial group |
| `ModalCrearGrupo.AlEnviar` | src/components/ModalCrearGrupo.tsx:34-48 | a group is handed over exactly when the date rules accept the date and initial group; then its passenger count and occupancy are the initial group, its capacity is the jeep's, and date, jeep, tour and diet are copied |
| `ModalCrearGrupo.PrivadoSobrecupoPasaElEsquema` | src/components/ModalCrearGrupo.tsx:14 | a private jeep with 5 or 6 initial passengers passes the schema though it exceeds the slider, and when the date rules accept it the group handed over has more occupants than seats |
| `App.CapacidadPorTipo` | src/App.tsx:77 | the capacity given to a new trip is the configured capacity of its jeep and equals the create dialog's slider maximum |
| `App.NuevoViaje` | src/App.tsx:76-86 | the new trip has the given id, the form's date, jeep and tour, occupancy equal to the passenger count, the jeep's capacity and the tour's image |
| `App.CrearPreservaCapacidad` | src/App.tsx:76-87 | with 1 to capacity passengers, prepending the new trip keeps every trip within capacity |
| `App.CrearPrivadoExcedeCapacidad` | src/App.tsx:77-82 | 5 or 6 passengers on a private jeep make a trip over capacity |
| `App.CrearDesdeFormularioDentroDeCapacidad` | src/components/ModalCrearGrupo.tsx:38-47 | a group the dialog hands over within its slider bound becomes a trip within capacity, and the trip's capacity agrees with the dialog's |
| `App.SumarOcupantes` | src/App.tsx:107-112 | same length and order; exactly the trips with the chosen id gain the count; every other field and every other trip is unchanged |
| `App.UnirPreservaCapacidad` | src/App.tsx:107-112 | when the count is one the join dialog admits for every trip with that id, every trip stays within capacity |
| `App.UnirSinCotaExcedeCapacidad` | src/App.tsx:104-112 | a count above the free seats pushes the trip over capacity |
| `App.TarjetaCoincideConCotizacion` | src/components/TarjetaJeep.tsx:13-17 | the card's current price is the dialog's, a single joiner is quoted the card's next price, and the join button is disabled exactly when the dialog could admit no count |
| `App.Filtrar` | src/App.tsx:142 | the result is a subsequence of the trips; each trip occurs in it as often as in the list when the predicate keeps it, and not at all otherwise |
| `App.PaxOCero` | src/App.tsx:145 | NaN reads as 0, any number as itself |
| `App.FiltrarViajes` | src/App.tsx:138-148 | always a subsequence; a non-empty date keeps exactly the trips on that date, each as often as in the list, whatever the passenger count; otherwise a passenger count keeps exactly the trips with at least that many free seats, each as often as in the list; a filter with neither a date nor a count gives the whole list |
| `App.PasoCarrusel` | src/App.tsx:17 | with more than one picture the index stays in range and advances by one, wrapping to 0; otherwise it stays |
| `App.CarruselCiclico` | src/App.tsx:15-19 | after k ticks from the first picture the carousel shows picture k mod the number of pictures |
| `App.CarruselSalarCiclico` | src/lib/utilidades.ts:96 | the hero carousel over the three salt-flat pictures shows picture k mod 3 after k ticks, always within the list |
| `App.EstadoApp.constructor` | src/App.tsx:59-65 | both dialogs closed, no trip chosen, an empty list and no filter |
| `App.EstadoApp.HandleCreate` | src/App.tsx:76-90 | the list becomes the new trip followed by the old list unchanged; within-capacity lists stay so when the count is 1 to capacity |
| `App.EstadoApp.EnviarCrearGrupo` | src/components/ModalCrearGrupo.tsx:37-48 | a rejected request changes nothing; an accepted one prepends the trip and closes the dialog; within the slider bound the capacity invariant is kept |
| `App.EstadoApp.HandleSearch` | src/App.tsx:92-95 | the filter becomes the one submitted |
| `App.EstadoApp.HandleJoinClick` | src/App.tsx:98-101 | the trip is remembered and the join dialog opens |
| `App.EstadoApp.HandleConfirmReserva` | src/App.tsx:104-117 | with no trip chosen nothing changes; otherwise the list is updated by `SumarOcupantes` for the chosen id, the dialog closes and the choice is cleared; the capacity invariant is kept when the count is admitted for every trip with that id |
| `App.EstadoApp.ViajesVisibles` | src/App.tsx:138-148 | the trips shown are `FiltrarViajes` of the current list and filter, so what is proved of `FiltrarViajes` holds of the view |

## Left out

- Rendering, styling and `cn`: presentation only.
- `formatearMoneda`: currency formatting by `Intl.NumberFormat`.
- `porcentaje` on the card: a floating-point display value.
- The form library and its schema machinery are not modelled. The bounds the rules rely on appear as preconditions: `CumpleEsquema`, and `CantidadAdmitida` for the join count (schema minimum and input maximum). Name, email and free-text diet checks are left out.
- The clock: today is a parameter. `Math.ceil` over millisecond differences and daylight-saving days are not modelled; the day count is the exact calendar difference.
- `new Date` normalisation of out-of-range months and days, and its reading of years 0 to 99 as 19xx, are not modelled. Every date that reaches the day count must be a valid calendar date with a year of at least 100 (`SinNormalizar`, `EsFechaValida`).
- Counts are whole numbers. The join dialog's number input and its schema (src/components/ModalReserva.tsx:14, 110) accept a fractional count such as 1.5. The price table has no entry for the clamped sum, so the live quote shows NaN for the incentive price, the saving and the total. `ObtenerPrecioPorPersona`'s 180..800 bound and `AhorroNoNegativo` are stated for whole counts only. The browser's step check stops such a count being submitted.
- `Number` reads only plain decimal digits (the empty text reads as 0). Whitespace, signs, exponents and decimals are not modelled.
- `obtenerDiasRestantes` called with a string parses it with `parsearFecha` first. That composition is not a separate member; the rules only call it with a date.
- Trip ids come from `Date.now()`, a clock reading. They are a parameter, and their uniqueness cannot be stated.
- `alert`, `console.log`, the carousel's `setInterval` and `clearInterval`: side effects. One tick of the timer is `PasoCarrusel`.
- The seeded demo trips, and the image URLs: data. Images are named by their imported asset names.
- The header and the search-bar widget: the search bar only does `parseInt` of a select value, which appears here as the filter's `Numero`.
- Concurrency: one list is updated from one UI thread.
