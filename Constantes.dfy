/** The master configuration object `CONFIG`: the price table, the
    capacity of each vehicle class, the two day thresholds of the date rules
    and the list of diet options. */
module Constantes {
  import opened Tipos

  /** Per-person price by number of occupants, for 1 to 6 occupants. */
  const PRECIOS: map<int, int> := map[1 := 800, 2 := 420, 3 := 290, 4 := 215, 5 := 195, 6 := 180]

  /** Below this many days before departure a group cannot be formed online. */
  const DIAS_CRITICOS: int := 3

  /** Up to this many days before departure a group needs a minimum size. */
  const DIAS_URGENTES: int := 5

  /** `CONFIG.CAPACIDAD`: seats per vehicle class. */
  function Capacidad(tipo: TipoJeep): (c: int)
    ensures 1 <= c <= 6 && c in PRECIOS
  {
    match tipo
    case ESTANDAR => 6
    case PRIVADO => 4
  }

  /** One entry of the diet selector (`label` is a reserved word in Dafny, hence `etiqueta`). */
  datatype OpcionDieta = OpcionDieta(value: TipoDieta, etiqueta: string)

  const DIETAS: seq<OpcionDieta> := [
    OpcionDieta(NORMAL, "Normal (Omnívoro)"),
    OpcionDieta(VEGETARIANO, "Vegetariano"),
    OpcionDieta(VEGANO, "Vegano"),
    OpcionDieta(CELIACO, "Sin Gluten (Celíaco)")
  ]

  /** The price table has a key for every occupant count from 1 to 6, no
      other key, and each extra occupant strictly lowers the price. */
  lemma PreciosDefinidosYDecrecientes()
    ensures forall k :: k in PRECIOS <==> 1 <= k <= 6
    ensures forall k :: 1 <= k < 6 ==> PRECIOS[k] > PRECIOS[k + 1]
  {
  }

  /** The critical band ends before the urgent band does, so every
      non-negative day count lies in exactly one of the three bands
      (critical, urgent, standard). */
  lemma BandasDisjuntasYCompletas(dias: int)
    requires dias >= 0
    ensures DIAS_CRITICOS < DIAS_URGENTES
    ensures var critico, urgente, estandar :=
              dias < DIAS_CRITICOS, DIAS_CRITICOS <= dias <= DIAS_URGENTES, dias > DIAS_URGENTES;
            (critico || urgente || estandar) && !(critico && urgente) && !(critico && estandar) && !(urgente && estandar)
  {
  }

  /** The diet selector offers every diet exactly once. */
  lemma DietasCompletasSinRepetir()
    ensures |DIETAS| == 4
    ensures (set o | o in DIETAS :: o.value) == {NORMAL, VEGETARIANO, VEGANO, CELIACO}
    ensures forall i, j :: 0 <= i < j < |DIETAS| ==> DIETAS[i].value != DIETAS[j].value
  {
  }
}
