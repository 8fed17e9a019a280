/** The dashboard's fixed settings that the core reads: the level thresholds
    with their display metadata, and the simulated sensor's base value and
    variation range. */
module Config {

  const LowMax: real := 350.0
  const LowColor: string := "#4CAF50"
  const LowLabel: string := "Baixa"

  /** Declared in the configuration but never consulted by the classifier. */
  const MediumMin: real := 351.0
  const MediumMax: real := 450.0
  const MediumColor: string := "#FF9800"
  const MediumLabel: string := "Média"

  /** Declared in the configuration but never consulted by the classifier. */
  const HighMin: real := 451.0
  const HighColor: string := "#f44336"
  const HighLabel: string := "Alta"

  const BaseValue: real := 420.0
  const VariationRange: real := 30.0
}
