/**
 * The dashboard summary card's accent colour: a theme colour name looked
 * up in a fixed table of six, any other name falling back to primary blue.
 */
module DataCard {

  /** The colour table. */
  const Colors: map<string, string> := map[
    "primary" := "#1976d2",
    "secondary" := "#dc004e",
    "success" := "#2e7d32",
    "error" := "#d32f2f",
    "warning" := "#ed6c02",
    "info" := "#0288d1"]

  /** The colour a card gets when none is given. */
  const DefaultColor := "primary"

  /** `getColorHex`: the table entry, or primary's for an unknown name. */
  function ColorHex(name: string): (hex: string)
    ensures name in Colors ==> hex == Colors[name]
    ensures name !in Colors ==> hex == "#1976d2"
  {
    if name in Colors then Colors[name] else Colors["primary"]
  }

  /** Whatever name is asked for, the answer is one of the six table values. */
  lemma ColorHexInTable(name: string)
    ensures ColorHex(name) in Colors.Values
    ensures ColorHex(name) in {"#1976d2", "#dc004e", "#2e7d32", "#d32f2f", "#ed6c02", "#0288d1"}
  {
    assert Colors["primary"] == "#1976d2";
  }

  /** A card with no colour given is primary blue. */
  lemma DefaultIsPrimaryBlue()
    ensures ColorHex(DefaultColor) == "#1976d2"
  {
  }
}
