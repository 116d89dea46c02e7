// The theme table of constants.tsx, reduced to the theme ids; the styling
// fields of each entry play no part in the model.

module Constants {
  import opened Types

  /** The THEMES array, in declaration order. */
  const THEMES: seq<Theme> := [Classic, Ethereal, Modern, Dark]

  /** The `id` string of a theme entry. */
  function ThemeId(t: Theme): (id: string)
    ensures id != ""
  {
    match t
    case Classic => "classic"
    case Ethereal => "ethereal"
    case Modern => "modern"
    case Dark => "dark"
  }

  /** Distinct themes have distinct ids, so matching by id is matching by theme. */
  lemma ThemeIdInjective(a: Theme, b: Theme)
    ensures ThemeId(a) == ThemeId(b) <==> a == b
  {
  }

  /** Every theme tag of the union has an entry in THEMES. */
  lemma ThemesCoverUnion(t: Theme)
    ensures t in THEMES
  {
  }
}
