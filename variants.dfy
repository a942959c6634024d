/** The two logger variants side by side. */
module Variants {
  import opened Runtime
  import StaticLog
  import InstanceLog

  /** Both variants carry the same label table. */
  lemma SameLabels()
    ensures StaticLog.LogNames() == InstanceLog.LogNames()
  {
  }

  /** The object overloads send the same text in both variants: string
      interpolation of a null `ToString()` result gives the empty text that
      `?? string.Empty` supplies explicitly. */
  lemma SameObjectText(text: Option<string>)
    ensures Interpolate(text) == Coalesce(text, "")
  {
  }
}
