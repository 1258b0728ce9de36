/** The header's language switch (src/components/LanguageToggle.tsx). */
module LanguageToggle {

  datatype Language = En | Fr

  /** The upper-case code of a language. */
  function Code(l: Language): string {
    match l
    case En => "EN"
    case Fr => "FR"
  }

  /** The language a click requests. */
  function Toggle(current: Language): (next: Language)
    ensures next != current
  {
    if current == En then Fr else En
  }

  /** The button's label. */
  function Label(current: Language): (caption: string)
    ensures caption != Code(current)
  {
    if current == En then "FR" else "EN"
  }

  /** The label names the language a click switches to. */
  lemma LabelNamesTarget(current: Language)
    ensures Label(current) == Code(Toggle(current))
    ensures Toggle(En) == Fr && Toggle(Fr) == En
  {
  }

  /** Two clicks restore the original language. */
  lemma ToggleTwice(current: Language)
    ensures Toggle(Toggle(current)) == current
  {
  }
}
