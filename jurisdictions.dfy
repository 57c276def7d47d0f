/** The tax jurisdiction of a broker (the `Jurisdiction` enum of src/localities/mod.rs). */
module Jurisdictions {
  datatype Jurisdiction = Russia | Usa

  function Name(j: Jurisdiction): string
  {
    match j
    case Russia => "Russia"
    case Usa => "USA"
  }
}
