/**
 * The constant country-code sets of pyvat/countries.py.  All codes are
 * ISO 3166-1 alpha-2 strings, except that Greece appears both as EL and GR.
 */
module Countries {

  /** French overseas departments: outside the EU VAT area, own rate zone. */
  const DomCountryCodes: set<string> := {"RE", "GP", "MQ"}

  /** Countries that invoice one another as one VAT territory. */
  const FranceSameVatTerritory: set<string> := {"FR", "MC"}

  /** Non-EU countries that require VAT to be charged by EU sellers. */
  const NonEuCountryCodes: set<string> := {"EG", "CH", "CA", "NO"}

  /** The codes treated as EU members (GB and MC included, as in the source). */
  const EuCountryCodes: set<string> := {
    "AT", "BE", "BG", "CY", "CZ", "DE", "DK", "EE", "ES", "FI", "FR", "GB",
    "EL", "GR", "HR", "HU", "IE", "IT", "LT", "LU", "LV", "MT", "NL", "PL",
    "PT", "RO", "SE", "SI", "SK", "MC"
  }

  /** The overseas departments are listed, and none of them is an EU code. */
  lemma DomCodesOutsideEu()
    ensures "RE" in DomCountryCodes && "GP" in DomCountryCodes && "MQ" in DomCountryCodes
    ensures DomCountryCodes !! EuCountryCodes
  {
  }

  /** France and Monaco form the shared territory, and both are EU codes. */
  lemma FranceSameVatTerritoryInEu()
    ensures FranceSameVatTerritory == {"FR", "MC"}
    ensures FranceSameVatTerritory <= EuCountryCodes
  {
  }

  /** The mandate countries are exactly EG, CH, CA and NO, none of them EU. */
  lemma NonEuCodesOutsideEu()
    ensures NonEuCountryCodes == {"EG", "CH", "CA", "NO"}
    ensures NonEuCountryCodes !! EuCountryCodes
    ensures NonEuCountryCodes !! DomCountryCodes
  {
  }

  /** Greece is an EU member under both of its codes; so is GB. */
  lemma GreeceAndBritainAreEuCodes()
    ensures "EL" in EuCountryCodes && "GR" in EuCountryCodes
    ensures "GB" in EuCountryCodes
  {
  }
}
