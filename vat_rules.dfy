/**
 * The per-country VAT rules of pyvat/vat_rules.py: rate functions, the
 * shared EU cross-border algorithm in both directions, the flat-rate non-EU
 * rules, and the registry that maps a country code to its rules.
 *
 * Python's `NotImplementedError` becomes the `Outcome` datatype: `Defer`
 * is the bare raise asking the caller to consult the seller's rules, and
 * `Unsupported` is a hard failure.
 */
module VatRules {

  import opened Wrappers
  import opened Countries
  import opened ItemTypes
  import opened Dates
  import opened VatCharges
  import opened Parties

  /** The date from which EU consumer sales are taxed at destination. */
  const January1st2015: Date := Date(2015, 1, 1)

  /** France, Monaco and the French overseas departments, treated as one zone
      by the inbound rule. */
  const FrenchTerritories: set<string> := {"FR", "MC", "RE", "GP", "MQ"}

  datatype Failure = NonBusinessSeller | UnknownSellerCountry

  datatype Outcome = Decided(charge: VatCharge) | Defer | Unsupported(failure: Failure)

  /** One variant per rules class.  Variants with `vatRate` are the classes
      built with a rate argument. */
  datatype Rules =
    | ConstantEu(vatRate: real)
    | At
    | Cz(vatRate: real)
    | Be(vatRate: real)
    | Ie(vatRate: real)
    | Fi(vatRate: real)
    | Nl(vatRate: real)
    | Mt(vatRate: real)
    | Gb(vatRate: real)
    | Se(vatRate: real)
    | Hr(vatRate: real)
    | Pt(vatRate: real)
    | Fr
    | El
    | Lu
    | Pl
    | Es
    | De
    | NonEu(vatRate: real)
  {
    /** Rules that use the shared EU cross-border algorithm. */
    predicate IsEu() {
      !NonEu?
    }

    /** Every rate the rules are built with is non-negative. */
    predicate Valid() {
      match this
      case At | Fr | El | Lu | Pl | Es | De => true
      case _ => vatRate >= 0.0
    }
  }

  /** The subclasses of the non-EU rules, each fixing its flat rate. */
  const EgVatRules: Rules := NonEu(14.0)
  const ChVatRules: Rules := NonEu(8.1)
  const CaVatRules: Rules := NonEu(0.0)
  const NoVatRules: Rules := NonEu(25.0)

  /** Ceuta, Melilla, Las Palmas and Tenerife postal codes. */
  predicate IsSpanishZeroRatePostalCode(postalCode: string) {
    "51" <= postalCode || "52" <= postalCode || "35" <= postalCode || "38" <= postalCode
  }

  /** `get_vat_rate`: the rate in percent for a sale inside the country. */
  function GetVatRate(rules: Rules, itemType: ItemType, postalCode: Option<string>): (rate: real)
    ensures rules.Valid() ==> rate >= 0.0
  {
    match rules
    case ConstantEu(vatRate) => vatRate
    case At =>
      if itemType == PrepaidBroadcastingService then 10.0
      else if itemType == Ebook then 10.0
      else 20.0
    case Cz(vatRate) => if itemType == Ebook then 10.0 else vatRate
    case Be(vatRate) => if itemType == Ebook then 6.0 else vatRate
    case Ie(vatRate) => if itemType == Ebook then 9.0 else vatRate
    case Fi(vatRate) => if itemType == Ebook then 10.0 else vatRate
    case Nl(vatRate) => if itemType == Ebook then 9.0 else vatRate
    case Mt(vatRate) => if itemType == Ebook then 5.0 else vatRate
    case Gb(vatRate) => vatRate
    case Se(vatRate) => if itemType == Ebook then 6.0 else vatRate
    case Hr(vatRate) => if itemType == Ebook then 5.0 else vatRate
    case Pt(vatRate) => if itemType == Ebook then 6.0 else vatRate
    case Fr =>
      if itemType.IsBroadcastingService() then 10.0
      else if itemType == Ebook then 5.5
      else if itemType == Enewspaper then 2.1
      else 20.0
    case El => 24.0
    case Lu =>
      if itemType.IsBroadcastingService() then 3.0
      else if itemType == Ebook then 3.0
      else 17.0
    case Pl =>
      if itemType.IsBroadcastingService() then 8.0
      else if itemType == Ebook then 5.0
      else 23.0
    case Es =>
      if postalCode.Some? && postalCode.value != "" && IsSpanishZeroRatePostalCode(postalCode.value) then 0.0
      else if itemType == Ebook then 4.0
      else 21.0
    case De => if itemType == Ebook then 7.0 else 19.0
    case NonEu(vatRate) => vatRate
  }

  /** Spain charges 0 exactly for the enclave postal codes, whatever the item;
      otherwise 4 for e-books and 21 for everything else. */
  lemma SpanishRate(itemType: ItemType, postalCode: Option<string>)
    ensures GetVatRate(Es, itemType, postalCode) == 0.0
            <==> postalCode.Some? && IsSpanishZeroRatePostalCode(postalCode.value)
    ensures !(postalCode.Some? && IsSpanishZeroRatePostalCode(postalCode.value)) ==>
              GetVatRate(Es, itemType, postalCode) == (if itemType == Ebook then 4.0 else 21.0)
  {
  }

  /** `EuVatRulesMixin.get_sale_to_country_vat_charge`: the decision when
      `rules` are the buyer's country's rules. */
  function EuSaleToCountry(rules: Rules, date: Date, itemType: ItemType, buyer: Party, seller: Party,
                           postalCode: Option<string>): (o: Outcome)
    // Only business sellers are handled; this is checked first, and it is
    // the only refusal.
    ensures o == Unsupported(NonBusinessSeller) <==> !seller.isBusiness
    ensures o.Unsupported? ==> o.failure == NonBusinessSeller
    // Only a pre-2015 cross-border consumer sale is left to the seller's rules.
    ensures o == Defer <==>
              seller.isBusiness && !buyer.isBusiness
              && seller.countryCode != buyer.countryCode && Before(date, January1st2015)
    // Reverse charge exactly for a cross-border business sale outside the French zone.
    ensures o.Decided? && o.charge.action == ReverseCharge <==>
              seller.isBusiness && buyer.isBusiness && seller.countryCode != buyer.countryCode
              && !(seller.countryCode in FrenchTerritories && buyer.countryCode in FrenchTerritories)
    // Every decision is recorded under the buyer's code; a charge is at this country's rate.
    ensures o.Decided? ==> o.charge.countryCode == buyer.countryCode && o.charge.action != NoCharge
    ensures o.Decided? ==>
              o.charge.rate == if o.charge.action == Charge then GetVatRate(rules, itemType, postalCode) else 0.0
  {
    var sellerInFrenchZone := seller.countryCode in FrenchTerritories;
    var buyerInFrenchZone := buyer.countryCode in FrenchTerritories;
    if !seller.isBusiness then
      Unsupported(NonBusinessSeller)
    else if seller.countryCode == buyer.countryCode then
      Decided(VatCharge(Charge, buyer.countryCode, GetVatRate(rules, itemType, postalCode)))
    else if sellerInFrenchZone && buyerInFrenchZone && (buyer.isBusiness || AtOrAfter(date, January1st2015)) then
      Decided(VatCharge(Charge, buyer.countryCode, GetVatRate(rules, itemType, postalCode)))
    else if !buyer.isBusiness && AtOrAfter(date, January1st2015) then
      Decided(VatCharge(Charge, buyer.countryCode, GetVatRate(rules, itemType, postalCode)))
    else if !buyer.isBusiness then
      Defer
    else
      Decided(VatCharge(ReverseCharge, buyer.countryCode, 0.0))
  }

  /** `EuVatRulesMixin.get_sale_from_country_vat_charge`: the decision when
      `rules` are the seller's country's rules. */
  function EuSaleFromCountry(rules: Rules, date: Date, itemType: ItemType, buyer: Party, seller: Party,
                             postalCode: Option<string>): (o: Outcome)
    ensures o == Unsupported(NonBusinessSeller) <==> !seller.isBusiness
    ensures o.Unsupported? ==> o.failure == NonBusinessSeller
    ensures o != Defer
    // No charge exactly when the buyer is outside the EU codes.
    ensures o.Decided? && o.charge.action == NoCharge <==>
              seller.isBusiness && buyer.countryCode !in EuCountryCodes
    // Reverse charge exactly for a business buyer in another EU country.
    ensures o.Decided? && o.charge.action == ReverseCharge <==>
              seller.isBusiness && buyer.isBusiness && buyer.countryCode in EuCountryCodes
              && buyer.countryCode != seller.countryCode
    ensures o.Decided? && o.charge.action != Charge ==>
              o.charge.countryCode == buyer.countryCode && o.charge.rate == 0.0
    // A charge is at the buyer's rules' rate under the buyer's code from 2015
    // on, and at this country's rate under the seller's code otherwise.
    ensures o.Decided? && o.charge.action == Charge ==>
              && buyer.countryCode in EuCountryCodes
              && (if buyer.countryCode != seller.countryCode && AtOrAfter(date, January1st2015)
                  then o.charge == VatCharge(Charge, buyer.countryCode,
                                             GetVatRate(Registry[buyer.countryCode], itemType, postalCode))
                  else o.charge == VatCharge(Charge, seller.countryCode, GetVatRate(rules, itemType, postalCode)))
  {
    if !seller.isBusiness then
      Unsupported(NonBusinessSeller)
    else if buyer.countryCode !in EuCountryCodes then
      Decided(VatCharge(NoCharge, buyer.countryCode, 0.0))
    else if buyer.countryCode == seller.countryCode then
      Decided(VatCharge(Charge, seller.countryCode, GetVatRate(rules, itemType, postalCode)))
    else if buyer.isBusiness then
      Decided(VatCharge(ReverseCharge, buyer.countryCode, 0.0))
    else if AtOrAfter(date, Date(2015, 1, 1)) then
      EuCodesRegistered();
      Decided(VatCharge(Charge, buyer.countryCode, GetVatRate(Registry[buyer.countryCode], itemType, postalCode)))
    else
      Decided(VatCharge(Charge, seller.countryCode, GetVatRate(rules, itemType, postalCode)))
  }

  /** `NonEuVatRules`, both directions: always a charge at the flat rate under
      the buyer's code, whatever the parties, the date or the postal code. */
  function NonEuSaleCharge(vatRate: real, buyer: Party, seller: Party): (o: Outcome)
    ensures o.Decided? && o.charge.action == Charge && o.charge.countryCode == buyer.countryCode
    ensures o.charge.rate == vatRate
  {
    Decided(VatCharge(Charge, buyer.countryCode, vatRate))
  }

  /** The non-EU rules charge the flat rate under the buyer's code in both
      directions; the item, the postal code, the date, the seller and the
      buyer's business status play no part. */
  lemma NonEuRulesFlat(vatRate: real, date: Date, itemType: ItemType, buyer: Party, seller: Party,
                       postalCode: Option<string>)
    ensures GetVatRate(NonEu(vatRate), itemType, postalCode) == vatRate
    ensures SaleToCountry(NonEu(vatRate), date, itemType, buyer, seller, postalCode)
            == Decided(VatCharge(Charge, buyer.countryCode, vatRate))
    ensures SaleFromCountry(NonEu(vatRate), date, itemType, buyer, seller, postalCode)
            == Decided(VatCharge(Charge, buyer.countryCode, vatRate))
  {
  }

  /** The French zone of the inbound rule is France's shared VAT territory
      together with the overseas departments. */
  lemma FrenchTerritoriesAreFranceAndOverseas()
    ensures FrenchTerritories == FranceSameVatTerritory + DomCountryCodes
  {
  }

  /** `get_sale_to_country_vat_charge` of any rules. */
  function SaleToCountry(rules: Rules, date: Date, itemType: ItemType, buyer: Party, seller: Party,
                         postalCode: Option<string>): (o: Outcome)
    ensures o.Decided? ==> o.charge.countryCode == buyer.countryCode && o.charge.action != NoCharge
    ensures rules.Valid() && o.Decided? ==> WellFormed(o.charge)
  {
    match rules
    case NonEu(vatRate) => NonEuSaleCharge(vatRate, buyer, seller)
    case _ => EuSaleToCountry(rules, date, itemType, buyer, seller, postalCode)
  }

  /** Rules with the EU algorithm use it in both directions. */
  lemma EuRulesUseMixin(rules: Rules, date: Date, itemType: ItemType, buyer: Party, seller: Party,
                        postalCode: Option<string>)
    requires rules.IsEu()
    ensures SaleToCountry(rules, date, itemType, buyer, seller, postalCode)
            == EuSaleToCountry(rules, date, itemType, buyer, seller, postalCode)
    ensures SaleFromCountry(rules, date, itemType, buyer, seller, postalCode)
            == EuSaleFromCountry(rules, date, itemType, buyer, seller, postalCode)
  {
  }

  /** `get_sale_from_country_vat_charge` of any rules. */
  function SaleFromCountry(rules: Rules, date: Date, itemType: ItemType, buyer: Party, seller: Party,
                           postalCode: Option<string>): (o: Outcome)
    ensures o != Defer
    ensures rules.Valid() && o.Decided? ==> WellFormed(o.charge)
  {
    match rules
    case NonEu(vatRate) => NonEuSaleCharge(vatRate, buyer, seller)
    case _ =>
      RegistryValid();
      EuSaleFromCountry(rules, date, itemType, buyer, seller, postalCode)
  }

  /** `VAT_RULES`: the rules of every supported country code. */
  const Registry: map<string, Rules> := map[
    "AT" := At,
    "BE" := Be(21.0),
    "BG" := ConstantEu(20.0),
    "CY" := ConstantEu(19.0),
    "CZ" := Cz(21.0),
    "DE" := De,
    "DK" := ConstantEu(25.0),
    "EE" := ConstantEu(24.0),
    "EL" := El,
    "GR" := El,
    "ES" := Es,
    "FI" := Fi(25.5),
    "FR" := Fr,
    "GB" := Gb(20.0),
    "HR" := Hr(25.0),
    "HU" := ConstantEu(27.0),
    "IE" := Ie(23.0),
    "IT" := ConstantEu(22.0),
    "LT" := ConstantEu(21.0),
    "LU" := Lu,
    "LV" := ConstantEu(21.0),
    "MT" := Mt(18.0),
    "NL" := Nl(21.0),
    "PL" := Pl,
    "PT" := Pt(23.0),
    "RO" := ConstantEu(21.0),
    "SE" := Se(25.0),
    "SK" := ConstantEu(23.0),
    "SI" := ConstantEu(22.0),
    "EG" := EgVatRules,
    "CH" := ChVatRules,
    "CA" := CaVatRules,
    "NO" := NoVatRules,
    "MC" := ConstantEu(20.0),
    "RE" := ConstantEu(8.5),
    "GP" := ConstantEu(8.5),
    "MQ" := ConstantEu(8.5)
  ]

  /** Every EU code has EU rules, so the outbound lookup of the buyer's rules
      cannot fail. */
  lemma EuCodesRegistered()
    ensures forall code :: code in EuCountryCodes ==> code in Registry && Registry[code].IsEu()
  {
    RegistryDomain();
    NonEuCodesOutsideEu();
  }

  /** The registry covers exactly the EU codes, the mandate countries and the
      overseas departments, and only the mandate countries have non-EU rules. */
  lemma RegistryDomain()
    ensures forall code :: code in Registry <==> code in EuCountryCodes || code in NonEuCountryCodes || code in DomCountryCodes
    ensures forall code :: code in Registry ==> (Registry[code].NonEu? <==> code in NonEuCountryCodes)
  {
    RegistryKeys();
    RegistryNonEu();
  }

  lemma RegistryKeys()
    ensures forall code :: code in Registry <==> code in EuCountryCodes || code in NonEuCountryCodes || code in DomCountryCodes
  {
  }

  lemma RegistryNonEu()
    ensures forall code :: code in Registry ==> (Registry[code].NonEu? <==> code in NonEuCountryCodes)
  {
  }

  /** Every registered rules value is built with non-negative rates. */
  lemma RegistryValid()
    ensures forall code :: code in Registry ==> Registry[code].Valid()
  {
  }
}
