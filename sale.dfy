/**
 * The top-level resolution of one sale.  pyvat's `get_sale_vat_charge` is not
 * part of this model; it is modelled here by the fallback the rules classes
 * document: ask the buyer's country's rules first, and when they raise
 * `NotImplementedError` (any `Outcome` that is not a decision) or the buyer's
 * country has no rules, ask the seller's country's rules.
 */
module SaleVatCharge {

  import opened Wrappers
  import opened Countries
  import opened ItemTypes
  import opened Dates
  import opened VatCharges
  import opened Parties
  import opened VatRules

  /** The decision for one sale: buyer's rules inbound, then seller's rules
      outbound.  A seller without rules is a hard failure. */
  function GetSaleVatCharge(date: Date, itemType: ItemType, buyer: Party, seller: Party,
                            postalCode: Option<string>): (o: Outcome)
    // The defer signal never escapes the dispatcher.
    ensures o != Defer
    // A decided charge is at a non-negative rate; the other actions carry 0.
    ensures o.Decided? ==> WellFormed(o.charge)
    // A hard failure is either a non-business seller or a seller without rules.
    ensures o.Unsupported? ==>
              (o.failure == NonBusinessSeller && !seller.isBusiness)
              || (o.failure == UnknownSellerCountry && seller.countryCode !in Registry)
  {
    RegistryValid();
    var inbound :=
      if buyer.countryCode in Registry
      then SaleToCountry(Registry[buyer.countryCode], date, itemType, buyer, seller, postalCode)
      else Defer;
    if inbound.Decided? then
      inbound
    else if seller.countryCode in Registry then
      SaleFromCountry(Registry[seller.countryCode], date, itemType, buyer, seller, postalCode)
    else
      Unsupported(UnknownSellerCountry)
  }

  /** The rules of a country that uses the shared EU algorithm: the EU codes
      and the French overseas departments. */
  predicate HasEuRules(code: string) {
    code in EuCountryCodes || code in DomCountryCodes
  }

  lemma HasEuRulesRegistered(code: string)
    requires HasEuRules(code)
    ensures code in Registry && Registry[code].IsEu()
  {
    RegistryDomain();
    NonEuCodesOutsideEu();
  }

  /** When the buyer's rules decide, their decision is the result. */
  lemma InboundDecides(date: Date, itemType: ItemType, buyer: Party, seller: Party,
                       postalCode: Option<string>)
    requires buyer.countryCode in Registry
    requires SaleToCountry(Registry[buyer.countryCode], date, itemType, buyer, seller, postalCode).Decided?
    ensures GetSaleVatCharge(date, itemType, buyer, seller, postalCode)
            == SaleToCountry(Registry[buyer.countryCode], date, itemType, buyer, seller, postalCode)
  {
  }

  /** When the buyer's rules do not decide, the seller's rules give the result. */
  lemma OutboundDecides(date: Date, itemType: ItemType, buyer: Party, seller: Party,
                        postalCode: Option<string>)
    requires buyer.countryCode in Registry ==>
               !SaleToCountry(Registry[buyer.countryCode], date, itemType, buyer, seller, postalCode).Decided?
    requires seller.countryCode in Registry
    ensures GetSaleVatCharge(date, itemType, buyer, seller, postalCode)
            == SaleFromCountry(Registry[seller.countryCode], date, itemType, buyer, seller, postalCode)
  {
  }

  /** A business seller selling inside its own registered country charges
      that country's rate under that code, to businesses and consumers alike,
      on every date. */
  lemma SameCountrySale(date: Date, itemType: ItemType, buyer: Party, seller: Party,
                        postalCode: Option<string>)
    requires seller.isBusiness && buyer.countryCode == seller.countryCode
    requires seller.countryCode in Registry
    ensures GetSaleVatCharge(date, itemType, buyer, seller, postalCode)
            == Decided(VatCharge(Charge, seller.countryCode,
                                 GetVatRate(Registry[seller.countryCode], itemType, postalCode)))
  {
  }

  /** A business seller selling to a business in another country with EU
      rules is reverse-charged at 0 under the buyer's code, on every date,
      unless both countries lie in the French zone. */
  lemma CrossBorderBusinessSale(date: Date, itemType: ItemType, buyer: Party, seller: Party,
                                postalCode: Option<string>)
    requires seller.isBusiness && buyer.isBusiness
    requires HasEuRules(buyer.countryCode) && buyer.countryCode != seller.countryCode
    requires !(seller.countryCode in FrenchTerritories && buyer.countryCode in FrenchTerritories)
    ensures GetSaleVatCharge(date, itemType, buyer, seller, postalCode)
            == Decided(VatCharge(ReverseCharge, buyer.countryCode, 0.0))
  {
    HasEuRulesRegistered(buyer.countryCode);
    EuRulesUseMixin(Registry[buyer.countryCode], date, itemType, buyer, seller, postalCode);
    InboundDecides(date, itemType, buyer, seller, postalCode);
  }

  /** From 2015 on, a consumer in another country with EU rules is charged
      the buyer's country's rate under the buyer's code. */
  lemma CrossBorderConsumerSaleFrom2015(date: Date, itemType: ItemType, buyer: Party, seller: Party,
                                        postalCode: Option<string>)
    requires seller.isBusiness && !buyer.isBusiness && AtOrAfter(date, January1st2015)
    requires HasEuRules(buyer.countryCode) && buyer.countryCode != seller.countryCode
    ensures buyer.countryCode in Registry
    ensures GetSaleVatCharge(date, itemType, buyer, seller, postalCode)
            == Decided(VatCharge(Charge, buyer.countryCode,
                                 GetVatRate(Registry[buyer.countryCode], itemType, postalCode)))
  {
    HasEuRulesRegistered(buyer.countryCode);
    EuRulesUseMixin(Registry[buyer.countryCode], date, itemType, buyer, seller, postalCode);
    InboundDecides(date, itemType, buyer, seller, postalCode);
  }

  /** Before 2015, a consumer in another EU country buying from a seller with
      EU rules is charged the seller's rate under the seller's code. */
  lemma CrossBorderConsumerSaleBefore2015(date: Date, itemType: ItemType, buyer: Party, seller: Party,
                                          postalCode: Option<string>)
    requires seller.isBusiness && !buyer.isBusiness && Before(date, January1st2015)
    requires buyer.countryCode in EuCountryCodes && HasEuRules(seller.countryCode)
    requires buyer.countryCode != seller.countryCode
    ensures seller.countryCode in Registry
    ensures GetSaleVatCharge(date, itemType, buyer, seller, postalCode)
            == Decided(VatCharge(Charge, seller.countryCode,
                                 GetVatRate(Registry[seller.countryCode], itemType, postalCode)))
  {
    HasEuRulesRegistered(buyer.countryCode);
    HasEuRulesRegistered(seller.countryCode);
    EuRulesUseMixin(Registry[buyer.countryCode], date, itemType, buyer, seller, postalCode);
    EuRulesUseMixin(Registry[seller.countryCode], date, itemType, buyer, seller, postalCode);
    OutboundDecides(date, itemType, buyer, seller, postalCode);
  }

  /** Before 2015, a consumer in a French overseas department buying from
      another country with EU rules is not charged: the buyer's rules defer
      and the seller's rules see a buyer outside the EU codes. */
  lemma OverseasConsumerBefore2015NotCharged(date: Date, itemType: ItemType, buyer: Party, seller: Party,
                                             postalCode: Option<string>)
    requires seller.isBusiness && !buyer.isBusiness && Before(date, January1st2015)
    requires buyer.countryCode in DomCountryCodes && HasEuRules(seller.countryCode)
    requires buyer.countryCode != seller.countryCode
    ensures GetSaleVatCharge(date, itemType, buyer, seller, postalCode)
            == Decided(VatCharge(NoCharge, buyer.countryCode, 0.0))
  {
    HasEuRulesRegistered(buyer.countryCode);
    HasEuRulesRegistered(seller.countryCode);
    DomCodesOutsideEu();
    EuRulesUseMixin(Registry[buyer.countryCode], date, itemType, buyer, seller, postalCode);
    EuRulesUseMixin(Registry[seller.countryCode], date, itemType, buyer, seller, postalCode);
    OutboundDecides(date, itemType, buyer, seller, postalCode);
  }

  /** Before 2015, a consumer in an overseas department buying from a business
      seller whose country has no EU rules: a mandate-country seller charges
      its own flat rate under the department's code, and a seller whose
      country has no rules at all is refused. */
  lemma OverseasConsumerBefore2015OtherSellers(date: Date, itemType: ItemType, buyer: Party, seller: Party,
                                               postalCode: Option<string>)
    requires seller.isBusiness && !buyer.isBusiness && Before(date, January1st2015)
    requires buyer.countryCode in DomCountryCodes && !HasEuRules(seller.countryCode)
    ensures seller.countryCode in NonEuCountryCodes ==>
              && seller.countryCode in Registry && Registry[seller.countryCode].NonEu?
              && GetSaleVatCharge(date, itemType, buyer, seller, postalCode)
                 == Decided(VatCharge(Charge, buyer.countryCode, Registry[seller.countryCode].vatRate))
    ensures seller.countryCode !in NonEuCountryCodes ==>
              GetSaleVatCharge(date, itemType, buyer, seller, postalCode) == Unsupported(UnknownSellerCountry)
  {
    HasEuRulesRegistered(buyer.countryCode);
    EuRulesUseMixin(Registry[buyer.countryCode], date, itemType, buyer, seller, postalCode);
    RegistryDomain();
    if seller.countryCode in NonEuCountryCodes {
      OutboundDecides(date, itemType, buyer, seller, postalCode);
    }
  }

  /** Inside the French zone a business buyer, or any buyer from 2015 on, is
      charged the buyer's country's rate under the buyer's code. */
  lemma FrenchZoneSale(date: Date, itemType: ItemType, buyer: Party, seller: Party,
                       postalCode: Option<string>)
    requires seller.isBusiness && buyer.countryCode != seller.countryCode
    requires seller.countryCode in FrenchTerritories && buyer.countryCode in FrenchTerritories
    requires buyer.isBusiness || AtOrAfter(date, January1st2015)
    ensures buyer.countryCode in Registry
    ensures GetSaleVatCharge(date, itemType, buyer, seller, postalCode)
            == Decided(VatCharge(Charge, buyer.countryCode,
                                 GetVatRate(Registry[buyer.countryCode], itemType, postalCode)))
  {
    assert HasEuRules(buyer.countryCode);
    HasEuRulesRegistered(buyer.countryCode);
    EuRulesUseMixin(Registry[buyer.countryCode], date, itemType, buyer, seller, postalCode);
    InboundDecides(date, itemType, buyer, seller, postalCode);
  }

  /** Reverse charge never appears between two countries of the French zone,
      whatever the buyer and the date. */
  lemma FrenchZoneNeverReverseCharged(date: Date, itemType: ItemType, buyer: Party, seller: Party,
                                      postalCode: Option<string>)
    requires seller.countryCode in FrenchTerritories && buyer.countryCode in FrenchTerritories
    ensures var o := GetSaleVatCharge(date, itemType, buyer, seller, postalCode);
            o.Decided? ==> o.charge.action != ReverseCharge
  {
    assert HasEuRules(buyer.countryCode) && HasEuRules(seller.countryCode);
    HasEuRulesRegistered(buyer.countryCode);
    HasEuRulesRegistered(seller.countryCode);
    EuRulesUseMixin(Registry[buyer.countryCode], date, itemType, buyer, seller, postalCode);
    EuRulesUseMixin(Registry[seller.countryCode], date, itemType, buyer, seller, postalCode);
    if EuSaleToCountry(Registry[buyer.countryCode], date, itemType, buyer, seller, postalCode).Decided? {
      InboundDecides(date, itemType, buyer, seller, postalCode);
    } else {
      OutboundDecides(date, itemType, buyer, seller, postalCode);
    }
  }

  /** A business seller with EU rules does not charge a buyer whose country
      has no rules at all, whatever the buyer and the date. */
  lemma UnregisteredBuyerNotCharged(date: Date, itemType: ItemType, buyer: Party, seller: Party,
                                    postalCode: Option<string>)
    requires seller.isBusiness && HasEuRules(seller.countryCode)
    requires buyer.countryCode !in Registry
    ensures GetSaleVatCharge(date, itemType, buyer, seller, postalCode)
            == Decided(VatCharge(NoCharge, buyer.countryCode, 0.0))
  {
    HasEuRulesRegistered(seller.countryCode);
    EuCodesRegistered();
    EuRulesUseMixin(Registry[seller.countryCode], date, itemType, buyer, seller, postalCode);
    OutboundDecides(date, itemType, buyer, seller, postalCode);
  }

  /** A buyer in a mandate country is always charged the flat rate of that
      country under its code, whatever the seller, the buyer and the date. */
  lemma MandateCountrySale(date: Date, itemType: ItemType, buyer: Party, seller: Party,
                           postalCode: Option<string>)
    requires buyer.countryCode in NonEuCountryCodes
    ensures buyer.countryCode in Registry && Registry[buyer.countryCode].NonEu?
    ensures GetSaleVatCharge(date, itemType, buyer, seller, postalCode)
            == Decided(VatCharge(Charge, buyer.countryCode, Registry[buyer.countryCode].vatRate))
  {
    RegistryDomain();
  }

  /** The flat rates of the mandate countries. */
  lemma MandateCountryRates()
    ensures Registry["EG"] == NonEu(14.0) && Registry["CH"] == NonEu(8.1)
    ensures Registry["CA"] == NonEu(0.0) && Registry["NO"] == NonEu(25.0)
  {
  }

  /** A non-business seller in a country with EU rules is refused when the
      buyer's country has EU rules or none. */
  lemma NonBusinessSellerRefused(date: Date, itemType: ItemType, buyer: Party, seller: Party,
                                 postalCode: Option<string>)
    requires !seller.isBusiness && HasEuRules(seller.countryCode)
    requires buyer.countryCode !in NonEuCountryCodes
    ensures GetSaleVatCharge(date, itemType, buyer, seller, postalCode) == Unsupported(NonBusinessSeller)
  {
    HasEuRulesRegistered(seller.countryCode);
    EuRulesUseMixin(Registry[seller.countryCode], date, itemType, buyer, seller, postalCode);
    if buyer.countryCode in Registry {
      RegistryNonEu();
      EuRulesUseMixin(Registry[buyer.countryCode], date, itemType, buyer, seller, postalCode);
    }
    OutboundDecides(date, itemType, buyer, seller, postalCode);
  }

  /** Outside the French zone, for two EU codes, the two directions of the
      EU rules agree whenever the buyer's rules decide: the seller's rules
      would have given the same charge. */
  lemma DirectionsAgree(date: Date, itemType: ItemType, buyer: Party, seller: Party,
                        postalCode: Option<string>)
    requires buyer.countryCode in EuCountryCodes && seller.countryCode in EuCountryCodes
    requires !(seller.countryCode in FrenchTerritories && buyer.countryCode in FrenchTerritories)
    ensures buyer.countryCode in Registry && seller.countryCode in Registry
    ensures var inbound := SaleToCountry(Registry[buyer.countryCode], date, itemType, buyer, seller, postalCode);
            var outbound := SaleFromCountry(Registry[seller.countryCode], date, itemType, buyer, seller, postalCode);
            inbound.Decided? ==> inbound == outbound
  {
    HasEuRulesRegistered(buyer.countryCode);
    HasEuRulesRegistered(seller.countryCode);
    var buyerRules, sellerRules := Registry[buyer.countryCode], Registry[seller.countryCode];
    EuRulesUseMixin(buyerRules, date, itemType, buyer, seller, postalCode);
    EuRulesUseMixin(sellerRules, date, itemType, buyer, seller, postalCode);
    if buyer.countryCode == seller.countryCode {
      assert buyerRules == sellerRules;
    }
  }

  /** Inside the French zone the directions differ: a French seller's own
      rules would reverse-charge a Monaco business, but Monaco's rules decide
      first and charge 20. */
  lemma FrenchZoneDirectionsDiffer(date: Date, itemType: ItemType)
    ensures var buyer := Party("MC", true, None);
            var seller := Party("FR", true, None);
            && SaleFromCountry(Registry["FR"], date, itemType, buyer, seller, None)
               == Decided(VatCharge(ReverseCharge, "MC", 0.0))
            && GetSaleVatCharge(date, itemType, buyer, seller, None)
               == Decided(VatCharge(Charge, "MC", 20.0))
  {
    assert "MC" in EuCountryCodes;
    assert "MC" in FrenchTerritories && "FR" in FrenchTerritories;
  }

  /** EL and GR denote Greece: both codes have the same rules, at 24 for
      every category whatever the postal code. */
  lemma GreekCodesAgree(itemType: ItemType, postalCode: Option<string>)
    ensures "EL" in Registry && "GR" in Registry
    ensures Registry["EL"] == Registry["GR"]
    ensures GetVatRate(Registry["EL"], itemType, postalCode) == 24.0
  {
  }

  /** Great Britain is an EU code at a constant 20: from 2015 on a French
      seller charges a British consumer 20 and reverse-charges a British
      business. */
  lemma FranceToBritain(date: Date, itemType: ItemType, buyerIsBusiness: bool)
    requires AtOrAfter(date, January1st2015)
    ensures var o := GetSaleVatCharge(date, itemType, Party("GB", buyerIsBusiness, None), Party("FR", true, None), None);
            o == if buyerIsBusiness then Decided(VatCharge(ReverseCharge, "GB", 0.0))
                 else Decided(VatCharge(Charge, "GB", 20.0))
  {
    assert "GB" in EuCountryCodes;
    if buyerIsBusiness {
      CrossBorderBusinessSale(date, itemType, Party("GB", true, None), Party("FR", true, None), None);
    } else {
      CrossBorderConsumerSaleFrom2015(date, itemType, Party("GB", false, None), Party("FR", true, None), None);
    }
  }

  /** A buyer in Spain whose postal code lies in Ceuta, Melilla, Las Palmas
      or Tenerife is charged 0 under ES for every item, both by a Spanish
      seller and, from 2015 on, by a seller elsewhere. */
  lemma SpanishEnclaveSale(date: Date, itemType: ItemType, buyer: Party, seller: Party, postalCode: string)
    requires buyer.countryCode == "ES" && seller.isBusiness && IsSpanishZeroRatePostalCode(postalCode)
    requires seller.countryCode == "ES" || (!buyer.isBusiness && AtOrAfter(date, January1st2015))
    ensures GetSaleVatCharge(date, itemType, buyer, seller, Some(postalCode))
            == Decided(VatCharge(Charge, "ES", 0.0))
  {
    assert "ES" in Registry && Registry["ES"] == Es;
    SpanishRate(itemType, Some(postalCode));
  }

  /** A French seller on 1 June 2015: a German consumer buying an electronic
      service pays German VAT of 19, a German business is reverse-charged. */
  lemma FranceToGermanyScenario(buyerIsBusiness: bool)
    ensures var o := GetSaleVatCharge(Date(2015, 6, 1), GenericElectronicService,
                                      Party("DE", buyerIsBusiness, None), Party("FR", true, None), None);
            o == if buyerIsBusiness then Decided(VatCharge(ReverseCharge, "DE", 0.0))
                 else Decided(VatCharge(Charge, "DE", 19.0))
  {
    assert "DE" in EuCountryCodes && "DE" !in FrenchTerritories;
    assert Registry["DE"] == De;
    if buyerIsBusiness {
      CrossBorderBusinessSale(Date(2015, 6, 1), GenericElectronicService,
                              Party("DE", true, None), Party("FR", true, None), None);
    } else {
      CrossBorderConsumerSaleFrom2015(Date(2015, 6, 1), GenericElectronicService,
                                      Party("DE", false, None), Party("FR", true, None), None);
    }
  }
}
