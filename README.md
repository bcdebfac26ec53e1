# pyvat VAT rule engine, modelled in Dafny

This project models the part of pyvat that decides the VAT treatment of one
sale. Given a date, an item category, a buyer and a seller (each a `Party`),
and an optional postal code, it decides three things: whether VAT is
charged, reverse-charged or not charged; at what percentage; and under which
country code.

The model follows `pyvat/vat_rules.py`, `pyvat/countries.py` and
`pyvat/party.py`. Everything there is pure, so the model is made of
datatypes, functions and lemmas:

- `countries.dfy` (module `Countries`): the four constant code sets. GB, MC
  and both Greek codes (EL, GR) are EU codes, as in the source.
- `item_type.dfy`, `dates.dfy`, `vat_charge.dfy`, `wrappers.dfy`: the item
  categories and the broadcasting family, calendar dates ordered as Python
  orders `datetime.date`, the charge decision, and `Option`.
- `party.dfy` (module `Parties`): the `Party` value, its constructor with a
  default region code, and `repr`.
- `vat_rules.dfy` (module `VatRules`): one `Rules` variant per rules class
  and the per-country `GetVatRate`. It also holds the shared EU algorithm in
  both directions (`EuSaleToCountry` for the buyer's country and
  `EuSaleFromCountry` for the seller's), the flat-rate non-EU rules, and the
  `VAT_RULES` registry. Python's `NotImplementedError` becomes an `Outcome`:
  `Defer` is the bare raise that hands a pre-2015 consumer sale to the
  seller's rules, and `Unsupported(NonBusinessSeller)` is the non-business
  seller refusal.
- `rate_table.dfy` (module `RateTable`): the test suite's expected
  per-country, per-category rates (`EXPECTED_VAT_RATES`,
  tests/test_sale_vat_charge.py:17-352) with Monaco left out, written out
  independently of the rules classes, and the proof that the registry
  reproduces them.
- `sale.dfy` (module `SaleVatCharge`): the dispatcher. It tries the buyer's
  rules inbound. When they give no decision, or the buyer's country has no
  rules, it uses the seller's rules outbound. The lemmas here state the
  end-to-end behaviour.

Rates are exact `real` percentages (25.5, 8.5, 8.1, 5.5, 2.1); nothing is
floating point.

Some documentation and tests of the repository expect behaviour that
vat_rules.py does not give. The model follows the code:

- A business buyer in a French overseas department (RE, GP, MQ) who buys
  from outside the French zone is reverse-charged (vat_rules.py:131-135).
  The comment on `DOM_COUNTRY_CODES` (countries.py:7-10) says these
  departments charge VAT on all transactions.
- Before 2015, a consumer there buying from a seller whose country has EU
  rules is not charged at all: the buyer's rules defer, and the seller's
  rules see a non-EU buyer (vat_rules.py:127-129, 149-151). A seller in a
  mandate country (EG, CH, CA, NO) charges the department's code at its own
  flat rate instead (vat_rules.py:413-422), and a seller whose country has
  no rules is refused.
- Egypt charges business buyers its flat 14 like every other buyer
  (vat_rules.py:402-411), as tests/test_new_countries.py:79 expects.
  tests/test_sale_vat_charge.py:542-545 expects no charge instead.

## Model

| member | source | states |
|---|---|---|
| `Countries.DomCodesOutsideEu` | pyvat/countries.py:1-65 | RE, GP and MQ are overseas departments and none of them is an EU code |
| `Countries.FranceSameVatTerritoryInEu` | pyvat/countries.py:12-65 | the shared French territory is exactly {FR, MC}, and both are EU codes |
| `Countries.NonEuCodesOutsideEu` | pyvat/countries.py:22-65 | the mandate countries are exactly EG, CH, CA, NO; they are disjoint from the EU codes and from the overseas departments |
| `Countries.GreeceAndBritainAreEuCodes` | pyvat/countries.py:47-48 | EL, GR and GB are EU codes |
| `Parties.NewPartyInjective` | pyvat/party.py:19-36 | two constructed parties are equal exactly when they were built from the same country code, business flag and region code, so the constructor loses no argument |
| `Parties.DefaultRegionIsNone` | pyvat/party.py:19 | a party built without a region code has none |
| `Parties.ReprShowsCountry` | pyvat/party.py:38-46 | the repr always contains `country code = <code>` |
| `Parties.ReprShowsBusiness` | pyvat/party.py:38-46 | the repr always contains `is business = True/False` |
| `Parties.ReprShowsRegion` | pyvat/party.py:38-44 | with a truthy region code, the repr contains `region code = <code>` |
| `Parties.ReprRegionIff` | pyvat/party.py:38-46 | for a country code without the letter g, the repr mentions `region code` exactly when the region code is truthy |
| `VatRules.GetVatRate` | pyvat/vat_rules.py:183-383 | every rules value built with non-negative rates gives a non-negative rate for every item and postal code |
| `VatRules.SpanishRate` | pyvat/vat_rules.py:360-373 | Spain gives 0 exactly for a postal code starting 51, 52, 35 or 38, for every item and ahead of the e-book rate; otherwise 4 for e-books and 21 for the rest |
| `VatRules.EuSaleToCountry` | pyvat/vat_rules.py:87-135 | buyer-side EU rule. A non-business seller is refused first, and that is its only refusal. It defers exactly for a pre-2015 cross-border consumer. It reverse-charges exactly a cross-border business buyer outside a French-zone pair. Every decision is under the buyer's code; a charge is at this country's rate, anything else at 0 |
| `VatRules.EuSaleFromCountry` | pyvat/vat_rules.py:137-180 | seller-side EU rule. A non-business seller is refused first, and that is its only refusal; it never defers. It gives no charge exactly for a buyer outside the EU codes, and reverse charge exactly for a business in another EU country. From 2015 a cross-border consumer charge uses the buyer's registered rate under the buyer's code; otherwise the seller's rate under the seller's code |
| `VatRules.NonEuRulesFlat` | pyvat/vat_rules.py:387-434 | both directions of the non-EU rules charge the flat rate under the buyer's code, whatever the date, item, postal code, seller and business status |
| `VatRules.FrenchTerritoriesAreFranceAndOverseas` | pyvat/vat_rules.py:99-102 | the hard-coded French zone equals the shared French territory plus the overseas departments |
| `VatRules.SaleToCountry` | pyvat/vat_rules.py:28-54 | the inbound rule of any rules never gives no charge and records every decision under the buyer's code; with valid rates every decision is well formed |
| `VatRules.SaleFromCountry` | pyvat/vat_rules.py:56-80 | the outbound rule of any rules never defers; with valid rates every decision is well formed |
| `VatRules.EuCodesRegistered` | pyvat/vat_rules.py:467-505 | every EU code has EU rules in the registry, so the buyer lookup of the outbound rule cannot fail |
| `VatRules.RegistryDomain` | pyvat/vat_rules.py:467-505 | the registry covers exactly the EU codes, the mandate countries and the overseas departments; only the mandate countries have non-EU rules |
| `VatRules.RegistryValid` | pyvat/vat_rules.py:467-505 | every registered rules value has non-negative rates |
| `RateTable.RegistryMatchesExpectedRates` | pyvat/vat_rules.py:183-505 | without a postal code, every registered country except Monaco gives exactly the test suite's expected rate for every item category (e.g. FR: 10 broadcasting, 5.5 e-book, 2.1 e-newspaper, else 20) |
| `SaleVatCharge.GetSaleVatCharge` | pyvat/vat_rules.py:47-51 | the dispatcher never lets a defer escape; every decision is well formed (rate 0 unless charged, never negative); a failure is either a non-business seller or a seller without rules |
| `SaleVatCharge.SameCountrySale` | pyvat/vat_rules.py:104-109 | same country, business seller: charge at that country's rate under its code, for business and consumer buyers on every date |
| `SaleVatCharge.CrossBorderBusinessSale` | pyvat/vat_rules.py:131-135 | a business buyer in another EU-rules country, outside a French-zone pair, is reverse-charged at 0 under the buyer's code on every date |
| `SaleVatCharge.CrossBorderConsumerSaleFrom2015` | pyvat/vat_rules.py:119-123 | from 2015 a cross-border consumer is charged the buyer country's rate under the buyer's code |
| `SaleVatCharge.CrossBorderConsumerSaleBefore2015` | pyvat/vat_rules.py:125-180 | before 2015 the buyer's rules defer and a consumer in another EU country is charged the seller's rate under the seller's code |
| `SaleVatCharge.OverseasConsumerBefore2015NotCharged` | pyvat/vat_rules.py:125-151 | before 2015 a consumer in RE, GP or MQ buying from another EU-rules country is not charged |
| `SaleVatCharge.OverseasConsumerBefore2015OtherSellers` | pyvat/vat_rules.py:413-422 | before 2015 a consumer in RE, GP or MQ buying from a mandate-country seller is charged the seller's flat rate under the department's code; a seller whose country has no rules is refused |
| `SaleVatCharge.FrenchZoneSale` | pyvat/vat_rules.py:111-117 | between distinct French-zone codes, a business buyer, or any buyer from 2015 on, is charged the buyer country's rate under the buyer's code |
| `SaleVatCharge.FrenchZoneNeverReverseCharged` | pyvat/vat_rules.py:99-166 | no sale between two French-zone codes is ever reverse-charged |
| `SaleVatCharge.UnregisteredBuyerNotCharged` | pyvat/vat_rules.py:149-151 | a business seller with EU rules does not charge a buyer whose country has no rules, whatever the buyer and the date |
| `SaleVatCharge.MandateCountrySale` | pyvat/vat_rules.py:402-411 | a buyer in EG, CH, CA or NO is always charged the country's flat rate under its code, whatever the seller, business status and date |
| `SaleVatCharge.MandateCountryRates` | pyvat/vat_rules.py:437-462 | the flat rates are EG 14, CH 8.1, CA 0, NO 25 |
| `SaleVatCharge.NonBusinessSellerRefused` | pyvat/vat_rules.py:93-97 | a non-business seller with EU rules is refused unless the buyer is in a mandate country |
| `SaleVatCharge.DirectionsAgree` | pyvat/vat_rules.py:87-180 | for two EU codes outside a French-zone pair, whenever the buyer's rules decide, the seller's rules would decide the same |
| `SaleVatCharge.FrenchZoneDirectionsDiffer` | pyvat/vat_rules.py:111-166 | FR seller, MC business buyer: FR's outbound rule would reverse-charge, but MC's inbound rule decides first and charges 20 |
| `SaleVatCharge.GreekCodesAgree` | pyvat/vat_rules.py:476-477 | EL and GR have the same rules, at 24 for every category |
| `SaleVatCharge.FranceToBritain` | pyvat/vat_rules.py:266-271 | from 2015 a French seller charges a British consumer 20 and reverse-charges a British business |
| `SaleVatCharge.SpanishEnclaveSale` | pyvat/vat_rules.py:360-369 | a Spanish buyer with an enclave postal code is charged 0 under ES for every item, by a Spanish seller or, from 2015, a consumer by any business seller |
| `SaleVatCharge.FranceToGermanyScenario` | pyvat/vat_rules.py:376-383 | on 2015-06-01 a French seller charges a German consumer 19 for an electronic service and reverse-charges a German business |

## Left out

- `pyvat/registries.py` (remote VAT-number validation over HTTP, SOAP and JSON, with OAuth tokens) and the format validators are not part of this model.
- `get_sale_vat_charge` is not part of this model. `SaleVatCharge.GetSaleVatCharge` models only the fallback that vat_rules.py:47-51 documents. Any `NotImplementedError` from the buyer's rules, and a missing buyer entry, both lead to the seller's rules. A seller whose country has no rules is reported as `Unsupported(UnknownSellerCountry)` in place of a Python `KeyError` or exception.
- The base class `VatRules` at vat_rules.py:11-80 only raises `NotImplementedError`. No registered class derives from it: `EuVatRulesMixin` (vat_rules.py:83) and `NonEuVatRules` (vat_rules.py:387) subclass `object` and implement the three methods themselves. So it has no variant of its own.
- `SaleVatCharge.GetSaleVatCharge` accepts every item category, generic physical goods included. The test suite calls the dispatcher only with the six digital categories (tests/test_sale_vat_charge.py:353-360), so what the real dispatcher does for physical goods is not known to this model.
- `ensure_decimal` is not part of this model. Constructor rates are taken as exact reals. `Rules.Valid` assumes they are non-negative, and `RegistryValid` proves this for the registry.
- The Spanish postal code may be passed as a number and is turned into a string by `str()`. The model takes the string form directly.
- Some test expectations cannot come from vat_rules.py, so no lemma states them:
  - Monaco at 10, 5.5 and 2.1 (the registry has a constant 20 for MC);
  - Egyptian business buyers given no charge;
  - EU-to-overseas business sales charged at 8.5;
  - the pre-2015 overseas-department cases;
  - Spanish region codes CE, GC, TF and ML giving 0.
  The code that would produce these is not part of this model.
- A country-level rate query outside the rules classes is not part of this model. `GetVatRate` applied to a registry entry, as `RegistryMatchesExpectedRates` uses it, plays that role.
- Idempotence of the dispatcher is immediate: Dafny functions are deterministic, so no lemma states it.
- Floating-point comparisons and console output in the tests are not modelled.
