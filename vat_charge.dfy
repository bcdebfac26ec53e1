/** The decision returned for one sale. */
module VatCharges {

  datatype VatChargeAction = Charge | ReverseCharge | NoCharge

  /** What to do, under which country code, at what percentage. */
  datatype VatCharge = VatCharge(action: VatChargeAction, countryCode: string, rate: real)

  /** Reverse charge and no charge carry rate 0; every rate is non-negative. */
  predicate WellFormed(c: VatCharge) {
    (c.action != Charge ==> c.rate == 0.0) && c.rate >= 0.0
  }
}
