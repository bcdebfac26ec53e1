/**
 * The expected-rate table of the test suite (tests/test_sale_vat_charge.py,
 * lines 17-352): percent by country and item category, written
 * independently of the rules classes. Monaco is left out: its row there
 * has category rates that the registry's constant 20 for MC does not give.
 */
module RateTable {

  import opened Wrappers
  import opened ItemTypes
  import opened VatRules

  /** One row of the table: a percentage per item category. */
  datatype RateRow = RateRow(
    physicalGood: real,
    electronicService: real,
    telecommunicationsService: real,
    broadcastingService: real,
    prepaidBroadcastingService: real,
    ebook: real,
    enewspaper: real)
  {
    /** The entry of the row for one item category. */
    function Rate(itemType: ItemType): (r: real) {
      match itemType
      case GenericPhysicalGood => physicalGood
      case GenericElectronicService => electronicService
      case GenericTelecommunicationsService => telecommunicationsService
      case GenericBroadcastingService => broadcastingService
      case PrepaidBroadcastingService => prepaidBroadcastingService
      case Ebook => ebook
      case Enewspaper => enewspaper
    }
  }

  const ExpectedRates: map<string, RateRow> := map[
    "AT" := RateRow(20.0, 20.0, 20.0, 20.0, 10.0, 10.0, 20.0),
    "BE" := RateRow(21.0, 21.0, 21.0, 21.0, 21.0, 6.0, 21.0),
    "BG" := RateRow(20.0, 20.0, 20.0, 20.0, 20.0, 20.0, 20.0),
    "CY" := RateRow(19.0, 19.0, 19.0, 19.0, 19.0, 19.0, 19.0),
    "CZ" := RateRow(21.0, 21.0, 21.0, 21.0, 21.0, 10.0, 21.0),
    "DE" := RateRow(19.0, 19.0, 19.0, 19.0, 19.0, 7.0, 19.0),
    "DK" := RateRow(25.0, 25.0, 25.0, 25.0, 25.0, 25.0, 25.0),
    "EE" := RateRow(24.0, 24.0, 24.0, 24.0, 24.0, 24.0, 24.0),
    "ES" := RateRow(21.0, 21.0, 21.0, 21.0, 21.0, 4.0, 21.0),
    "FI" := RateRow(25.5, 25.5, 25.5, 25.5, 25.5, 10.0, 25.5),
    "FR" := RateRow(20.0, 20.0, 20.0, 10.0, 10.0, 5.5, 2.1),
    "EL" := RateRow(24.0, 24.0, 24.0, 24.0, 24.0, 24.0, 24.0),
    "GB" := RateRow(20.0, 20.0, 20.0, 20.0, 20.0, 20.0, 20.0),
    "GR" := RateRow(24.0, 24.0, 24.0, 24.0, 24.0, 24.0, 24.0),
    "HR" := RateRow(25.0, 25.0, 25.0, 25.0, 25.0, 5.0, 25.0),
    "HU" := RateRow(27.0, 27.0, 27.0, 27.0, 27.0, 27.0, 27.0),
    "IE" := RateRow(23.0, 23.0, 23.0, 23.0, 23.0, 9.0, 23.0),
    "IT" := RateRow(22.0, 22.0, 22.0, 22.0, 22.0, 22.0, 22.0),
    "LT" := RateRow(21.0, 21.0, 21.0, 21.0, 21.0, 21.0, 21.0),
    "LU" := RateRow(17.0, 17.0, 17.0, 3.0, 3.0, 3.0, 17.0),
    "LV" := RateRow(21.0, 21.0, 21.0, 21.0, 21.0, 21.0, 21.0),
    "MT" := RateRow(18.0, 18.0, 18.0, 18.0, 18.0, 5.0, 18.0),
    "NL" := RateRow(21.0, 21.0, 21.0, 21.0, 21.0, 9.0, 21.0),
    "PL" := RateRow(23.0, 23.0, 23.0, 8.0, 8.0, 5.0, 23.0),
    "PT" := RateRow(23.0, 23.0, 23.0, 23.0, 23.0, 6.0, 23.0),
    "RO" := RateRow(21.0, 21.0, 21.0, 21.0, 21.0, 21.0, 21.0),
    "SE" := RateRow(25.0, 25.0, 25.0, 25.0, 25.0, 6.0, 25.0),
    "SI" := RateRow(22.0, 22.0, 22.0, 22.0, 22.0, 22.0, 22.0),
    "SK" := RateRow(23.0, 23.0, 23.0, 23.0, 23.0, 23.0, 23.0),
    "EG" := RateRow(14.0, 14.0, 14.0, 14.0, 14.0, 14.0, 14.0),
    "CH" := RateRow(8.1, 8.1, 8.1, 8.1, 8.1, 8.1, 8.1),
    "CA" := RateRow(0.0, 0.0, 0.0, 0.0, 0.0, 0.0, 0.0),
    "NO" := RateRow(25.0, 25.0, 25.0, 25.0, 25.0, 25.0, 25.0),
    "RE" := RateRow(8.5, 8.5, 8.5, 8.5, 8.5, 8.5, 8.5),
    "GP" := RateRow(8.5, 8.5, 8.5, 8.5, 8.5, 8.5, 8.5),
    "MQ" := RateRow(8.5, 8.5, 8.5, 8.5, 8.5, 8.5, 8.5)
  ]
  /** Without a postal code, every registered country but Monaco charges
      exactly the expected rate for every category. */
  lemma RegistryMatchesExpectedRates(code: string, itemType: ItemType)
    requires code in ExpectedRates
    ensures code in Registry
    ensures GetVatRate(Registry[code], itemType, None) == ExpectedRates[code].Rate(itemType)
  {
    if code in {"AT", "BE", "BG", "CY", "CZ", "DE", "DK", "EE", "ES", "FI", "FR", "EL", "GB", "GR", "HR", "HU", "IE", "IT", "LT"} {
      FirstRowsMatch(code, itemType);
    } else {
      LastRowsMatch(code, itemType);
    }
  }

  lemma FirstRowsMatch(code: string, itemType: ItemType)
    requires code in {"AT", "BE", "BG", "CY", "CZ", "DE", "DK", "EE", "ES", "FI", "FR", "EL", "GB", "GR", "HR", "HU", "IE", "IT", "LT"}
    ensures code in Registry && code in ExpectedRates
    ensures GetVatRate(Registry[code], itemType, None) == ExpectedRates[code].Rate(itemType)
  {
    if code == "AT" { RowAt(itemType); }
    else if code == "BE" { RowBe(itemType); }
    else if code == "BG" { RowBg(itemType); }
    else if code == "CY" { RowCy(itemType); }
    else if code == "CZ" { RowCz(itemType); }
    else if code == "DE" { RowDe(itemType); }
    else if code == "DK" { RowDk(itemType); }
    else if code == "EE" { RowEe(itemType); }
    else if code == "ES" { RowEs(itemType); }
    else if code == "FI" { RowFi(itemType); }
    else if code == "FR" { RowFr(itemType); }
    else if code == "EL" { RowEl(itemType); }
    else if code == "GB" { RowGb(itemType); }
    else if code == "GR" { RowGr(itemType); }
    else if code == "HR" { RowHr(itemType); }
    else if code == "HU" { RowHu(itemType); }
    else if code == "IE" { RowIe(itemType); }
    else if code == "IT" { RowIt(itemType); }
    else if code == "LT" { RowLt(itemType); }
  }

  lemma LastRowsMatch(code: string, itemType: ItemType)
    requires code in {"LU", "LV", "MT", "NL", "PL", "PT", "RO", "SE", "SI", "SK", "EG", "CH", "CA", "NO", "RE", "GP", "MQ"}
    ensures code in Registry && code in ExpectedRates
    ensures GetVatRate(Registry[code], itemType, None) == ExpectedRates[code].Rate(itemType)
  {
    if code == "LU" { RowLu(itemType); }
    else if code == "LV" { RowLv(itemType); }
    else if code == "MT" { RowMt(itemType); }
    else if code == "NL" { RowNl(itemType); }
    else if code == "PL" { RowPl(itemType); }
    else if code == "PT" { RowPt(itemType); }
    else if code == "RO" { RowRo(itemType); }
    else if code == "SE" { RowSe(itemType); }
    else if code == "SI" { RowSi(itemType); }
    else if code == "SK" { RowSk(itemType); }
    else if code == "EG" { RowEg(itemType); }
    else if code == "CH" { RowCh(itemType); }
    else if code == "CA" { RowCa(itemType); }
    else if code == "NO" { RowNo(itemType); }
    else if code == "RE" { RowRe(itemType); }
    else if code == "GP" { RowGp(itemType); }
    else if code == "MQ" { RowMq(itemType); }
  }

  // One lemma per row: each looks up one concrete key in both maps.

  lemma RowAt(itemType: ItemType)
    ensures "AT" in Registry && "AT" in ExpectedRates
    ensures GetVatRate(Registry["AT"], itemType, None) == ExpectedRates["AT"].Rate(itemType)
  {
    assert "AT" in Registry && "AT" in ExpectedRates;
    assert Registry["AT"] == At;
    assert ExpectedRates["AT"] == RateRow(20.0, 20.0, 20.0, 20.0, 10.0, 10.0, 20.0);
  }

  lemma RowBe(itemType: ItemType)
    ensures "BE" in Registry && "BE" in ExpectedRates
    ensures GetVatRate(Registry["BE"], itemType, None) == ExpectedRates["BE"].Rate(itemType)
  {
    assert "BE" in Registry && "BE" in ExpectedRates;
    assert Registry["BE"] == Be(21.0);
    assert ExpectedRates["BE"] == RateRow(21.0, 21.0, 21.0, 21.0, 21.0, 6.0, 21.0);
  }

  lemma RowBg(itemType: ItemType)
    ensures "BG" in Registry && "BG" in ExpectedRates
    ensures GetVatRate(Registry["BG"], itemType, None) == ExpectedRates["BG"].Rate(itemType)
  {
    assert "BG" in Registry && "BG" in ExpectedRates;
    assert Registry["BG"] == ConstantEu(20.0);
    assert ExpectedRates["BG"] == RateRow(20.0, 20.0, 20.0, 20.0, 20.0, 20.0, 20.0);
  }

  lemma RowCy(itemType: ItemType)
    ensures "CY" in Registry && "CY" in ExpectedRates
    ensures GetVatRate(Registry["CY"], itemType, None) == ExpectedRates["CY"].Rate(itemType)
  {
    assert "CY" in Registry && "CY" in ExpectedRates;
    assert Registry["CY"] == ConstantEu(19.0);
    assert ExpectedRates["CY"] == RateRow(19.0, 19.0, 19.0, 19.0, 19.0, 19.0, 19.0);
  }

  lemma RowCz(itemType: ItemType)
    ensures "CZ" in Registry && "CZ" in ExpectedRates
    ensures GetVatRate(Registry["CZ"], itemType, None) == ExpectedRates["CZ"].Rate(itemType)
  {
    assert "CZ" in Registry && "CZ" in ExpectedRates;
    assert Registry["CZ"] == Cz(21.0);
    assert ExpectedRates["CZ"] == RateRow(21.0, 21.0, 21.0, 21.0, 21.0, 10.0, 21.0);
  }

  lemma RowDe(itemType: ItemType)
    ensures "DE" in Registry && "DE" in ExpectedRates
    ensures GetVatRate(Registry["DE"], itemType, None) == ExpectedRates["DE"].Rate(itemType)
  {
    assert "DE" in Registry && "DE" in ExpectedRates;
    assert Registry["DE"] == De;
    assert ExpectedRates["DE"] == RateRow(19.0, 19.0, 19.0, 19.0, 19.0, 7.0, 19.0);
  }

  lemma RowDk(itemType: ItemType)
    ensures "DK" in Registry && "DK" in ExpectedRates
    ensures GetVatRate(Registry["DK"], itemType, None) == ExpectedRates["DK"].Rate(itemType)
  {
    assert "DK" in Registry && "DK" in ExpectedRates;
    assert Registry["DK"] == ConstantEu(25.0);
    assert ExpectedRates["DK"] == RateRow(25.0, 25.0, 25.0, 25.0, 25.0, 25.0, 25.0);
  }

  lemma RowEe(itemType: ItemType)
    ensures "EE" in Registry && "EE" in ExpectedRates
    ensures GetVatRate(Registry["EE"], itemType, None) == ExpectedRates["EE"].Rate(itemType)
  {
    assert "EE" in Registry && "EE" in ExpectedRates;
    assert Registry["EE"] == ConstantEu(24.0);
    assert ExpectedRates["EE"] == RateRow(24.0, 24.0, 24.0, 24.0, 24.0, 24.0, 24.0);
  }

  lemma RowEs(itemType: ItemType)
    ensures "ES" in Registry && "ES" in ExpectedRates
    ensures GetVatRate(Registry["ES"], itemType, None) == ExpectedRates["ES"].Rate(itemType)
  {
    assert "ES" in Registry && "ES" in ExpectedRates;
    assert Registry["ES"] == Es;
    assert ExpectedRates["ES"] == RateRow(21.0, 21.0, 21.0, 21.0, 21.0, 4.0, 21.0);
  }

  lemma RowFi(itemType: ItemType)
    ensures "FI" in Registry && "FI" in ExpectedRates
    ensures GetVatRate(Registry["FI"], itemType, None) == ExpectedRates["FI"].Rate(itemType)
  {
    assert "FI" in Registry && "FI" in ExpectedRates;
    assert Registry["FI"] == Fi(25.5);
    assert ExpectedRates["FI"] == RateRow(25.5, 25.5, 25.5, 25.5, 25.5, 10.0, 25.5);
  }

  lemma RowFr(itemType: ItemType)
    ensures "FR" in Registry && "FR" in ExpectedRates
    ensures GetVatRate(Registry["FR"], itemType, None) == ExpectedRates["FR"].Rate(itemType)
  {
    assert "FR" in Registry && "FR" in ExpectedRates;
    assert Registry["FR"] == Fr;
    assert ExpectedRates["FR"] == RateRow(20.0, 20.0, 20.0, 10.0, 10.0, 5.5, 2.1);
  }

  lemma RowEl(itemType: ItemType)
    ensures "EL" in Registry && "EL" in ExpectedRates
    ensures GetVatRate(Registry["EL"], itemType, None) == ExpectedRates["EL"].Rate(itemType)
  {
    assert "EL" in Registry && "EL" in ExpectedRates;
    assert Registry["EL"] == El;
    assert ExpectedRates["EL"] == RateRow(24.0, 24.0, 24.0, 24.0, 24.0, 24.0, 24.0);
  }

  lemma RowGb(itemType: ItemType)
    ensures "GB" in Registry && "GB" in ExpectedRates
    ensures GetVatRate(Registry["GB"], itemType, None) == ExpectedRates["GB"].Rate(itemType)
  {
    assert "GB" in Registry && "GB" in ExpectedRates;
    assert Registry["GB"] == Gb(20.0);
    assert ExpectedRates["GB"] == RateRow(20.0, 20.0, 20.0, 20.0, 20.0, 20.0, 20.0);
  }

  lemma RowGr(itemType: ItemType)
    ensures "GR" in Registry && "GR" in ExpectedRates
    ensures GetVatRate(Registry["GR"], itemType, None) == ExpectedRates["GR"].Rate(itemType)
  {
    assert "GR" in Registry && "GR" in ExpectedRates;
    assert Registry["GR"] == El;
    assert ExpectedRates["GR"] == RateRow(24.0, 24.0, 24.0, 24.0, 24.0, 24.0, 24.0);
  }

  lemma RowHr(itemType: ItemType)
    ensures "HR" in Registry && "HR" in ExpectedRates
    ensures GetVatRate(Registry["HR"], itemType, None) == ExpectedRates["HR"].Rate(itemType)
  {
    assert "HR" in Registry && "HR" in ExpectedRates;
    assert Registry["HR"] == Hr(25.0);
    assert ExpectedRates["HR"] == RateRow(25.0, 25.0, 25.0, 25.0, 25.0, 5.0, 25.0);
  }

  lemma RowHu(itemType: ItemType)
    ensures "HU" in Registry && "HU" in ExpectedRates
    ensures GetVatRate(Registry["HU"], itemType, None) == ExpectedRates["HU"].Rate(itemType)
  {
    assert "HU" in Registry && "HU" in ExpectedRates;
    assert Registry["HU"] == ConstantEu(27.0);
    assert ExpectedRates["HU"] == RateRow(27.0, 27.0, 27.0, 27.0, 27.0, 27.0, 27.0);
  }

  lemma RowIe(itemType: ItemType)
    ensures "IE" in Registry && "IE" in ExpectedRates
    ensures GetVatRate(Registry["IE"], itemType, None) == ExpectedRates["IE"].Rate(itemType)
  {
    assert "IE" in Registry && "IE" in ExpectedRates;
    assert Registry["IE"] == Ie(23.0);
    assert ExpectedRates["IE"] == RateRow(23.0, 23.0, 23.0, 23.0, 23.0, 9.0, 23.0);
  }

  lemma RowIt(itemType: ItemType)
    ensures "IT" in Registry && "IT" in ExpectedRates
    ensures GetVatRate(Registry["IT"], itemType, None) == ExpectedRates["IT"].Rate(itemType)
  {
    assert "IT" in Registry && "IT" in ExpectedRates;
    assert Registry["IT"] == ConstantEu(22.0);
    assert ExpectedRates["IT"] == RateRow(22.0, 22.0, 22.0, 22.0, 22.0, 22.0, 22.0);
  }

  lemma RowLt(itemType: ItemType)
    ensures "LT" in Registry && "LT" in ExpectedRates
    ensures GetVatRate(Registry["LT"], itemType, None) == ExpectedRates["LT"].Rate(itemType)
  {
    assert "LT" in Registry && "LT" in ExpectedRates;
    assert Registry["LT"] == ConstantEu(21.0);
    assert ExpectedRates["LT"] == RateRow(21.0, 21.0, 21.0, 21.0, 21.0, 21.0, 21.0);
  }

  lemma RowLu(itemType: ItemType)
    ensures "LU" in Registry && "LU" in ExpectedRates
    ensures GetVatRate(Registry["LU"], itemType, None) == ExpectedRates["LU"].Rate(itemType)
  {
    assert "LU" in Registry && "LU" in ExpectedRates;
    assert Registry["LU"] == Lu;
    assert ExpectedRates["LU"] == RateRow(17.0, 17.0, 17.0, 3.0, 3.0, 3.0, 17.0);
  }

  lemma RowLv(itemType: ItemType)
    ensures "LV" in Registry && "LV" in ExpectedRates
    ensures GetVatRate(Registry["LV"], itemType, None) == ExpectedRates["LV"].Rate(itemType)
  {
    assert "LV" in Registry && "LV" in ExpectedRates;
    assert Registry["LV"] == ConstantEu(21.0);
    assert ExpectedRates["LV"] == RateRow(21.0, 21.0, 21.0, 21.0, 21.0, 21.0, 21.0);
  }

  lemma RowMt(itemType: ItemType)
    ensures "MT" in Registry && "MT" in ExpectedRates
    ensures GetVatRate(Registry["MT"], itemType, None) == ExpectedRates["MT"].Rate(itemType)
  {
    assert "MT" in Registry && "MT" in ExpectedRates;
    assert Registry["MT"] == Mt(18.0);
    assert ExpectedRates["MT"] == RateRow(18.0, 18.0, 18.0, 18.0, 18.0, 5.0, 18.0);
  }

  lemma RowNl(itemType: ItemType)
    ensures "NL" in Registry && "NL" in ExpectedRates
    ensures GetVatRate(Registry["NL"], itemType, None) == ExpectedRates["NL"].Rate(itemType)
  {
    assert "NL" in Registry && "NL" in ExpectedRates;
    assert Registry["NL"] == Nl(21.0);
    assert ExpectedRates["NL"] == RateRow(21.0, 21.0, 21.0, 21.0, 21.0, 9.0, 21.0);
  }

  lemma RowPl(itemType: ItemType)
    ensures "PL" in Registry && "PL" in ExpectedRates
    ensures GetVatRate(Registry["PL"], itemType, None) == ExpectedRates["PL"].Rate(itemType)
  {
    assert "PL" in Registry && "PL" in ExpectedRates;
    assert Registry["PL"] == Pl;
    assert ExpectedRates["PL"] == RateRow(23.0, 23.0, 23.0, 8.0, 8.0, 5.0, 23.0);
  }

  lemma RowPt(itemType: ItemType)
    ensures "PT" in Registry && "PT" in ExpectedRates
    ensures GetVatRate(Registry["PT"], itemType, None) == ExpectedRates["PT"].Rate(itemType)
  {
    assert "PT" in Registry && "PT" in ExpectedRates;
    assert Registry["PT"] == Pt(23.0);
    assert ExpectedRates["PT"] == RateRow(23.0, 23.0, 23.0, 23.0, 23.0, 6.0, 23.0);
  }

  lemma RowRo(itemType: ItemType)
    ensures "RO" in Registry && "RO" in ExpectedRates
    ensures GetVatRate(Registry["RO"], itemType, None) == ExpectedRates["RO"].Rate(itemType)
  {
    assert "RO" in Registry && "RO" in ExpectedRates;
    assert Registry["RO"] == ConstantEu(21.0);
    assert ExpectedRates["RO"] == RateRow(21.0, 21.0, 21.0, 21.0, 21.0, 21.0, 21.0);
  }

  lemma RowSe(itemType: ItemType)
    ensures "SE" in Registry && "SE" in ExpectedRates
    ensures GetVatRate(Registry["SE"], itemType, None) == ExpectedRates["SE"].Rate(itemType)
  {
    assert "SE" in Registry && "SE" in ExpectedRates;
    assert Registry["SE"] == Se(25.0);
    assert ExpectedRates["SE"] == RateRow(25.0, 25.0, 25.0, 25.0, 25.0, 6.0, 25.0);
  }

  lemma RowSi(itemType: ItemType)
    ensures "SI" in Registry && "SI" in ExpectedRates
    ensures GetVatRate(Registry["SI"], itemType, None) == ExpectedRates["SI"].Rate(itemType)
  {
    assert "SI" in Registry && "SI" in ExpectedRates;
    assert Registry["SI"] == ConstantEu(22.0);
    assert ExpectedRates["SI"] == RateRow(22.0, 22.0, 22.0, 22.0, 22.0, 22.0, 22.0);
  }

  lemma RowSk(itemType: ItemType)
    ensures "SK" in Registry && "SK" in ExpectedRates
    ensures GetVatRate(Registry["SK"], itemType, None) == ExpectedRates["SK"].Rate(itemType)
  {
    assert "SK" in Registry && "SK" in ExpectedRates;
    assert Registry["SK"] == ConstantEu(23.0);
    assert ExpectedRates["SK"] == RateRow(23.0, 23.0, 23.0, 23.0, 23.0, 23.0, 23.0);
  }

  lemma RowEg(itemType: ItemType)
    ensures "EG" in Registry && "EG" in ExpectedRates
    ensures GetVatRate(Registry["EG"], itemType, None) == ExpectedRates["EG"].Rate(itemType)
  {
    assert "EG" in Registry && "EG" in ExpectedRates;
    assert Registry["EG"] == NonEu(14.0);
    assert ExpectedRates["EG"] == RateRow(14.0, 14.0, 14.0, 14.0, 14.0, 14.0, 14.0);
  }

  lemma RowCh(itemType: ItemType)
    ensures "CH" in Registry && "CH" in ExpectedRates
    ensures GetVatRate(Registry["CH"], itemType, None) == ExpectedRates["CH"].Rate(itemType)
  {
    assert "CH" in Registry && "CH" in ExpectedRates;
    assert Registry["CH"] == NonEu(8.1);
    assert ExpectedRates["CH"] == RateRow(8.1, 8.1, 8.1, 8.1, 8.1, 8.1, 8.1);
  }

  lemma RowCa(itemType: ItemType)
    ensures "CA" in Registry && "CA" in ExpectedRates
    ensures GetVatRate(Registry["CA"], itemType, None) == ExpectedRates["CA"].Rate(itemType)
  {
    assert "CA" in Registry && "CA" in ExpectedRates;
    assert Registry["CA"] == NonEu(0.0);
    assert ExpectedRates["CA"] == RateRow(0.0, 0.0, 0.0, 0.0, 0.0, 0.0, 0.0);
  }

  lemma RowNo(itemType: ItemType)
    ensures "NO" in Registry && "NO" in ExpectedRates
    ensures GetVatRate(Registry["NO"], itemType, None) == ExpectedRates["NO"].Rate(itemType)
  {
    assert "NO" in Registry && "NO" in ExpectedRates;
    assert Registry["NO"] == NonEu(25.0);
    assert ExpectedRates["NO"] == RateRow(25.0, 25.0, 25.0, 25.0, 25.0, 25.0, 25.0);
  }

  lemma RowRe(itemType: ItemType)
    ensures "RE" in Registry && "RE" in ExpectedRates
    ensures GetVatRate(Registry["RE"], itemType, None) == ExpectedRates["RE"].Rate(itemType)
  {
    assert "RE" in Registry && "RE" in ExpectedRates;
    assert Registry["RE"] == ConstantEu(8.5);
    assert ExpectedRates["RE"] == RateRow(8.5, 8.5, 8.5, 8.5, 8.5, 8.5, 8.5);
  }

  lemma RowGp(itemType: ItemType)
    ensures "GP" in Registry && "GP" in ExpectedRates
    ensures GetVatRate(Registry["GP"], itemType, None) == ExpectedRates["GP"].Rate(itemType)
  {
    assert "GP" in Registry && "GP" in ExpectedRates;
    assert Registry["GP"] == ConstantEu(8.5);
    assert ExpectedRates["GP"] == RateRow(8.5, 8.5, 8.5, 8.5, 8.5, 8.5, 8.5);
  }

  lemma RowMq(itemType: ItemType)
    ensures "MQ" in Registry && "MQ" in ExpectedRates
    ensures GetVatRate(Registry["MQ"], itemType, None) == ExpectedRates["MQ"].Rate(itemType)
  {
    assert "MQ" in Registry && "MQ" in ExpectedRates;
    assert Registry["MQ"] == ConstantEu(8.5);
    assert ExpectedRates["MQ"] == RateRow(8.5, 8.5, 8.5, 8.5, 8.5, 8.5, 8.5);
  }
}
