/** A trading party, as in pyvat/party.py. */
module Parties {

  import opened Wrappers

  /** A consumer or business in a country, with an optional region code. */
  datatype Party = Party(countryCode: string, isBusiness: bool, regionCode: Option<string>)

  /** The constructor: every argument is stored as given; the region code
      defaults to None. */
  function NewParty(countryCode: string, isBusiness: bool, regionCode: Option<string> := None): (p: Party)
    ensures p.countryCode == countryCode
    ensures p.isBusiness == isBusiness
    ensures p.regionCode == regionCode
  {
    Party(countryCode, isBusiness, regionCode)
  }

  /** The constructor loses nothing: two parties are equal exactly when they
      were built from the same arguments. */
  lemma NewPartyInjective(c: string, b: bool, r: Option<string>, c': string, b': bool, r': Option<string>)
    ensures NewParty(c, b, r) == NewParty(c', b', r') <==> c == c' && b == b' && r == r'
  {
  }

  lemma DefaultRegionIsNone(countryCode: string, isBusiness: bool)
    ensures NewParty(countryCode, isBusiness).regionCode == None
  {
  }

  /** Python truthiness of the region code: present and non-empty. */
  predicate HasRegion(p: Party) {
    p.regionCode.Some? && p.regionCode.value != ""
  }

  /** Python's `%r` of a bool. */
  function BoolRepr(b: bool): (s: string) {
    if b then "True" else "False"
  }

  /** `sub` occurs somewhere in `s`. */
  predicate Contains(s: string, sub: string) {
    exists i :: 0 <= i <= |s| - |sub| && sub <= s[i..]
  }

  /** A string occurs at the start of any extension of itself. */
  lemma ContainsAtStart(sub: string, y: string)
    ensures Contains(sub + y, sub)
  {
    assert (sub + y)[0..] == sub + y;
  }

  /** An occurrence in `s` is still one after a prefix is put before `s`. */
  lemma ContainsAfterPrefix(x: string, s: string, sub: string)
    requires Contains(s, sub)
    ensures Contains(x + s, sub)
  {
    var i :| 0 <= i <= |s| - |sub| && sub <= s[i..];
    assert (x + s)[|x| + i..] == s[i..];
  }

  /** `country code = <code>` */
  function CountryField(p: Party): (s: string) {
    "country code = " + p.countryCode
  }

  /** `is business = True` or `is business = False` */
  function BusinessField(p: Party): (s: string) {
    "is business = " + BoolRepr(p.isBusiness)
  }

  /** `, region code = <code>` when the region code is truthy, else nothing. */
  function RegionSuffix(p: Party): (s: string) {
    if HasRegion(p) then ", " + ("region code = " + p.regionCode.value) else ""
  }

  /** `repr(party)`, e.g. `<pyvat.Party: country code = ES, is business = False, region code = CE>`. */
  function Repr(p: Party): (s: string) {
    "<pyvat.Party: " + (CountryField(p) + (", " + (BusinessField(p) + (RegionSuffix(p) + ">"))))
  }

  /** A string with a letter that `s` lacks does not occur in `s`. */
  lemma MissingLetterNotContained(s: string, sub: string, k: nat)
    requires k < |sub| && sub[k] !in s
    ensures !Contains(s, sub)
  {
    forall i | 0 <= i <= |s| - |sub|
      ensures !(sub <= s[i..])
    {
      assert s[i..][k] == s[i + k];
      assert s[i + k] in s;
    }
  }

  /** The repr always shows the country code. */
  lemma ReprShowsCountry(p: Party)
    ensures Contains(Repr(p), "country code = " + p.countryCode)
  {
    var rest := ", " + (BusinessField(p) + (RegionSuffix(p) + ">"));
    ContainsAtStart(CountryField(p), rest);
    ContainsAfterPrefix("<pyvat.Party: ", CountryField(p) + rest, CountryField(p));
  }

  /** The repr always shows the business flag. */
  lemma ReprShowsBusiness(p: Party)
    ensures Contains(Repr(p), "is business = " + BoolRepr(p.isBusiness))
  {
    var sub := BusinessField(p);
    var tail := sub + (RegionSuffix(p) + ">");
    ContainsAtStart(sub, RegionSuffix(p) + ">");
    ContainsAfterPrefix(", ", tail, sub);
    ContainsAfterPrefix(CountryField(p), ", " + tail, sub);
    ContainsAfterPrefix("<pyvat.Party: ", CountryField(p) + (", " + tail), sub);
  }

  /** The repr shows `region code = <code>` whenever the region code is truthy. */
  lemma ReprShowsRegion(p: Party)
    requires HasRegion(p)
    ensures Contains(Repr(p), "region code = " + p.regionCode.value)
  {
    var sub := "region code = " + p.regionCode.value;
    var suffix := RegionSuffix(p) + ">";
    ContainsAtStart(sub, ">");
    ContainsAfterPrefix(", ", sub + ">", sub);
    assert suffix == ", " + (sub + ">");
    ContainsAfterPrefix(BusinessField(p), suffix, sub);
    ContainsAfterPrefix(", ", BusinessField(p) + suffix, sub);
    ContainsAfterPrefix(CountryField(p), ", " + (BusinessField(p) + suffix), sub);
    ContainsAfterPrefix("<pyvat.Party: ", CountryField(p) + (", " + (BusinessField(p) + suffix)), sub);
  }

  /** Outside the country code, the repr text has no letter `g` unless a
      region is shown, so for a country code without one (every ISO alpha-2
      code is upper case) the words `region code` appear exactly when the
      region code is truthy. */
  lemma ReprRegionIff(p: Party)
    requires 'g' !in p.countryCode
    ensures Contains(Repr(p), "region code") <==> HasRegion(p)
  {
    var s := Repr(p);
    if HasRegion(p) {
      ReprShowsRegion(p);
      var sub := "region code = " + p.regionCode.value;
      var i :| 0 <= i <= |s| - |sub| && sub <= s[i..];
      assert "region code" <= s[i..];
    } else {
      var head := "<pyvat.Party: ";
      var b := BoolRepr(p.isBusiness);
      assert 'g' !in head by {
        forall k | 0 <= k < |head| ensures head[k] != 'g' { }
      }
      assert 'g' !in "country code = " by {
        forall k | 0 <= k < |"country code = "| ensures "country code = "[k] != 'g' { }
      }
      assert 'g' !in "is business = " by {
        forall k | 0 <= k < |"is business = "| ensures "is business = "[k] != 'g' { }
      }
      assert 'g' !in b;
      assert 'g' !in CountryField(p);
      assert 'g' !in BusinessField(p);
      assert RegionSuffix(p) == "";
      assert 'g' !in s;
      MissingLetterNotContained(s, "region code", 2);
    }
  }
}
