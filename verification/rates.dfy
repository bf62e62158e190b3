/**
 * The rate transformation of the `/prices` handler (backend/app.py:48-54).
 * Upstream quotes each metal as "ounces of metal per US dollar"; the handler
 * renames every key `m` to `"USD" + m` and replaces the rate by its
 * reciprocal, "US dollars per ounce", mapping a zero rate to `None` instead
 * of dividing by it. Rates are exact reals here.
 */
module Rates {
  import opened Wrappers
  import Config

  /** Output key for a metal code: the base currency followed by the code. */
  function UsdKey(metal: string): string {
    Config.BASE + metal
  }

  /** The metal code named by an output key: the key without its currency prefix. */
  function MetalOf(key: string): string
    requires |key| >= |Config.BASE|
  {
    key[|Config.BASE|..]
  }

  /** Renaming loses nothing: the metal code is recovered from its key. */
  lemma MetalOfUsdKey(metal: string)
    ensures |UsdKey(metal)| >= |Config.BASE|
    ensures MetalOf(UsdKey(metal)) == metal
  {
    assert UsdKey(metal)[|Config.BASE|..] == metal;
  }

  /** Distinct metals never share an output key. */
  lemma UsdKeyInjective(a: string, b: string)
    requires UsdKey(a) == UsdKey(b)
    ensures a == b
  {
    MetalOfUsdKey(a);
    MetalOfUsdKey(b);
  }

  /**
   * Price of one ounce for a quoted rate: the reciprocal when the rate is
   * nonzero, absent when it is zero (no division by zero takes place).
   */
  function Invert(rate: real): (price: Option<real>)
    ensures price.Some? <==> rate != 0.0
    ensures price.Some? ==> price.value * rate == 1.0
  {
    if rate != 0.0 then Some(1.0 / rate) else None
  }

  /** The output keys for a set of metal codes. */
  function UsdKeys(metals: set<string>): set<string> {
    set m | m in metals :: UsdKey(m)
  }

  /**
   * The whole transformation: exactly one output key per quoted metal,
   * holding that metal's inverted rate.
   */
  function InvertRates(rates: map<string, real>): (usd: map<string, Option<real>>)
    ensures usd.Keys == UsdKeys(rates.Keys)
    ensures forall m :: m in rates ==> UsdKey(m) in usd && usd[UsdKey(m)] == Invert(rates[m])
  {
    forall a, b | a in rates && b in rates && UsdKey(a) == UsdKey(b)
      ensures a == b
    {
      UsdKeyInjective(a, b);
    }
    map m | m in rates :: UsdKey(m) := Invert(rates[m])
  }

  /**
   * Every quoted metal gets a price whose product with its rate is 1, except
   * a metal quoted at zero, whose price is absent.
   */
  lemma InvertRatesReciprocal(rates: map<string, real>, metal: string)
    requires metal in rates
    ensures UsdKey(metal) in InvertRates(rates)
    ensures rates[metal] != 0.0 ==>
              InvertRates(rates)[UsdKey(metal)].Some? &&
              InvertRates(rates)[UsdKey(metal)].value * rates[metal] == 1.0
    ensures rates[metal] == 0.0 ==> InvertRates(rates)[UsdKey(metal)] == None
  {
    var price := Invert(rates[metal]);
    assert InvertRates(rates)[UsdKey(metal)] == price;
  }

  /** Each output key names a quoted metal, and its value is that metal's inverted rate. */
  lemma InvertRatesKeysBack(rates: map<string, real>, key: string)
    requires key in InvertRates(rates)
    ensures |key| >= |Config.BASE|
    ensures MetalOf(key) in rates
    ensures InvertRates(rates)[key] == Invert(rates[MetalOf(key)])
  {
    var m :| m in rates && UsdKey(m) == key;
    MetalOfUsdKey(m);
  }

  /** The image of a set under the key renaming is as large as the set. */
  lemma {:induction false} UsdKeysCardinality(metals: set<string>)
    ensures |UsdKeys(metals)| == |metals|
    decreases |metals|
  {
    if metals != {} {
      var m :| m in metals;
      var rest := metals - {m};
      UsdKeysCardinality(rest);
      assert UsdKeys(metals) == UsdKeys(rest) + {UsdKey(m)};
      if UsdKey(m) in UsdKeys(rest) {
        var m' :| m' in rest && UsdKey(m') == UsdKey(m);
        UsdKeyInjective(m', m);
        assert false;
      }
    }
  }

  /** The transformation neither merges nor invents entries. */
  lemma InvertRatesSize(rates: map<string, real>)
    ensures |InvertRates(rates)| == |rates|
  {
    UsdKeysCardinality(rates.Keys);
    assert |InvertRates(rates).Keys| == |UsdKeys(rates.Keys)|;
  }

  /**
   * The handler's loop over the quoted rates, one metal at a time in
   * whatever order the rates arrive; the result does not depend on that order.
   */
  method ConvertRates(rates: map<string, real>) returns (usd: map<string, Option<real>>)
    ensures usd == InvertRates(rates)
  {
    usd := map[];
    var todo := rates.Keys;
    while todo != {}
      invariant todo <= rates.Keys
      invariant forall m :: m in rates && m !in todo ==> UsdKey(m) in usd && usd[UsdKey(m)] == Invert(rates[m])
      invariant forall k :: k in usd ==> exists m :: m in rates && m !in todo && k == UsdKey(m)
      decreases todo
    {
      var metal :| metal in todo;
      forall m | m in rates && m !in todo
        ensures UsdKey(m) != UsdKey(metal)
      {
        if UsdKey(m) == UsdKey(metal) {
          UsdKeyInjective(m, metal);
        }
      }
      usd := usd[UsdKey(metal) := Invert(rates[metal])];
      todo := todo - {metal};
    }
    var expected := InvertRates(rates);
    assert usd.Keys == expected.Keys;
  }

  /** A worked example: gold quoted at 0.0005 and silver at 0.04 ounces per dollar. */
  lemma SampleQuote()
    ensures InvertRates(map["XAU" := 0.0005, "XAG" := 0.04])
         == map["USDXAU" := Some(2000.0), "USDXAG" := Some(25.0)]
  {
    var rates := map["XAU" := 0.0005, "XAG" := 0.04];
    var out := InvertRates(rates);
    assert UsdKey("XAU") == "USDXAU" && UsdKey("XAG") == "USDXAG";
    assert rates.Keys == {"XAU", "XAG"};
    assert UsdKeys({"XAU", "XAG"}) == {"USDXAU", "USDXAG"};
    assert Invert(0.0005) == Some(2000.0);
    assert Invert(0.04) == Some(25.0);
  }
}
