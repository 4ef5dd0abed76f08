/** The product configurator (`Configurator.jsx`): the default choice for
    each configurable feature, the price of a customization, the price
    breakdown, a feature change and saving a quote. Object keys are listed
    in insertion order: JavaScript lists integer-like keys (`"0"`, `"12"`)
    first, in numeric order, and the model assumes feature and option keys
    are not of that form. */
module Configurator {
  import opened Common

  /** One option of a feature; `additionalCost` in cents, `None` when the
      option has no `additional_cost`. */
  datatype Choice = Choice(name: string, additionalCost: Option<int>)

  /** A feature's value: an object of named options, or anything else (an
      array, a string, a number), which offers no options. */
  datatype FeatureValue = Choices(options: seq<Choice>) | Plain

  datatype Feature = Feature(key: string, value: FeatureValue)

  datatype Product = Product(id: int, price: int, features: Option<seq<Feature>>)

  /** One key of the `customization` object; `None` is `undefined`, what an
      options object without keys yields for its first key. */
  datatype Selection = Selection(feature: string, option: Option<string>)

  /** The first feature with this key. */
  function Lookup(features: seq<Feature>, key: string): (r: Option<FeatureValue>)
    ensures r.Some? ==> exists i :: 0 <= i < |features| && features[i].key == key && features[i].value == r.value
    ensures r.None? ==> forall i :: 0 <= i < |features| ==> features[i].key != key
  {
    if features == [] then None
    else if features[0].key == key then Some(features[0].value)
    else
      var r := Lookup(features[1..], key);
      assert forall i :: 1 <= i < |features| ==> features[1..][i - 1] == features[i];
      r
  }

  function FindChoice(options: seq<Choice>, name: string): (r: Option<Choice>)
    ensures r.Some? ==> r.value in options && r.value.name == name
    ensures r.None? ==> forall i :: 0 <= i < |options| ==> options[i].name != name
  {
    if options == [] then None
    else if options[0].name == name then Some(options[0])
    else FindChoice(options[1..], name)
  }

  /** The default for one feature: its first option, when it has options. */
  function DefaultFor(f: Feature): Selection
    requires f.value.Choices?
  {
    Selection(f.key, if f.value.options != [] then Some(f.value.options[0].name) else None)
  }

  /** The defaults for every feature that has options, in feature order. */
  function Defaults(features: seq<Feature>): seq<Selection>
  {
    if features == [] then []
    else
      var f := features[|features| - 1];
      Defaults(features[..|features| - 1]) + (if f.value.Choices? then [DefaultFor(f)] else [])
  }

  /** A feature gets a default exactly when it has options, and the default
      is its first option. */
  lemma {:induction false} DefaultsExact(features: seq<Feature>)
    ensures forall s :: s in Defaults(features) <==>
      exists i :: 0 <= i < |features| && features[i].value.Choices? && s == DefaultFor(features[i])
    ensures |Defaults(features)| <= |features|
  {
    if features != [] {
      var init := features[..|features| - 1];
      DefaultsExact(init);
      assert forall i :: 0 <= i < |init| ==> init[i] == features[i];
      forall s | s in Defaults(features)
        ensures exists i :: 0 <= i < |features| && features[i].value.Choices? && s == DefaultFor(features[i])
      {
        if s in Defaults(init) {
          var i :| 0 <= i < |init| && init[i].value.Choices? && s == DefaultFor(init[i]);
          assert features[i] == init[i];
        }
      }
    }
  }

  /** The `forEach` that fills the default customization when the product is
      loaded; a product without features keeps the empty customization. */
  method DefaultCustomization(product: Product) returns (c: seq<Selection>)
    ensures product.features.None? ==> c == []
    ensures product.features.Some? ==> c == Defaults(product.features.value)
  {
    c := [];
    if product.features.None? {
      return;
    }
    var fs := product.features.value;
    var i := 0;
    while i < |fs|
      invariant 0 <= i <= |fs|
      invariant c == Defaults(fs[..i])
    {
      assert fs[..i + 1][..i] == fs[..i];
      var f := fs[i];
      if f.value.Choices? {
        c := c + [Selection(f.key, if f.value.options != [] then Some(f.value.options[0].name) else None)];
      }
      i := i + 1;
    }
    assert fs[..i] == fs;
  }

  /** What a selection adds: the chosen option's cost when the feature has
      that option, a missing cost counting as zero; nothing otherwise. */
  function Cost(features: seq<Feature>, s: Selection): int
  {
    var v := Lookup(features, s.feature);
    if v.Some? && v.value.Choices? && s.option.Some? && FindChoice(v.value.options, s.option.value).Some? then
      var cost := FindChoice(v.value.options, s.option.value).value.additionalCost;
      if cost.Some? then cost.value else 0
    else 0
  }

  function CostFor(features: seq<Feature>): Selection -> int
  {
    (s: Selection) => Cost(features, s)
  }

  function FeaturesOf(p: Product): seq<Feature>
  {
    if p.features.Some? then p.features.value else []
  }

  /** `calculateTotalPrice`: the base price plus, key by key, the cost of
      each selected option. */
  method TotalPrice(product: Product, c: seq<Selection>) returns (price: int)
    ensures price == product.price + Sum(c, CostFor(FeaturesOf(product)))
  {
    var fs := FeaturesOf(product);
    price := product.price;
    var i := 0;
    while i < |c|
      invariant 0 <= i <= |c|
      invariant price == product.price + Sum(c[..i], CostFor(fs))
    {
      assert c[..i + 1][..i] == c[..i];
      var v := Lookup(fs, c[i].feature);
      if v.Some? && v.value.Choices? && c[i].option.Some? {
        var choice := FindChoice(v.value.options, c[i].option.value);
        if choice.Some? {
          price := price + (if choice.value.additionalCost.Some? then choice.value.additionalCost.value else 0);
        }
      }
      i := i + 1;
    }
    assert c[..i] == c;
  }

  /** A line of the price summary: a feature and what its option adds. */
  datatype Line = Line(feature: string, amount: int)

  /** The summary shows a line only for a selection that adds a positive
      amount, in customization order. */
  function Breakdown(features: seq<Feature>, c: seq<Selection>): (r: seq<Line>)
    ensures forall l :: l in r ==> l.amount > 0
    ensures forall l :: l in r <==> exists i :: 0 <= i < |c| && Cost(features, c[i]) > 0 && l == Line(c[i].feature, Cost(features, c[i]))
  {
    if c == [] then []
    else
      var init := c[..|c| - 1];
      var s := c[|c| - 1];
      var r := Breakdown(features, init) + (if Cost(features, s) > 0 then [Line(s.feature, Cost(features, s))] else []);
      assert forall i :: 0 <= i < |init| ==> init[i] == c[i];
      r
  }

  function Amount(l: Line): int { l.amount }

  /** When no option costs less than nothing, the base price and the
      summary lines add up to the total. */
  lemma {:induction false} BreakdownAddsUp(features: seq<Feature>, c: seq<Selection>)
    requires forall i :: 0 <= i < |c| ==> Cost(features, c[i]) >= 0
    ensures Sum(Breakdown(features, c), Amount) == Sum(c, CostFor(features))
  {
    if c != [] {
      var init := c[..|c| - 1];
      var s := c[|c| - 1];
      BreakdownAddsUp(features, init);
      var lines := Breakdown(features, init);
      assert Sum(c, CostFor(features)) == Sum(init, CostFor(features)) + Cost(features, s);
      if Cost(features, s) > 0 {
        var l := Line(s.feature, Cost(features, s));
        assert (lines + [l])[..|lines|] == lines;
      } else {
        assert Breakdown(features, c) == lines;
      }
    }
  }

  /** The selection of a feature, if the customization has one. */
  function Selected(c: seq<Selection>, feature: string): Option<Option<string>>
  {
    if c == [] then None
    else if c[0].feature == feature then Some(c[0].option)
    else Selected(c[1..], feature)
  }

  /** `handleCustomizationChange`: `{...prev, [feature]: value}` replaces the
      feature's option where it stands, or adds the feature last. */
  function Change(c: seq<Selection>, feature: string, value: string): (r: seq<Selection>)
    ensures Selected(r, feature) == Some(Some(value))
    ensures forall k :: k != feature ==> Selected(r, k) == Selected(c, k)
    ensures |r| == |c| || |r| == |c| + 1
  {
    if c == [] then [Selection(feature, Some(value))]
    else if c[0].feature == feature then [Selection(feature, Some(value))] + c[1..]
    else
      var rest := Change(c[1..], feature, value);
      assert ([c[0]] + rest)[1..] == rest;
      [c[0]] + rest
  }

  datatype QuoteRequest = QuoteRequest(productId: int, customization: seq<Selection>)

  datatype SaveOutcome = RedirectToLogin | Send(request: QuoteRequest)

  /** `saveQuote`: without a user it redirects to the login page and sends
      nothing; otherwise it posts the product and the customization. */
  function SaveQuote(user: Option<string>, productId: int, c: seq<Selection>): (r: SaveOutcome)
    ensures user.None? <==> r == RedirectToLogin
    ensures r.Send? ==> r.request.customization == c && r.request.productId == productId
  {
    if user.None? then RedirectToLogin else Send(QuoteRequest(productId, c))
  }
}
