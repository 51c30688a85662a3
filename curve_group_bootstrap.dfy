/** The group level of `CfetsRatesCurveBootstrap`: for each curve group with
    entries, every curve definition that has an entry is bootstrapped once per
    floating-rate index of the entry, and the result is recorded for the index
    and under the curve's name; then each discount currency of the group's
    entries is mapped to the built curve the group names for it. The rates
    provider's builder rejects a currency whose named curve was never built. */
module CurveGroupBootstrap {
  import opened Basics
  import opened Curves
  import opened RootFinding
  import opened RatesCurveBootstrap

  datatype FloatingRateIndex = FloatingRateIndex(name: string, dayCount: DayCount)

  /** An index of a curve group entry: a floating-rate index or any other kind. */
  datatype Index = Floating(index: FloatingRateIndex) | OtherIndex(name: string)

  /** `RatesCurveGroupEntry`: the curve's name, the currencies it discounts and
      the indices it forecasts (sets in the source, iterated here in the order given). */
  datatype CurveGroupEntry = CurveGroupEntry(curveName: string, discountCurrencies: seq<Currency>, indices: seq<Index>)

  /** The identifier of a market data value (a quote). */
  type MarketDataId = string

  /** `CurveNode`: its label and the market data it requires (`requirements()`). */
  datatype CurveNode = CurveNode(nodeLabel: string, requirements: set<MarketDataId>)

  /** `CurveDefinition`: the curve's name and its nodes. */
  datatype CurveDefinition = CurveDefinition(name: string, nodes: seq<CurveNode>)

  /** `RatesCurveGroupDefinition`. */
  datatype CurveGroupDefinition = CurveGroupDefinition(
    name: string, entries: seq<CurveGroupEntry>, curveDefinitions: seq<CurveDefinition>)

  /** `MarketData`: the valuation date and the quotes by identifier (time
      series are not part of this model). */
  datatype MarketData = MarketData(valuationDate: Date, values: map<MarketDataId, real>)

  /** Where the FX rates of a rates provider come from. */
  datatype FxRateProvider = MarketDataFxRates(marketData: MarketData) | KnownFxRates(name: string)

  /** The part of the `knownData` rates provider the bootstrap reads. */
  datatype KnownData = KnownData(valuationDate: Date, fxRateProvider: FxRateProvider)

  /** The `ImmutableRatesProvider` the group bootstrap returns. */
  datatype RatesProvider = RatesProvider(
    valuationDate: Date,
    indexCurves: map<Index, Curve>,
    discountCurves: map<Currency, Curve>,
    fxRateProvider: FxRateProvider)

  /** The collaborators of the bootstrap: the cashflow-set order, the calendar
      and pricing functions, the root finder, and `CurveNode.trade(1,
      marketData, refData)`, the trade a node builds from the market data. */
  datatype Environment = Environment(
    order: CashFlowsOrder, coll: Collaborators, rootFinder: RootFinder,
    nodeTrade: (CurveNode, MarketData) -> Trade)

  /** The three maps the group bootstrap fills: `indexCurves`, `builtCurves`
      (by curve name) and `discountCurves`, where `None` is the `null` that
      `builtCurves.get` returns for a name with no built curve. */
  datatype Built = Built(
    indexCurves: map<Index, Curve>,
    builtCurves: map<string, Curve>,
    discountCurves: map<Currency, Option<Curve>>)

  const NoneBuilt := Built(map[], map[], map[])

  // ------------------------------------------------------------- lookups

  /** `findEntry(curveName)`: the group's entry for that curve. */
  function FindEntry(group: CurveGroupDefinition, curveName: string): Option<CurveGroupEntry> {
    FindFirst(group.entries, (e: CurveGroupEntry) => e.curveName == curveName)
  }

  /** `findDiscountCurveName(currency)`: the curve of the first entry that discounts the currency. */
  function FindDiscountCurveName(group: CurveGroupDefinition, currency: Currency): (r: Option<string>)
    ensures r.None? <==> forall e :: e in group.entries ==> currency !in e.discountCurrencies
    ensures r.Some? ==> exists e :: e in group.entries && currency in e.discountCurrencies && e.curveName == r.value
  {
    match FindFirst(group.entries, (e: CurveGroupEntry) => currency in e.discountCurrencies)
    case None => None
    case Some(e) => Some(e.curveName)
  }

  /** `filter(index -> index instanceof FloatingRateIndex).map(cast)`. */
  function FloatingIndices(indices: seq<Index>): (r: seq<FloatingRateIndex>)
    ensures forall x :: x in r <==> Floating(x) in indices
    decreases |indices|
  {
    if indices == [] then []
    else
      var init := FloatingIndices(indices[..|indices| - 1]);
      assert indices == indices[..|indices| - 1] + [indices[|indices| - 1]];
      match indices[|indices| - 1]
      case Floating(x) => init + [x]
      case OtherIndex(_) => init
  }

  /** Java's `Map.get`: the value, or `null`. */
  function Get<K, V>(m: map<K, V>, k: K): Option<V> {
    if k in m then Some(m[k]) else None
  }

  // -------------------------------------------------------------- curves

  /** The trades of the definition's nodes, each built from the market data at quantity 1. */
  function NodeTrades(def: CurveDefinition, market: MarketData, env: Environment): (r: seq<Trade>)
    ensures |r| == |def.nodes| && forall j :: 0 <= j < |def.nodes| ==> r[j] == env.nodeTrade(def.nodes[j], market)
  {
    seq(|def.nodes|, j requires 0 <= j < |def.nodes| => env.nodeTrade(def.nodes[j], market))
  }

  /** The private `bootstrap(def, ..., index)`: the definition's payments,
      bootstrapped on the index's day count into the curve named after the
      definition. The source wraps the curve in `Optional.of`, so a curve is
      always present. */
  function CurveFor(market: MarketData, def: CurveDefinition, index: FloatingRateIndex, env: Environment): Result<Curve> {
    var payments :- Extracted(NodeTrades(def, market, env));
    CurveSpec(market.valuationDate, payments, def.name, index.dayCount, env.order, env.coll, env.rootFinder)
  }

  method BootstrapDefinition(market: MarketData, def: CurveDefinition, index: FloatingRateIndex, env: Environment)
    returns (r: Result<Option<Curve>>)
    ensures r.Ok? ==> r.value.Some?
    ensures r == match CurveFor(market, def, index, env) case Err(e) => Err(e) case Ok(c) => Ok(Some(c))
  {
    var payments := ExtractedPayments(NodeTrades(def, market, env));
    if payments.Err? {
      return Err(payments.error);
    }
    var curve := BootstrapCurve(market.valuationDate, payments.value, def.name, index.dayCount, env.order, env.coll, env.rootFinder);
    if curve.Err? {
      return Err(curve.error);
    }
    r := Ok(Some(curve.value));
  }

  /** A curve the bootstrap builds carries its definition's name. */
  lemma CurveForName(market: MarketData, def: CurveDefinition, index: FloatingRateIndex, env: Environment)
    ensures CurveFor(market, def, index, env).Ok? ==>
      && CurveFor(market, def, index, env).value.metadata.curveName == def.name
      && CurveFor(market, def, index, env).value.metadata.dayCount == index.dayCount
  {
    var payments := Extracted(NodeTrades(def, market, env));
    if payments.Ok? {
      CurveNodes(market.valuationDate, payments.value, def.name, index.dayCount, env.order, env.coll, env.rootFinder);
    }
  }

  /** The inner `forEach`: record the index's curve for the index and under its name. */
  function IndexStep(market: MarketData, def: CurveDefinition, env: Environment): (Built, FloatingRateIndex, nat) -> Result<Built> {
    (b: Built, index: FloatingRateIndex, i: nat) =>
      match CurveFor(market, def, index, env)
      case Err(e) => Err(e)
      case Ok(curve) => Ok(b.(indexCurves := b.indexCurves[Floating(index) := curve],
                              builtCurves := b.builtCurves[curve.metadata.curveName := curve]))
  }

  /** One curve definition: bootstrapped for the floating-rate indices of its entry, if it has one. */
  function DefinitionStep(market: MarketData, group: CurveGroupDefinition, env: Environment): (Built, CurveDefinition, nat) -> Result<Built> {
    (b: Built, def: CurveDefinition, i: nat) =>
      match FindEntry(group, def.name)
      case None => Ok(b)
      case Some(entry) => FoldResult(b, FloatingIndices(entry.indices), IndexStep(market, def, env))
  }

  /** One discount currency: mapped to the built curve the group names for it, if it names one. */
  function CurrencyStep(group: CurveGroupDefinition): (Built, Currency, nat) -> Result<Built> {
    (b: Built, currency: Currency, i: nat) =>
      match FindDiscountCurveName(group, currency)
      case None => Ok(b)
      case Some(curveName) => Ok(b.(discountCurves := b.discountCurves[currency := Get(b.builtCurves, curveName)]))
  }

  /** One entry of the discount pass: all its discount currencies. */
  function EntryStep(group: CurveGroupDefinition): (Built, CurveGroupEntry, nat) -> Result<Built> {
    (b: Built, entry: CurveGroupEntry, i: nat) => FoldResult(b, entry.discountCurrencies, CurrencyStep(group))
  }

  /** One group: skipped without entries; otherwise its curves, then its discount currencies. */
  function GroupStep(market: MarketData, env: Environment): (Built, CurveGroupDefinition, nat) -> Result<Built> {
    (b: Built, group: CurveGroupDefinition, i: nat) =>
      if group.entries == [] then Ok(b)
      else match FoldResult(b, group.curveDefinitions, DefinitionStep(market, group, env))
        case Err(e) => Err(e)
        case Ok(withCurves) => FoldResult(withCurves, group.entries, EntryStep(group))
  }

  /** The builder of the returned provider, which rejects the `null` that a
      discount currency whose named curve was never built maps to. */
  function ProviderOf(valuationDate: Date, b: Built, fx: FxRateProvider): (r: Result<RatesProvider>)
    ensures r.Err? <==> exists c :: c in b.discountCurves && b.discountCurves[c].None?
    ensures r.Err? ==> r.error == NullDiscountCurve
    ensures r.Ok? ==>
      && r.value.valuationDate == valuationDate
      && r.value.indexCurves == b.indexCurves
      && r.value.fxRateProvider == fx
      && r.value.discountCurves.Keys == b.discountCurves.Keys
      && forall c :: c in b.discountCurves ==> b.discountCurves[c] == Some(r.value.discountCurves[c])
  {
    if exists c :: c in b.discountCurves && b.discountCurves[c].None? then Err(NullDiscountCurve)
    else Ok(RatesProvider(valuationDate, b.indexCurves, map c | c in b.discountCurves :: b.discountCurves[c].value, fx))
  }

  /** The group bootstrap: the valuation dates must agree, then the groups are
      processed in order and the maps become the rates provider. */
  function GroupsSpec(groups: seq<CurveGroupDefinition>, known: KnownData, market: MarketData, env: Environment): (r: Result<RatesProvider>)
    ensures known.valuationDate != market.valuationDate ==>
      r == Err(ValuationDatesDoNotMatch(known.valuationDate, market.valuationDate))
    ensures r.Ok? ==> r.value.valuationDate == market.valuationDate && r.value.fxRateProvider == known.fxRateProvider
  {
    if known.valuationDate != market.valuationDate then Err(ValuationDatesDoNotMatch(known.valuationDate, market.valuationDate))
    else match FoldResult(NoneBuilt, groups, GroupStep(market, env))
      case Err(e) => Err(e)
      case Ok(b) => ProviderOf(market.valuationDate, b, known.fxRateProvider)
  }

  // ------------------------------------------------------------- methods

  /** The loop over the floating-rate indices of a definition's entry. */
  method BootstrapIndices(market: MarketData, def: CurveDefinition, indices: seq<FloatingRateIndex>, built: Built, env: Environment)
    returns (r: Result<Built>)
    ensures r == FoldResult(built, indices, IndexStep(market, def, env))
  {
    var b := built;
    for k := 0 to |indices|
      invariant FoldResult(built, indices[..k], IndexStep(market, def, env)) == Ok(b)
    {
      FoldResultSnoc(built, indices, k, IndexStep(market, def, env));
      var index := indices[k];
      var curve := BootstrapDefinition(market, def, index, env);
      if curve.Err? {
        FoldResultErrSticks(built, indices, k + 1, IndexStep(market, def, env));
        return Err(curve.error);
      }
      var c := curve.value.value;
      b := b.(indexCurves := b.indexCurves[Floating(index) := c], builtCurves := b.builtCurves[c.metadata.curveName := c]);
    }
    assert indices[..|indices|] == indices;
    r := Ok(b);
  }

  /** The loop over a group's curve definitions. */
  method BootstrapDefinitions(market: MarketData, group: CurveGroupDefinition, built: Built, env: Environment)
    returns (r: Result<Built>)
    ensures r == FoldResult(built, group.curveDefinitions, DefinitionStep(market, group, env))
  {
    var b := built;
    var defs := group.curveDefinitions;
    for k := 0 to |defs|
      invariant FoldResult(built, defs[..k], DefinitionStep(market, group, env)) == Ok(b)
    {
      FoldResultSnoc(built, defs, k, DefinitionStep(market, group, env));
      var def := defs[k];
      var entry := FindEntry(group, def.name);
      if entry.Some? {
        var next := BootstrapIndices(market, def, FloatingIndices(entry.value.indices), b, env);
        if next.Err? {
          FoldResultErrSticks(built, defs, k + 1, DefinitionStep(market, group, env));
          return Err(next.error);
        }
        b := next.value;
      }
    }
    assert defs[..|defs|] == defs;
    r := Ok(b);
  }

  /** The loop over an entry's discount currencies. */
  method MapCurrencies(group: CurveGroupDefinition, currencies: seq<Currency>, built: Built) returns (b: Built)
    ensures Ok(b) == FoldResult(built, currencies, CurrencyStep(group))
  {
    b := built;
    for k := 0 to |currencies|
      invariant FoldResult(built, currencies[..k], CurrencyStep(group)) == Ok(b)
    {
      FoldResultSnoc(built, currencies, k, CurrencyStep(group));
      var currency := currencies[k];
      var curveName := FindDiscountCurveName(group, currency);
      if curveName.Some? {
        b := b.(discountCurves := b.discountCurves[currency := Get(b.builtCurves, curveName.value)]);
      }
    }
    assert currencies[..|currencies|] == currencies;
  }

  /** The loop over a group's entries, mapping their discount currencies. */
  method MapDiscountCurves(group: CurveGroupDefinition, built: Built) returns (b: Built)
    ensures Ok(b) == FoldResult(built, group.entries, EntryStep(group))
  {
    b := built;
    var entries := group.entries;
    for k := 0 to |entries|
      invariant FoldResult(built, entries[..k], EntryStep(group)) == Ok(b)
    {
      FoldResultSnoc(built, entries, k, EntryStep(group));
      b := MapCurrencies(group, entries[k].discountCurrencies, b);
    }
    assert entries[..|entries|] == entries;
  }

  /** `bootstrap(allGroupDefns, knownData, marketData, refData)`; the
      reference data is inside the collaborators. */
  method Bootstrap(groups: seq<CurveGroupDefinition>, known: KnownData, market: MarketData, env: Environment)
    returns (r: Result<RatesProvider>)
    ensures r == GroupsSpec(groups, known, market, env)
  {
    if known.valuationDate != market.valuationDate {
      return Err(ValuationDatesDoNotMatch(known.valuationDate, market.valuationDate));
    }
    var b := NoneBuilt;
    var step := GroupStep(market, env);
    for k := 0 to |groups|
      invariant FoldResult(NoneBuilt, groups[..k], step) == Ok(b)
    {
      FoldResultSnoc(NoneBuilt, groups, k, step);
      var group := groups[k];
      if |group.entries| == 0 {
        continue;
      }
      var withCurves := BootstrapDefinitions(market, group, b, env);
      if withCurves.Err? {
        FoldResultErrSticks(NoneBuilt, groups, k + 1, step);
        return Err(withCurves.error);
      }
      b := MapDiscountCurves(group, withCurves.value);
    }
    assert groups[..|groups|] == groups;
    r := ProviderOf(market.valuationDate, b, known.fxRateProvider);
  }

  /** The single-group overload: the known data is built from the market
      data's valuation date and FX rates. */
  function SingleGroupSpec(group: CurveGroupDefinition, market: MarketData, env: Environment): Result<RatesProvider> {
    GroupsSpec([group], KnownData(market.valuationDate, MarketDataFxRates(market)), market, env)
  }

  method BootstrapGroup(group: CurveGroupDefinition, market: MarketData, env: Environment) returns (r: Result<RatesProvider>)
    ensures r == SingleGroupSpec(group, market, env)
  {
    var knownData := KnownData(market.valuationDate, MarketDataFxRates(market));
    r := Bootstrap([group], knownData, market, env);
  }

  /** A curve bootstrap fails only as `CurveFailure` says. */
  lemma CurveForFailures(market: MarketData, def: CurveDefinition, index: FloatingRateIndex, env: Environment)
    ensures CurveFor(market, def, index, env).Err? ==> CurveFailure(CurveFor(market, def, index, env).error)
  {
    ExtractedFailures(NodeTrades(def, market, env));
    var payments := Extracted(NodeTrades(def, market, env));
    if payments.Ok? {
      CurveSpecFailures(market.valuationDate, payments.value, def.name, index.dayCount, env.order, env.coll, env.rootFinder);
    }
  }

  /** Processing a group fails only when one of its curve bootstraps does. */
  lemma GroupStepFailures(market: MarketData, env: Environment)
    ensures forall b, group, i :: GroupStep(market, env)(b, group, i).Err? ==> CurveFailure(GroupStep(market, env)(b, group, i).error)
  {
    var raised := (e: Error) => CurveFailure(e);
    forall b, group, i | GroupStep(market, env)(b, group, i).Err?
      ensures CurveFailure(GroupStep(market, env)(b, group, i).error)
    {
      var defStep := DefinitionStep(market, group, env);
      forall a, def, j | defStep(a, def, j).Err? ensures raised(defStep(a, def, j).error) {
        var entry := FindEntry(group, def.name);
        if entry.Some? {
          var indexStep := IndexStep(market, def, env);
          forall c, index, k | indexStep(c, index, k).Err? ensures raised(indexStep(c, index, k).error) {
            CurveForFailures(market, def, index, env);
          }
          FoldResultErrors(a, FloatingIndices(entry.value.indices), indexStep, raised);
        }
      }
      FoldResultErrors(b, group.curveDefinitions, defStep, raised);
      var withCurves := FoldResult(b, group.curveDefinitions, defStep);
      if withCurves.Ok? {
        var never := (e: Error) => false;
        forall a, entry, j | EntryStep(group)(a, entry, j).Err? ensures never(EntryStep(group)(a, entry, j).error) {
          FoldResultErrors(a, entry.discountCurrencies, CurrencyStep(group), never);
        }
        FoldResultErrors(withCurves.value, group.entries, EntryStep(group), never);
      }
    }
  }

  /** What else can make the group bootstrap fail: a curve bootstrap, or a
      discount currency whose named curve was never built. */
  predicate GroupFailure(e: Error) {
    CurveFailure(e) || e == NullDiscountCurve
  }

  /** The group bootstrap fails with mismatched valuation dates exactly when
      they differ, and otherwise only as `GroupFailure` says. */
  lemma GroupsSpecFailures(groups: seq<CurveGroupDefinition>, known: KnownData, market: MarketData, env: Environment)
    ensures GroupsSpec(groups, known, market, env).Err? ==>
      if known.valuationDate != market.valuationDate
      then GroupsSpec(groups, known, market, env).error == ValuationDatesDoNotMatch(known.valuationDate, market.valuationDate)
      else GroupFailure(GroupsSpec(groups, known, market, env).error)
  {
    GroupStepFailures(market, env);
    FoldResultErrors(NoneBuilt, groups, GroupStep(market, env), (e: Error) => CurveFailure(e));
  }

  /** The single-group overload never reports mismatched valuation dates and
      takes its FX rates from the market data. */
  lemma SingleGroupDatesMatch(group: CurveGroupDefinition, market: MarketData, env: Environment)
    ensures SingleGroupSpec(group, market, env).Err? ==> GroupFailure(SingleGroupSpec(group, market, env).error)
    ensures SingleGroupSpec(group, market, env).Ok? ==>
      SingleGroupSpec(group, market, env).value.fxRateProvider == MarketDataFxRates(market)
  {
    GroupsSpecFailures([group], KnownData(market.valuationDate, MarketDataFxRates(market)), market, env);
  }

  // ------------------------------------------------------------- what the maps hold

  /** Keys are only ever added to the three maps. */
  predicate Grows(b: Built, c: Built) {
    && b.indexCurves.Keys <= c.indexCurves.Keys
    && b.builtCurves.Keys <= c.builtCurves.Keys
    && b.discountCurves.Keys <= c.discountCurves.Keys
  }

  /** The currency is mapped to the built curve the group names for it
      (`None` when no curve of that name was built). */
  predicate DiscountMapped(group: CurveGroupDefinition, currency: Currency, b: Built) {
    && FindDiscountCurveName(group, currency).Some?
    && currency in b.discountCurves
    && b.discountCurves[currency] == Get(b.builtCurves, FindDiscountCurveName(group, currency).value)
  }

  /** The index's curve is the one bootstrapped for it from the definition,
      and a curve is recorded under the definition's name. */
  predicate IndexRecorded(market: MarketData, def: CurveDefinition, env: Environment, x: FloatingRateIndex, a: Built) {
    && CurveFor(market, def, x, env).Ok?
    && Floating(x) in a.indexCurves
    && a.indexCurves[Floating(x)] == CurveFor(market, def, x, env).value
    && def.name in a.builtCurves
  }

  /** Only the curve maps grow; the discount currencies are untouched. */
  predicate CurvesGrow(b: Built, a: Built) {
    Grows(b, a) && a.discountCurves == b.discountCurves
  }

  /** One index step records its index and keeps what earlier steps recorded. */
  lemma IndexStepRecords(market: MarketData, def: CurveDefinition, env: Environment, b: Built, a: Built, x: FloatingRateIndex, i: nat, y: FloatingRateIndex)
    requires CurvesGrow(b, a)
    requires IndexStep(market, def, env)(a, x, i).Ok?
    ensures CurvesGrow(b, IndexStep(market, def, env)(a, x, i).value)
    ensures IndexRecorded(market, def, env, x, IndexStep(market, def, env)(a, x, i).value)
    ensures IndexRecorded(market, def, env, y, a) ==> IndexRecorded(market, def, env, y, IndexStep(market, def, env)(a, x, i).value)
  {
    CurveForName(market, def, x, env);
  }

  /** The index loop of one definition records, for every floating-rate index,
      the curve bootstrapped for it, and a curve under the definition's name. */
  lemma IndicesRecorded(market: MarketData, def: CurveDefinition, indices: seq<FloatingRateIndex>, b: Built, env: Environment)
    ensures var r := FoldResult(b, indices, IndexStep(market, def, env));
      r.Ok? ==> CurvesGrow(b, r.value) && forall x :: x in indices ==> IndexRecorded(market, def, env, x, r.value)
  {
    var step := IndexStep(market, def, env);
    var inv := (a: Built) => CurvesGrow(b, a);
    var covered := (x: FloatingRateIndex, a: Built) => IndexRecorded(market, def, env, x, a);
    forall a, x, i | inv(a) && step(a, x, i).Ok? ensures inv(step(a, x, i).value) && covered(x, step(a, x, i).value) {
      IndexStepRecords(market, def, env, b, a, x, i, x);
    }
    forall a, x, i, y | inv(a) && covered(y, a) && step(a, x, i).Ok? ensures covered(y, step(a, x, i).value) {
      IndexStepRecords(market, def, env, b, a, x, i, y);
    }
    FoldResultCovers(b, indices, step, inv, covered);
    var r := FoldResult(b, indices, step);
    if r.Ok? {
      forall x | x in indices ensures IndexRecorded(market, def, env, x, r.value) {
        var j :| 0 <= j < |indices| && indices[j] == x;
        assert covered(indices[j], r.value);
      }
    }
  }

  /** One definition step: with an entry for the definition, each floating-rate
      index of the entry gets the curve bootstrapped for it; without one,
      nothing changes. */
  lemma DefinitionStepRecords(market: MarketData, group: CurveGroupDefinition, env: Environment, b: Built, def: CurveDefinition, i: nat)
    ensures var r := DefinitionStep(market, group, env)(b, def, i);
      r.Ok? ==>
        && Grows(b, r.value)
        && r.value.discountCurves == b.discountCurves
        && (FindEntry(group, def.name).None? ==> r.value == b)
        && (FindEntry(group, def.name).Some? ==> forall x :: Floating(x) in FindEntry(group, def.name).value.indices ==>
              && Floating(x) in r.value.indexCurves
              && CurveFor(market, def, x, env).Ok?
              && r.value.indexCurves[Floating(x)] == CurveFor(market, def, x, env).value)
  {
    var entry := FindEntry(group, def.name);
    if entry.Some? {
      IndicesRecorded(market, def, FloatingIndices(entry.value.indices), b, env);
    }
  }

  /** A definition with an entry forecasts each floating-rate index of that entry. */
  predicate Forecasts(group: CurveGroupDefinition, def: CurveDefinition, x: FloatingRateIndex) {
    FindEntry(group, def.name).Some? && Floating(x) in FindEntry(group, def.name).value.indices
  }

  /** The definition loop of a group gives an index curve to every index the
      group's definitions forecast. */
  lemma DefinitionsRecorded(market: MarketData, group: CurveGroupDefinition, env: Environment, b: Built)
    ensures var r := FoldResult(b, group.curveDefinitions, DefinitionStep(market, group, env));
      r.Ok? ==>
        && Grows(b, r.value)
        && r.value.discountCurves == b.discountCurves
        && forall def, x :: def in group.curveDefinitions && Forecasts(group, def, x) ==> Floating(x) in r.value.indexCurves
  {
    var step := DefinitionStep(market, group, env);
    var inv := (a: Built) => Grows(b, a) && a.discountCurves == b.discountCurves;
    var covered := (def: CurveDefinition, a: Built) => forall x :: Forecasts(group, def, x) ==> Floating(x) in a.indexCurves;
    forall a, def, i | step(a, def, i).Ok?
      ensures Grows(a, step(a, def, i).value) && step(a, def, i).value.discountCurves == a.discountCurves
      ensures covered(def, step(a, def, i).value)
    {
      DefinitionStepRecords(market, group, env, a, def, i);
    }
    FoldResultCovers(b, group.curveDefinitions, step, inv, covered);
    var r := FoldResult(b, group.curveDefinitions, step);
    if r.Ok? {
      forall def, x | def in group.curveDefinitions && Forecasts(group, def, x) ensures Floating(x) in r.value.indexCurves {
        var j :| 0 <= j < |group.curveDefinitions| && group.curveDefinitions[j] == def;
        assert covered(group.curveDefinitions[j], r.value);
      }
    }
  }

  /** The curves are those of `b` and no discount currency of `b` is lost. */
  predicate CurvesKept(b: Built, a: Built) {
    a.indexCurves == b.indexCurves && a.builtCurves == b.builtCurves && b.discountCurves.Keys <= a.discountCurves.Keys
  }

  /** A currency that the group names a curve for is mapped to it. */
  predicate MappedIfNamed(group: CurveGroupDefinition, c: Currency, a: Built) {
    FindDiscountCurveName(group, c).Some? ==> DiscountMapped(group, c, a)
  }

  /** One currency step maps its currency and keeps the earlier mappings. */
  lemma CurrencyStepMaps(group: CurveGroupDefinition, b: Built, a: Built, c: Currency, i: nat, y: Currency)
    requires CurvesKept(b, a)
    ensures CurrencyStep(group)(a, c, i).Ok?
    ensures CurvesKept(b, CurrencyStep(group)(a, c, i).value)
    ensures MappedIfNamed(group, c, CurrencyStep(group)(a, c, i).value)
    ensures MappedIfNamed(group, y, a) ==> MappedIfNamed(group, y, CurrencyStep(group)(a, c, i).value)
  {
  }

  /** The currency loop of one entry maps each currency the group names a
      curve for, keeps the mappings already made, and changes nothing else. */
  lemma CurrenciesMapped(group: CurveGroupDefinition, currencies: seq<Currency>, b: Built, y: Currency)
    ensures FoldResult(b, currencies, CurrencyStep(group)).Ok?
    ensures var r := FoldResult(b, currencies, CurrencyStep(group)).value;
      && CurvesKept(b, r)
      && (MappedIfNamed(group, y, b) ==> MappedIfNamed(group, y, r))
      && forall c :: c in currencies ==> MappedIfNamed(group, c, r)
  {
    var step := CurrencyStep(group);
    var b0 := b;
    forall a, c, i | step(a, c, i).Err? ensures false {
      CurrencyStepMaps(group, a, a, c, i, c);
    }
    FoldResultErrors(b, currencies, step, (e: Error) => false);
    var inv := (a: Built) => CurvesKept(b, a) && (MappedIfNamed(group, y, b) ==> MappedIfNamed(group, y, a));
    var covered := (c: Currency, a: Built) => MappedIfNamed(group, c, a);
    forall a, c, i | inv(a) && step(a, c, i).Ok? ensures inv(step(a, c, i).value) && covered(c, step(a, c, i).value) {
      CurrencyStepMaps(group, b, a, c, i, y);
    }
    forall a, c, i, z | inv(a) && covered(z, a) && step(a, c, i).Ok? ensures covered(z, step(a, c, i).value) {
      CurrencyStepMaps(group, b, a, c, i, z);
    }
    assert CurvesKept(b, b);
    FoldResultCovers(b, currencies, step, inv, covered);
    var r := FoldResult(b, currencies, step).value;
    forall c | c in currencies ensures MappedIfNamed(group, c, r) {
      var j :| 0 <= j < |currencies| && currencies[j] == c;
      assert covered(currencies[j], r);
    }
  }

  /** Every currency of the entry that the group names a curve for is mapped to it. */
  predicate EntryMapped(group: CurveGroupDefinition, e: CurveGroupEntry, a: Built) {
    forall c :: c in e.discountCurrencies ==> MappedIfNamed(group, c, a)
  }

  /** One entry step maps the entry's currencies and keeps the earlier entries' mappings. */
  lemma EntryStepMaps(group: CurveGroupDefinition, b: Built, a: Built, e: CurveGroupEntry, i: nat, z: CurveGroupEntry)
    requires CurvesKept(b, a)
    ensures EntryStep(group)(a, e, i).Ok?
    ensures CurvesKept(b, EntryStep(group)(a, e, i).value)
    ensures EntryMapped(group, e, EntryStep(group)(a, e, i).value)
    ensures EntryMapped(group, z, a) ==> EntryMapped(group, z, EntryStep(group)(a, e, i).value)
  {
    CurrenciesMapped(group, e.discountCurrencies, a, "");
    var r := FoldResult(a, e.discountCurrencies, CurrencyStep(group)).value;
    if EntryMapped(group, z, a) {
      forall c | c in z.discountCurrencies ensures MappedIfNamed(group, c, r) {
        CurrenciesMapped(group, e.discountCurrencies, a, c);
      }
    }
  }

  /** The discount pass of a group maps every discount currency of its entries
      to the built curve the group names for it, and leaves the curves alone. */
  lemma DiscountCurvesMapped(group: CurveGroupDefinition, b: Built)
    ensures FoldResult(b, group.entries, EntryStep(group)).Ok?
    ensures var r := FoldResult(b, group.entries, EntryStep(group)).value;
      && CurvesKept(b, r)
      && forall e, c :: e in group.entries && c in e.discountCurrencies ==> DiscountMapped(group, c, r)
  {
    var step := EntryStep(group);
    forall a, e, i | step(a, e, i).Err? ensures false {
      EntryStepMaps(group, a, a, e, i, e);
    }
    FoldResultErrors(b, group.entries, step, (e: Error) => false);
    var inv := (a: Built) => CurvesKept(b, a);
    var covered := (e: CurveGroupEntry, a: Built) => EntryMapped(group, e, a);
    forall a, e, i | inv(a) && step(a, e, i).Ok? ensures inv(step(a, e, i).value) && covered(e, step(a, e, i).value) {
      EntryStepMaps(group, b, a, e, i, e);
    }
    forall a, e, i, z | inv(a) && covered(z, a) && step(a, e, i).Ok? ensures covered(z, step(a, e, i).value) {
      EntryStepMaps(group, b, a, e, i, z);
    }
    assert CurvesKept(b, b);
    FoldResultCovers(b, group.entries, step, inv, covered);
    var r := FoldResult(b, group.entries, step).value;
    forall e, c | e in group.entries && c in e.discountCurrencies ensures DiscountMapped(group, c, r) {
      var j :| 0 <= j < |group.entries| && group.entries[j] == e;
      assert covered(group.entries[j], r);
      assert MappedIfNamed(group, c, r);
    }
  }

  /** What a group with entries leaves in the maps: a curve for every index its
      definitions forecast, and every discount currency of its entries. */
  ghost predicate GroupRecorded(group: CurveGroupDefinition, indexCurves: map<Index, Curve>, discountCurrencies: set<Currency>) {
    && (forall def, x :: def in group.curveDefinitions && Forecasts(group, def, x) ==> Floating(x) in indexCurves)
    && (forall e, c :: e in group.entries && c in e.discountCurrencies ==> c in discountCurrencies)
  }

  /** One group: without entries nothing changes; otherwise every index its
      definitions forecast gets a curve and every discount currency of its
      entries is mapped to the built curve the group names for it. */
  lemma GroupStepRecords(market: MarketData, env: Environment, b: Built, group: CurveGroupDefinition, i: nat)
    ensures var r := GroupStep(market, env)(b, group, i);
      r.Ok? ==>
        && Grows(b, r.value)
        && (group.entries == [] ==> r.value == b)
        && GroupRecorded(group, r.value.indexCurves, r.value.discountCurves.Keys)
        && forall e, c :: e in group.entries && c in e.discountCurrencies ==> DiscountMapped(group, c, r.value)
  {
    if group.entries != [] {
      DefinitionsRecorded(market, group, env, b);
      var withCurves := FoldResult(b, group.curveDefinitions, DefinitionStep(market, group, env));
      if withCurves.Ok? {
        var w := withCurves.value;
        DiscountCurvesMapped(group, w);
        var r := FoldResult(w, group.entries, EntryStep(group)).value;
        assert GroupStep(market, env)(b, group, i) == Ok(r);
        assert CurvesKept(w, r);
        forall def, x | def in group.curveDefinitions && Forecasts(group, def, x) ensures Floating(x) in r.indexCurves {
          assert Floating(x) in w.indexCurves;
        }
        forall e, c | e in group.entries && c in e.discountCurrencies ensures c in r.discountCurves {
          assert DiscountMapped(group, c, r);
        }
      }
    }
  }

  /** A group's record survives the groups processed after it. */
  lemma GroupRecordedGrows(group: CurveGroupDefinition, b: Built, c: Built)
    requires GroupRecorded(group, b.indexCurves, b.discountCurves.Keys)
    requires Grows(b, c)
    ensures GroupRecorded(group, c.indexCurves, c.discountCurves.Keys)
  {
  }

  /** On success the rates provider has a curve for every index forecast by a
      definition of any group, and a discount curve entry for every discount
      currency of any group's entries. */
  lemma GroupsSpecRecorded(groups: seq<CurveGroupDefinition>, known: KnownData, market: MarketData, env: Environment)
    ensures GroupsSpec(groups, known, market, env).Ok? ==>
      forall j :: 0 <= j < |groups| ==>
        GroupRecorded(groups[j], GroupsSpec(groups, known, market, env).value.indexCurves,
                      GroupsSpec(groups, known, market, env).value.discountCurves.Keys)
  {
    var step := GroupStep(market, env);
    var inv := (a: Built) => true;
    var covered := (g: CurveGroupDefinition, a: Built) => GroupRecorded(g, a.indexCurves, a.discountCurves.Keys);
    forall a, g, i | step(a, g, i).Ok? ensures covered(g, step(a, g, i).value) {
      GroupStepRecords(market, env, a, g, i);
    }
    forall a, g, i, y | covered(y, a) && step(a, g, i).Ok? ensures covered(y, step(a, g, i).value) {
      GroupStepRecords(market, env, a, g, i);
      GroupRecordedGrows(y, a, step(a, g, i).value);
    }
    FoldResultCovers(NoneBuilt, groups, step, inv, covered);
  }

  // ------------------------------------------------------------- built curves by name

  /** Every built curve is recorded under its own name. */
  predicate SelfNamed(builtCurves: map<string, Curve>) {
    forall n :: n in builtCurves ==> builtCurves[n].metadata.curveName == n
  }

  /** One definition adds built curves only under its own name, each named after itself. */
  lemma DefinitionStepNames(market: MarketData, group: CurveGroupDefinition, env: Environment, b: Built, def: CurveDefinition, i: nat)
    requires SelfNamed(b.builtCurves)
    ensures var r := DefinitionStep(market, group, env)(b, def, i);
      r.Ok? ==> SelfNamed(r.value.builtCurves) && r.value.builtCurves.Keys <= b.builtCurves.Keys + {def.name}
  {
    var entry := FindEntry(group, def.name);
    if entry.Some? {
      var step := IndexStep(market, def, env);
      var inv := (a: Built) => SelfNamed(a.builtCurves) && a.builtCurves.Keys <= b.builtCurves.Keys + {def.name};
      var covered := (x: FloatingRateIndex, a: Built) => true;
      forall a, x, k | inv(a) && step(a, x, k).Ok? ensures inv(step(a, x, k).value) {
        CurveForName(market, def, x, env);
      }
      FoldResultCovers(b, FloatingIndices(entry.value.indices), step, inv, covered);
    }
  }

  /** After a group's definitions, every built curve carries the name it is
      recorded under, and that name was built before or is a definition's. */
  lemma {:induction false} DefinitionNamesBuilt(market: MarketData, group: CurveGroupDefinition, env: Environment, b: Built,
                                                defs: seq<CurveDefinition>)
    requires SelfNamed(b.builtCurves)
    ensures var r := FoldResult(b, defs, DefinitionStep(market, group, env));
      r.Ok? ==>
        && SelfNamed(r.value.builtCurves)
        && forall n :: n in r.value.builtCurves ==> n in b.builtCurves || exists d :: d in defs && d.name == n
    decreases |defs|
  {
    if defs != [] {
      var step := DefinitionStep(market, group, env);
      var init := defs[..|defs| - 1];
      var last := defs[|defs| - 1];
      DefinitionNamesBuilt(market, group, env, b, init);
      var r := FoldResult(b, defs, step);
      if r.Ok? {
        var a := FoldResult(b, init, step).value;
        assert r == step(a, last, |defs| - 1);
        DefinitionStepNames(market, group, env, a, last, |defs| - 1);
        forall n | n in r.value.builtCurves ensures n in b.builtCurves || exists d :: d in defs && d.name == n {
          if n !in a.builtCurves {
            assert last in defs && last.name == n;
          } else if n !in b.builtCurves {
            var d :| d in init && d.name == n;
            assert d in defs;
          }
        }
      }
    }
  }

  /** The single-group bootstrap fails when a discount currency of its entries
      is given a curve name that none of its definitions has: the currency is
      mapped to `null`, which the provider's builder rejects. */
  lemma SingleGroupUnbuiltDiscountCurve(group: CurveGroupDefinition, market: MarketData, env: Environment,
                                        e: CurveGroupEntry, c: Currency)
    requires e in group.entries && c in e.discountCurrencies
    requires forall d :: d in group.curveDefinitions ==> FindDiscountCurveName(group, c) != Some(d.name)
    ensures SingleGroupSpec(group, market, env).Err?
  {
    var step := GroupStep(market, env);
    assert FoldResult(NoneBuilt, [group], step) == step(NoneBuilt, group, 0) by {
      assert [group][..0] == [];
    }
    var withCurves := FoldResult(NoneBuilt, group.curveDefinitions, DefinitionStep(market, group, env));
    if withCurves.Ok? {
      var w := withCurves.value;
      DefinitionNamesBuilt(market, group, env, NoneBuilt, group.curveDefinitions);
      DiscountCurvesMapped(group, w);
      var b := FoldResult(w, group.entries, EntryStep(group)).value;
      assert DiscountMapped(group, c, b);
      assert b.discountCurves[c].None?;
    }
  }

  /** On success, each discount currency of the single group's entries has the
      curve named after the one the group gives it. */
  lemma SingleGroupDiscountCurveNamed(group: CurveGroupDefinition, market: MarketData, env: Environment,
                                      e: CurveGroupEntry, c: Currency)
    requires e in group.entries && c in e.discountCurrencies
    ensures var r := SingleGroupSpec(group, market, env);
      r.Ok? ==>
        && FindDiscountCurveName(group, c).Some?
        && c in r.value.discountCurves
        && r.value.discountCurves[c].metadata.curveName == FindDiscountCurveName(group, c).value
  {
    var step := GroupStep(market, env);
    assert FoldResult(NoneBuilt, [group], step) == step(NoneBuilt, group, 0) by {
      assert [group][..0] == [];
    }
    var withCurves := FoldResult(NoneBuilt, group.curveDefinitions, DefinitionStep(market, group, env));
    if withCurves.Ok? {
      var w := withCurves.value;
      DefinitionNamesBuilt(market, group, env, NoneBuilt, group.curveDefinitions);
      DiscountCurvesMapped(group, w);
      var b := FoldResult(w, group.entries, EntryStep(group)).value;
      assert DiscountMapped(group, c, b);
    }
  }
}
