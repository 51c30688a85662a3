/** `CfetsRatesCurveGroupMarketDataFunction`: the market data a curve group
    requires, and how a curve group (or one per scenario) is built from
    scenario market data. Each curve's input box holds either one value or
    one value per scenario; the per-curve quotes of a scenario are merged into
    one market data set and handed to the group bootstrap. */
module CurveGroupMarketData {
  import opened Basics
  import opened Curves
  import opened RatesCurveBootstrap
  import opened CurveGroupBootstrap

  // ------------------------------------------------------------- data

  /** `MarketDataBox`: a single value shared by all scenarios, or one value per scenario. */
  datatype Box<T> = Single(value: T) | Scenarios(values: seq<T>) {
    /** `getValue(scenarioIndex)`: a single value serves every scenario. */
    function GetValue(scenarioIndex: nat): Result<T> {
      match this
      case Single(v) => Ok(v)
      case Scenarios(vs) => if scenarioIndex < |vs| then Ok(vs[scenarioIndex]) else Err(ScenarioIndexOutOfBounds(scenarioIndex))
    }
  }

  /** A quote of the curve inputs. */
  datatype Quote = Quote(id: MarketDataId, value: real)

  /** `RatesCurveInputs`: its market data map, in the map's iteration order. */
  datatype CurveInputs = CurveInputs(marketData: seq<Quote>)

  /** `RatesCurveInputsId`. */
  datatype CurveInputsId = CurveInputsId(groupName: string, curveName: string, source: string)

  /** `IndexQuoteId`: the time series of an index's fixings. */
  datatype IndexQuoteId = IndexQuoteId(index: Index)

  /** `MarketDataRequirements`: the values and the time series requested. */
  datatype Requirements = Requirements(values: seq<CurveInputsId>, timeSeries: seq<IndexQuoteId>)

  /** The part of `ScenarioMarketData` read here: the valuation dates and the curve input boxes. */
  datatype ScenarioMarketData = ScenarioMarketData(valuationDate: Box<Date>, curveInputs: map<CurveInputsId, Box<CurveInputs>>)

  /** `RatesCurveGroup`: the group's name and the provider's discount and index curves. */
  datatype RatesCurveGroup = RatesCurveGroup(
    name: string,
    discountCurves: map<Currency, Curve>,
    indexCurves: map<Index, Curve>)

  /** The bootstrap's collaborators, and `RatesCurveGroupDefinition.filtered`,
      which drops the nodes not applicable at a valuation date. */
  datatype Context = Context(env: Environment, filtered: (CurveGroupDefinition, Date) -> CurveGroupDefinition)

  // ------------------------------------------------------------- requirements

  /** `requiresMarketData`: some node of the curve requires market data. */
  predicate RequiresMarketData(def: CurveDefinition) {
    exists j :: 0 <= j < |def.nodes| && def.nodes[j].requirements != {}
  }

  /** The definitions that require market data, in order. */
  function MarketDataCurves(defs: seq<CurveDefinition>): (r: seq<CurveDefinition>)
    ensures forall def :: def in r <==> def in defs && RequiresMarketData(def)
  {
    Filter(defs, RequiresMarketData)
  }

  /** `flatMap(entry -> entry.getIndices().stream())`. */
  function EntryIndices(entries: seq<CurveGroupEntry>): (r: seq<Index>)
    ensures forall x :: x in r <==> exists e :: e in entries && x in e.indices
    decreases |entries|
  {
    if entries == [] then []
    else
      var init := entries[..|entries| - 1];
      assert entries == init + [entries[|entries| - 1]];
      EntryIndices(init) + entries[|entries| - 1].indices
  }

  /** The input identifiers of the group's curves that require market data. */
  function RequiredValues(group: CurveGroupDefinition, source: string): (r: seq<CurveInputsId>)
    ensures forall id :: id in r <==>
      exists def :: def in group.curveDefinitions && RequiresMarketData(def) && id == CurveInputsId(group.name, def.name, source)
  {
    var curves := MarketDataCurves(group.curveDefinitions);
    var values := seq(|curves|, j requires 0 <= j < |curves| => CurveInputsId(group.name, curves[j].name, source));
    assert forall id :: id in values ==> exists def :: def in curves && id == CurveInputsId(group.name, def.name, source);
    forall def | def in group.curveDefinitions && RequiresMarketData(def)
      ensures CurveInputsId(group.name, def.name, source) in values
    {
      var j :| 0 <= j < |curves| && curves[j] == def;
      assert values[j] == CurveInputsId(group.name, def.name, source);
    }
    values
  }

  /** One time series identifier per distinct index of the entries. */
  function RequiredTimeSeries(entries: seq<CurveGroupEntry>): (r: seq<IndexQuoteId>)
    ensures forall q :: q in r <==> exists e :: e in entries && q.index in e.indices
    ensures forall i, j :: 0 <= i < j < |r| ==> r[i] != r[j]
  {
    var indices := Distinct(EntryIndices(entries));
    var timeSeries := seq(|indices|, j requires 0 <= j < |indices| => IndexQuoteId(indices[j]));
    forall q: IndexQuoteId | exists e :: e in entries && q.index in e.indices ensures q in timeSeries {
      assert q.index in EntryIndices(entries);
      var j :| 0 <= j < |indices| && indices[j] == q.index;
      assert timeSeries[j] == q;
    }
    forall q | q in timeSeries ensures exists e :: e in entries && q.index in e.indices {
      var j :| 0 <= j < |timeSeries| && timeSeries[j] == q;
      assert q.index == indices[j];
      assert q.index in EntryIndices(entries);
    }
    timeSeries
  }

  /** `requirements`: the inputs of every curve that requires market data, and
      one time series per distinct index of the group's entries. */
  function GroupRequirements(group: CurveGroupDefinition, source: string): (r: Requirements)
    ensures forall id :: id in r.values <==>
      exists def :: def in group.curveDefinitions && RequiresMarketData(def) && id == CurveInputsId(group.name, def.name, source)
    ensures forall q :: q in r.timeSeries <==> exists e :: e in group.entries && q.index in e.indices
    ensures forall i, j :: 0 <= i < j < |r.timeSeries| ==> r.timeSeries[i] != r.timeSeries[j]
  {
    Requirements(RequiredValues(group, source), RequiredTimeSeries(group.entries))
  }

  /** `curveInputs`: the curve's input box from the market data when it needs
      market data (a missing box raises), otherwise one empty inputs value. */
  function CurveInputsFor(def: CurveDefinition, market: ScenarioMarketData, groupName: string, source: string): (r: Result<Box<CurveInputs>>)
    ensures !RequiresMarketData(def) ==> r == Ok(Single(CurveInputs([])))
    ensures RequiresMarketData(def) ==>
      var id := CurveInputsId(groupName, def.name, source);
      && (r.Ok? <==> id in market.curveInputs)
      && (r.Ok? ==> r.value == market.curveInputs[id])
      && (r.Err? ==> r.error == MarketDataNotFound(groupName, def.name, source))
  {
    if RequiresMarketData(def) then
      var id := CurveInputsId(groupName, def.name, source);
      if id in market.curveInputs then Ok(market.curveInputs[id]) else Err(MarketDataNotFound(groupName, def.name, source))
    else Ok(Single(CurveInputs([])))
  }

  /** The input boxes of all the group's curves, in order. */
  function InputBoxes(group: CurveGroupDefinition, market: ScenarioMarketData, source: string): Result<seq<Box<CurveInputs>>> {
    MapResult(group.curveDefinitions, (def: CurveDefinition) => CurveInputsFor(def, market, group.name, source))
  }

  /** `inputsForScenario`: the value of every box for one scenario, in order. */
  function InputsForScenario(boxes: seq<Box<CurveInputs>>, scenarioIndex: nat): (r: Result<seq<CurveInputs>>)
    ensures r.Ok? <==> forall j :: 0 <= j < |boxes| && boxes[j].Scenarios? ==> scenarioIndex < |boxes[j].values|
    ensures r.Ok? ==> |r.value| == |boxes| && forall j :: 0 <= j < |boxes| ==>
      r.value[j] == if boxes[j].Single? then boxes[j].value else boxes[j].values[scenarioIndex]
    ensures r.Err? ==> r.error == ScenarioIndexOutOfBounds(scenarioIndex)
  {
    MapResult(boxes, (b: Box<CurveInputs>) => b.GetValue(scenarioIndex))
  }

  // ------------------------------------------------------------- merging the quotes

  /** One quote of `inputsByKey`: added when its identifier is new, accepted
      when equal to the value already held, an exception otherwise. */
  function AddQuote(merged: map<MarketDataId, real>, q: Quote, i: nat): Result<map<MarketDataId, real>> {
    if q.id !in merged then Ok(merged[q.id := q.value])
    else if merged[q.id] == q.value then Ok(merged)
    else Err(MultipleUnequalValues(q.id, merged[q.id], q.value))
  }

  /** All the quotes of one curve's inputs. */
  function AddInput(merged: map<MarketDataId, real>, input: CurveInputs, i: nat): Result<map<MarketDataId, real>> {
    FoldResult(merged, input.marketData, AddQuote)
  }

  /** The quotes of all the curves' inputs, merged. */
  function MergedQuotes(inputs: seq<CurveInputs>): Result<map<MarketDataId, real>> {
    FoldResult(map[], inputs, AddInput)
  }

  /** `inputsByKey`: the market data of the valuation date and the merged quotes. */
  function MarketDataOf(valuationDate: Date, inputs: seq<CurveInputs>): (r: Result<MarketData>)
    ensures r.Ok? <==> MergedQuotes(inputs).Ok?
    ensures r.Ok? ==> r.value.valuationDate == valuationDate && r.value.values == MergedQuotes(inputs).value
  {
    var merged :- MergedQuotes(inputs);
    Ok(MarketData(valuationDate, merged))
  }

  /** Some curve's inputs hold the quote. */
  predicate Quoted(inputs: seq<CurveInputs>, id: MarketDataId, value: real) {
    exists j, l :: 0 <= j < |inputs| && 0 <= l < |inputs[j].marketData| && inputs[j].marketData[l] == Quote(id, value)
  }

  method InputsByKey(valuationDate: Date, inputs: seq<CurveInputs>) returns (r: Result<MarketData>)
    ensures r == MarketDataOf(valuationDate, inputs)
  {
    var merged: map<MarketDataId, real> := map[];
    for k := 0 to |inputs|
      invariant FoldResult(map[], inputs[..k], AddInput) == Ok(merged)
    {
      FoldResultSnoc(map[], inputs, k, AddInput);
      var quotes := inputs[k].marketData;
      ghost var start := merged;
      for l := 0 to |quotes|
        invariant FoldResult(start, quotes[..l], AddQuote) == Ok(merged)
      {
        FoldResultSnoc(start, quotes, l, AddQuote);
        var q := quotes[l];
        if q.id !in merged {
          merged := merged[q.id := q.value];
        } else if merged[q.id] != q.value {
          FoldResultErrSticks(start, quotes, l + 1, AddQuote);
          FoldResultErrSticks(map[], inputs, k + 1, AddInput);
          return Err(MultipleUnequalValues(q.id, merged[q.id], q.value));
        }
      }
      assert quotes[..|quotes|] == quotes;
    }
    assert inputs[..|inputs|] == inputs;
    r := Ok(MarketData(valuationDate, merged));
  }

  /** Adding one curve's quotes keeps what was merged, holds every one of
      its quotes, and adds no other identifier. */
  lemma {:induction false} QuotesAdded(start: map<MarketDataId, real>, quotes: seq<Quote>)
    ensures var r := FoldResult(start, quotes, AddQuote);
      r.Ok? ==>
        && (forall id :: id in start ==> id in r.value && r.value[id] == start[id])
        && (forall l :: 0 <= l < |quotes| ==> quotes[l].id in r.value && r.value[quotes[l].id] == quotes[l].value)
        && (forall id :: id in r.value ==> id in start || exists l :: 0 <= l < |quotes| && quotes[l].id == id)
    decreases |quotes|
  {
    if quotes != [] {
      var n := |quotes| - 1;
      var init := quotes[..n];
      QuotesAdded(start, init);
      var r := FoldResult(start, quotes, AddQuote);
      if r.Ok? {
        var m := FoldResult(start, init, AddQuote).value;
        assert r == AddQuote(m, quotes[n], n);
        forall l | 0 <= l < |quotes| ensures quotes[l].id in r.value && r.value[quotes[l].id] == quotes[l].value {
          if l < n {
            assert quotes[l] == init[l];
          }
        }
        forall id | id in r.value ensures id in start || exists l :: 0 <= l < |quotes| && quotes[l].id == id {
          if id != quotes[n].id && id !in start {
            var l :| 0 <= l < |init| && init[l].id == id;
            assert quotes[l] == init[l];
          }
        }
      }
    }
  }

  /** The merged quotes are exactly the quotes of the inputs: every quote's
      identifier is held with that quote's value, and every identifier held
      comes from some quote. */
  lemma {:induction false} MergedQuotesAgree(inputs: seq<CurveInputs>)
    ensures var r := MergedQuotes(inputs);
      r.Ok? ==>
        && (forall j, l :: 0 <= j < |inputs| && 0 <= l < |inputs[j].marketData| ==>
              inputs[j].marketData[l].id in r.value && r.value[inputs[j].marketData[l].id] == inputs[j].marketData[l].value)
        && (forall id :: id in r.value ==> Quoted(inputs, id, r.value[id]))
    decreases |inputs|
  {
    if inputs != [] {
      var n := |inputs| - 1;
      var init := inputs[..n];
      MergedQuotesAgree(init);
      var r := MergedQuotes(inputs);
      if r.Ok? {
        var m := MergedQuotes(init).value;
        assert r == AddInput(m, inputs[n], n);
        QuotesAdded(m, inputs[n].marketData);
        forall j, l | 0 <= j < |inputs| && 0 <= l < |inputs[j].marketData|
          ensures inputs[j].marketData[l].id in r.value && r.value[inputs[j].marketData[l].id] == inputs[j].marketData[l].value
        {
          if j < n {
            assert inputs[j] == init[j];
          }
        }
        forall id | id in r.value ensures Quoted(inputs, id, r.value[id]) {
          if id in m {
            assert Quoted(init, id, m[id]);
            var j, l :| 0 <= j < |init| && 0 <= l < |init[j].marketData| && init[j].marketData[l] == Quote(id, m[id]);
            assert inputs[j] == init[j];
          } else {
            var l :| 0 <= l < |inputs[n].marketData| && inputs[n].marketData[l].id == id;
            assert inputs[n].marketData[l] == Quote(id, r.value[id]);
          }
        }
      }
    }
  }

  /** Adding one curve's quotes fails only on a quote whose identifier is
      already held with another value, or appears earlier in the same inputs
      with another value. */
  lemma {:induction false} QuotesConflict(start: map<MarketDataId, real>, quotes: seq<Quote>)
    ensures var r := FoldResult(start, quotes, AddQuote);
      r.Err? ==>
        && r.error.MultipleUnequalValues?
        && r.error.existing != r.error.found
        && Quote(r.error.id, r.error.found) in quotes
        && ((r.error.id in start && start[r.error.id] == r.error.existing) || Quote(r.error.id, r.error.existing) in quotes)
    decreases |quotes|
  {
    if quotes != [] {
      var n := |quotes| - 1;
      var init := quotes[..n];
      assert quotes == init + [quotes[n]];
      QuotesConflict(start, init);
      var prefix := FoldResult(start, init, AddQuote);
      var r := FoldResult(start, quotes, AddQuote);
      if prefix.Err? {
        assert r == prefix;
        if Quote(r.error.id, r.error.existing) in init {
          assert Quote(r.error.id, r.error.existing) in quotes;
        }
        assert Quote(r.error.id, r.error.found) in quotes;
      } else {
        QuotesAdded(start, init);
        var m := prefix.value;
        var q := quotes[n];
        assert r == AddQuote(m, q, n);
        if r.Err? {
          assert q.id in m && r.error == MultipleUnequalValues(q.id, m[q.id], q.value);
          if q.id !in start {
            var l :| 0 <= l < |init| && init[l].id == q.id;
            assert init[l] == Quote(q.id, m[q.id]);
            assert quotes[l] == init[l];
          }
        }
      }
    }
  }

  /** Merging fails exactly when two quotes of the inputs share an identifier
      but not a value; the exception names the identifier and both values. */
  lemma {:induction false} MergedQuotesConflict(inputs: seq<CurveInputs>)
    ensures var r := MergedQuotes(inputs);
      r.Err? ==>
        && r.error.MultipleUnequalValues?
        && r.error.existing != r.error.found
        && Quoted(inputs, r.error.id, r.error.existing)
        && Quoted(inputs, r.error.id, r.error.found)
    decreases |inputs|
  {
    if inputs != [] {
      var n := |inputs| - 1;
      var init := inputs[..n];
      MergedQuotesConflict(init);
      var r := MergedQuotes(inputs);
      var prefix := MergedQuotes(init);
      if r.Err? {
        if prefix.Err? {
          var e := r.error;
          assert Quoted(init, e.id, e.existing) && Quoted(init, e.id, e.found);
          var j1, l1 :| 0 <= j1 < |init| && 0 <= l1 < |init[j1].marketData| && init[j1].marketData[l1] == Quote(e.id, e.existing);
          var j2, l2 :| 0 <= j2 < |init| && 0 <= l2 < |init[j2].marketData| && init[j2].marketData[l2] == Quote(e.id, e.found);
          assert inputs[j1] == init[j1] && inputs[j2] == init[j2];
        } else {
          var m := prefix.value;
          assert r == AddInput(m, inputs[n], n);
          QuotesConflict(m, inputs[n].marketData);
          MergedQuotesAgree(init);
          var e := r.error;
          var quotes := inputs[n].marketData;
          var l2 :| 0 <= l2 < |quotes| && quotes[l2] == Quote(e.id, e.found);
          assert Quoted(inputs, e.id, e.found);
          if e.id in m && m[e.id] == e.existing {
            var j1, l1 :| 0 <= j1 < |init| && 0 <= l1 < |init[j1].marketData| && init[j1].marketData[l1] == Quote(e.id, e.existing);
            assert inputs[j1] == init[j1];
          } else {
            var l1 :| 0 <= l1 < |quotes| && quotes[l1] == Quote(e.id, e.existing);
            assert inputs[n].marketData[l1] == Quote(e.id, e.existing);
          }
        }
      }
    }
  }

  /** Two quotes with one identifier and different values make the merge fail. */
  lemma UnequalQuotesFail(inputs: seq<CurveInputs>, id: MarketDataId, v1: real, v2: real)
    requires Quoted(inputs, id, v1) && Quoted(inputs, id, v2) && v1 != v2
    ensures MergedQuotes(inputs).Err?
  {
    MergedQuotesAgree(inputs);
    var j1, l1 :| 0 <= j1 < |inputs| && 0 <= l1 < |inputs[j1].marketData| && inputs[j1].marketData[l1] == Quote(id, v1);
    var j2, l2 :| 0 <= j2 < |inputs| && 0 <= l2 < |inputs[j2].marketData| && inputs[j2].marketData[l2] == Quote(id, v2);
  }

  // ------------------------------------------------------------- the scenario count

  /** One input box of `scenarioCount`: the first scenario count that is not
      zero is taken, and any later scenario box must have that count. */
  function CountStep(count: nat, box: Box<CurveInputs>, i: nat): Result<nat> {
    if box.Single? then Ok(count)
    else if count == 0 then Ok(|box.values|)
    else if count != |box.values| then Err(ScenarioCountMismatch(count, |box.values|))
    else Ok(count)
  }

  /** The count `scenarioCount` starts from: the valuation dates' when they are per scenario. */
  function StartCount(valuationDate: Box<Date>): nat {
    if valuationDate.Scenarios? then |valuationDate.values| else 0
  }

  /** `scenarioCount`: never zero; a count of zero raises. */
  function CountOfScenarios(valuationDate: Box<Date>, boxes: seq<Box<CurveInputs>>): (r: Result<nat>)
    ensures r.Ok? ==> r.value > 0
    ensures r.Err? ==> r.error == CannotCountScenarios || (r.error.ScenarioCountMismatch? && r.error.current != r.error.boxCount)
  {
    var start := StartCount(valuationDate);
    FoldResultErrors(start, boxes, CountStep, (e: Error) => e.ScenarioCountMismatch? && e.current != e.boxCount);
    var count :- FoldResult(start, boxes, CountStep);
    if count != 0 then Ok(count) else Err(CannotCountScenarios)
  }

  method ScenarioCount(valuationDate: Box<Date>, boxes: seq<Box<CurveInputs>>) returns (r: Result<nat>)
    ensures r == CountOfScenarios(valuationDate, boxes)
  {
    var count: nat := 0;
    if valuationDate.Scenarios? {
      count := |valuationDate.values|;
    }
    for k := 0 to |boxes|
      invariant FoldResult(StartCount(valuationDate), boxes[..k], CountStep) == Ok(count)
    {
      FoldResultSnoc(StartCount(valuationDate), boxes, k, CountStep);
      var box := boxes[k];
      if box.Scenarios? {
        var boxScenarioCount := |box.values|;
        if count == 0 {
          count := boxScenarioCount;
        } else if count != boxScenarioCount {
          FoldResultErrSticks(StartCount(valuationDate), boxes, k + 1, CountStep);
          return Err(ScenarioCountMismatch(count, boxScenarioCount));
        }
      }
    }
    assert boxes[..|boxes|] == boxes;
    if count != 0 {
      return Ok(count);
    }
    r := Err(CannotCountScenarios);
  }

  /** A count of `n` means every per-scenario box, the valuation dates
      included, has `n` scenarios or none. */
  lemma ScenarioCountAgrees(valuationDate: Box<Date>, boxes: seq<Box<CurveInputs>>)
    ensures var r := CountOfScenarios(valuationDate, boxes);
      r.Ok? ==>
        && (valuationDate.Scenarios? ==> |valuationDate.values| == 0 || |valuationDate.values| == r.value)
        && forall j :: 0 <= j < |boxes| && boxes[j].Scenarios? ==> |boxes[j].values| == 0 || |boxes[j].values| == r.value
  {
    var start := StartCount(valuationDate);
    var inv := (a: nat) => start != 0 ==> a == start;
    var covered := (b: Box<CurveInputs>, a: nat) => b.Scenarios? ==> |b.values| == 0 || |b.values| == a;
    FoldResultCovers(start, boxes, CountStep, inv, covered);
  }

  /** Folding boxes that all have `n` scenarios from a count of 0 or `n`. */
  lemma {:induction false} CountOfAgreeing(start: nat, boxes: seq<Box<CurveInputs>>, n: nat)
    requires n > 0 && (start == 0 || start == n)
    requires forall j :: 0 <= j < |boxes| && boxes[j].Scenarios? ==> |boxes[j].values| == n
    ensures FoldResult(start, boxes, CountStep) ==
      Ok(if start == n || exists j :: 0 <= j < |boxes| && boxes[j].Scenarios? then n else 0)
    decreases |boxes|
  {
    if boxes != [] {
      var k := |boxes| - 1;
      var init := boxes[..k];
      forall j | 0 <= j < |init| && init[j].Scenarios? ensures |init[j].values| == n {
        assert init[j] == boxes[j];
      }
      CountOfAgreeing(start, init, n);
      if exists j :: 0 <= j < |init| && init[j].Scenarios? {
        var j :| 0 <= j < |init| && init[j].Scenarios?;
        assert boxes[j] == init[j];
      }
      if exists j :: 0 <= j < |boxes| && boxes[j].Scenarios? {
        var j :| 0 <= j < |boxes| && boxes[j].Scenarios?;
        if j < k {
          assert init[j] == boxes[j];
        }
      }
    }
  }

  /** When every per-scenario box has `n > 0` scenarios and there is one, the count is `n`. */
  lemma ScenarioCountOfAgreeing(valuationDate: Box<Date>, boxes: seq<Box<CurveInputs>>, n: nat)
    requires n > 0
    requires valuationDate.Scenarios? ==> |valuationDate.values| == n
    requires forall j :: 0 <= j < |boxes| && boxes[j].Scenarios? ==> |boxes[j].values| == n
    requires valuationDate.Scenarios? || exists j :: 0 <= j < |boxes| && boxes[j].Scenarios?
    ensures CountOfScenarios(valuationDate, boxes) == Ok(n)
  {
    CountOfAgreeing(StartCount(valuationDate), boxes, n);
  }

  /** Without any per-scenario box the scenarios cannot be counted. */
  lemma ScenarioCountOfSingles(valuationDate: Box<Date>, boxes: seq<Box<CurveInputs>>)
    requires valuationDate.Single?
    requires forall j :: 0 <= j < |boxes| ==> boxes[j].Single?
    ensures CountOfScenarios(valuationDate, boxes) == Err(CannotCountScenarios)
  {
    CountOfAgreeing(0, boxes, 1);
  }

  /** No scenario below the count is out of range for a box with scenarios,
      provided no per-scenario box is empty. */
  lemma ScenarioValuesInRange(valuationDate: Box<Date>, boxes: seq<Box<CurveInputs>>, i: nat)
    requires CountOfScenarios(valuationDate, boxes).Ok? && i < CountOfScenarios(valuationDate, boxes).value
    requires valuationDate.Scenarios? ==> |valuationDate.values| > 0
    requires forall j :: 0 <= j < |boxes| && boxes[j].Scenarios? ==> |boxes[j].values| > 0
    ensures valuationDate.GetValue(i).Ok?
    ensures InputsForScenario(boxes, i).Ok?
  {
    ScenarioCountAgrees(valuationDate, boxes);
  }

  // ------------------------------------------------------------- building the groups

  /** `buildGroup`: the group bootstrapped from the market data, as a curve group. */
  function GroupFor(ctx: Context, group: CurveGroupDefinition, market: MarketData): (r: Result<RatesCurveGroup>)
    ensures r.Ok? ==> r.value.name == group.name
    ensures r.Err? ==> GroupFailure(r.error)
  {
    SingleGroupDatesMatch(group, market, ctx.env);
    var provider :- SingleGroupSpec(group, market, ctx.env);
    Ok(RatesCurveGroup(group.name, provider.discountCurves, provider.indexCurves))
  }

  method BuildGroup(ctx: Context, group: CurveGroupDefinition, market: MarketData) returns (r: Result<RatesCurveGroup>)
    ensures r == GroupFor(ctx, group, market)
  {
    var provider := BootstrapGroup(group, market, ctx.env);
    if provider.Err? {
      return Err(provider.error);
    }
    r := Ok(RatesCurveGroup(group.name, provider.value.discountCurves, provider.value.indexCurves));
  }

  /** The curve group of one scenario: its valuation date, the group filtered
      for that date, and the merged quotes of every box's value for it. */
  function ScenarioGroup(ctx: Context, group: CurveGroupDefinition, valuationDate: Box<Date>, boxes: seq<Box<CurveInputs>>, i: nat)
    : Result<RatesCurveGroup>
  {
    var date :- valuationDate.GetValue(i);
    var inputs :- InputsForScenario(boxes, i);
    var market :- MarketDataOf(date, inputs);
    GroupFor(ctx, ctx.filtered(group, date), market)
  }

  /** The curve group of each scenario. */
  function ScenarioStep(ctx: Context, group: CurveGroupDefinition, valuationDate: Box<Date>, boxes: seq<Box<CurveInputs>>)
    : nat -> Result<RatesCurveGroup>
  {
    (i: nat) => ScenarioGroup(ctx, group, valuationDate, boxes, i)
  }

  /** The body of `buildMultipleCurveGroups`' loop: the curve group of one scenario. */
  method BuildScenarioGroup(ctx: Context, group: CurveGroupDefinition, valuationDate: Box<Date>, boxes: seq<Box<CurveInputs>>, i: nat)
    returns (r: Result<RatesCurveGroup>)
    ensures r == ScenarioGroup(ctx, group, valuationDate, boxes, i)
  {
    var date := valuationDate.GetValue(i);
    if date.Err? {
      return Err(date.error);
    }
    var filteredGroup := ctx.filtered(group, date.value);
    var curveInputsList := InputsForScenario(boxes, i);
    if curveInputsList.Err? {
      return Err(curveInputsList.error);
    }
    var inputs := InputsByKey(date.value, curveInputsList.value);
    if inputs.Err? {
      return Err(inputs.error);
    }
    r := BuildGroup(ctx, filteredGroup, inputs.value);
  }

  /** `buildMultipleCurveGroups`: one curve group per counted scenario. */
  function MultipleGroups(ctx: Context, group: CurveGroupDefinition, valuationDate: Box<Date>, boxes: seq<Box<CurveInputs>>)
    : Result<Box<RatesCurveGroup>>
  {
    var n :- CountOfScenarios(valuationDate, boxes);
    var groups :- TabulateResult(n, ScenarioStep(ctx, group, valuationDate, boxes));
    Ok(Scenarios(groups))
  }

  method BuildMultipleCurveGroups(ctx: Context, group: CurveGroupDefinition, valuationDate: Box<Date>, boxes: seq<Box<CurveInputs>>)
    returns (r: Result<Box<RatesCurveGroup>>)
    ensures r == MultipleGroups(ctx, group, valuationDate, boxes)
  {
    var count := ScenarioCount(valuationDate, boxes);
    if count.Err? {
      return Err(count.error);
    }
    var curveGroups := BuildScenarioGroups(ctx, group, valuationDate, boxes, count.value);
    if curveGroups.Err? {
      return Err(curveGroups.error);
    }
    r := Ok(Scenarios(curveGroups.value));
  }

  /** The loop of `buildMultipleCurveGroups`: the curve groups of the first `scenarioCount` scenarios. */
  method BuildScenarioGroups(ctx: Context, group: CurveGroupDefinition, valuationDate: Box<Date>, boxes: seq<Box<CurveInputs>>,
                             scenarioCount: nat)
    returns (r: Result<seq<RatesCurveGroup>>)
    ensures r == TabulateResult(scenarioCount, ScenarioStep(ctx, group, valuationDate, boxes))
  {
    ghost var step := ScenarioStep(ctx, group, valuationDate, boxes);
    var builder: seq<RatesCurveGroup> := [];
    for i := 0 to scenarioCount
      invariant TabulateResult(i, step) == Ok(builder)
    {
      var built := BuildScenarioGroup(ctx, group, valuationDate, boxes, i);
      assert step(i) == built;
      if built.Err? {
        TabulateResultErrSticks(i + 1, scenarioCount, step);
        return Err(built.error);
      }
      TabulateResultSnoc(i, step, builder, built.value);
      builder := builder + [built.value];
    }
    r := Ok(builder);
  }

  /** The values of boxes that all hold a single value. */
  function SingleValues(boxes: seq<Box<CurveInputs>>): (r: seq<CurveInputs>)
    requires forall j :: 0 <= j < |boxes| ==> boxes[j].Single?
    ensures |r| == |boxes| && forall j :: 0 <= j < |boxes| ==> Single(r[j]) == boxes[j]
  {
    seq(|boxes|, j requires 0 <= j < |boxes| => boxes[j].value)
  }

  /** `buildSingleCurveGroup`: one curve group from the single values. */
  function SingleGroup(ctx: Context, group: CurveGroupDefinition, valuationDate: Date, boxes: seq<Box<CurveInputs>>)
    : Result<Box<RatesCurveGroup>>
    requires forall j :: 0 <= j < |boxes| ==> boxes[j].Single?
  {
    var market :- MarketDataOf(valuationDate, SingleValues(boxes));
    var built :- GroupFor(ctx, ctx.filtered(group, valuationDate), market);
    Ok(Single(built))
  }

  method BuildSingleCurveGroup(ctx: Context, group: CurveGroupDefinition, valuationDate: Date, boxes: seq<Box<CurveInputs>>)
    returns (r: Result<Box<RatesCurveGroup>>)
    requires forall j :: 0 <= j < |boxes| ==> boxes[j].Single?
    ensures r == SingleGroup(ctx, group, valuationDate, boxes)
  {
    var filteredGroup := ctx.filtered(group, valuationDate);
    var inputs := SingleValues(boxes);
    var inputValues := InputsByKey(valuationDate, inputs);
    if inputValues.Err? {
      return Err(inputValues.error);
    }
    var curveGroup := BuildGroup(ctx, filteredGroup, inputValues.value);
    if curveGroup.Err? {
      return Err(curveGroup.error);
    }
    r := Ok(Single(curveGroup.value));
  }

  /** Some box holds one value per scenario. */
  predicate AnyScenarioValue(valuationDate: Box<Date>, boxes: seq<Box<CurveInputs>>) {
    valuationDate.Scenarios? || exists j :: 0 <= j < |boxes| && boxes[j].Scenarios?
  }

  /** `buildCurveGroup`: per scenario when the valuation dates or any curve's
      inputs are per scenario, otherwise once. */
  function CurveGroupBox(ctx: Context, group: CurveGroupDefinition, market: ScenarioMarketData, source: string)
    : (r: Result<Box<RatesCurveGroup>>)
    ensures r.Ok? ==> InputBoxes(group, market, source).Ok?
    ensures r.Ok? ==> (r.value.Scenarios? <==> AnyScenarioValue(market.valuationDate, InputBoxes(group, market, source).value))
  {
    var boxes :- InputBoxes(group, market, source);
    if AnyScenarioValue(market.valuationDate, boxes) then MultipleGroups(ctx, group, market.valuationDate, boxes)
    else SingleGroup(ctx, group, market.valuationDate.value, boxes)
  }

  method BuildCurveGroup(ctx: Context, group: CurveGroupDefinition, market: ScenarioMarketData, source: string)
    returns (r: Result<Box<RatesCurveGroup>>)
    ensures r == CurveGroupBox(ctx, group, market, source)
  {
    var inputBoxes := InputBoxes(group, market, source);
    if inputBoxes.Err? {
      return Err(inputBoxes.error);
    }
    var boxes := inputBoxes.value;
    var valuationDates := market.valuationDate;
    var multipleValuationDates := valuationDates.Scenarios?;
    var multipleValues := exists j :: 0 <= j < |boxes| && boxes[j].Scenarios?;
    if multipleValues || multipleValuationDates {
      r := BuildMultipleCurveGroups(ctx, group, valuationDates, boxes);
    } else {
      r := BuildSingleCurveGroup(ctx, group, valuationDates.value, boxes);
    }
  }

  /** Per scenario, the result is one curve group per counted scenario, the
      i-th built from the i-th valuation date and the i-th value of each box. */
  lemma CurveGroupPerScenario(ctx: Context, group: CurveGroupDefinition, market: ScenarioMarketData, source: string)
    ensures var r := CurveGroupBox(ctx, group, market, source);
      r.Ok? && r.value.Scenarios? ==>
        var boxes := InputBoxes(group, market, source).value;
        && CountOfScenarios(market.valuationDate, boxes) == Ok(|r.value.values|)
        && forall i :: 0 <= i < |r.value.values| ==>
             && market.valuationDate.GetValue(i).Ok?
             && InputsForScenario(boxes, i).Ok?
             && MarketDataOf(market.valuationDate.GetValue(i).value, InputsForScenario(boxes, i).value).Ok?
             && GroupFor(ctx, ctx.filtered(group, market.valuationDate.GetValue(i).value),
                         MarketDataOf(market.valuationDate.GetValue(i).value, InputsForScenario(boxes, i).value).value)
                == Ok(r.value.values[i])
  {
    var r := CurveGroupBox(ctx, group, market, source);
    if r.Ok? && r.value.Scenarios? {
      var boxes := InputBoxes(group, market, source).value;
      assert AnyScenarioValue(market.valuationDate, boxes);
      assert r == MultipleGroups(ctx, group, market.valuationDate, boxes);
      var n := CountOfScenarios(market.valuationDate, boxes).value;
      var groups := TabulateResult(n, ScenarioStep(ctx, group, market.valuationDate, boxes));
      assert r.value.values == groups.value;
      forall i | 0 <= i < n
        ensures && market.valuationDate.GetValue(i).Ok?
                && InputsForScenario(boxes, i).Ok?
                && MarketDataOf(market.valuationDate.GetValue(i).value, InputsForScenario(boxes, i).value).Ok?
                && GroupFor(ctx, ctx.filtered(group, market.valuationDate.GetValue(i).value),
                            MarketDataOf(market.valuationDate.GetValue(i).value, InputsForScenario(boxes, i).value).value)
                   == Ok(r.value.values[i])
      {
        assert ScenarioStep(ctx, group, market.valuationDate, boxes)(i) == Ok(groups.value[i]);
      }
    }
  }

  /** Without per-scenario data the result is the one curve group built from
      the single valuation date and the single value of each box. */
  lemma CurveGroupOnce(ctx: Context, group: CurveGroupDefinition, market: ScenarioMarketData, source: string)
    ensures var r := CurveGroupBox(ctx, group, market, source);
      r.Ok? && r.value.Single? ==>
        var boxes := InputBoxes(group, market, source).value;
        && market.valuationDate.Single?
        && (forall j :: 0 <= j < |boxes| ==> boxes[j].Single?)
        && MarketDataOf(market.valuationDate.value, SingleValues(boxes)).Ok?
        && GroupFor(ctx, ctx.filtered(group, market.valuationDate.value),
                    MarketDataOf(market.valuationDate.value, SingleValues(boxes)).value) == Ok(r.value.value)
  {
  }
}
