/** The forecast-flattening loop of `getCityWeather` (server.js:102-142):
    one record per entry of the first ("driver") element's time array, with
    six fields routed by element name from every element at the same index. */
module Forecasts {
  import opened Types

  /** One output record. Fields no element fills stay "". */
  datatype Forecast = Forecast(
    startTime: string,
    endTime: string,
    weather: string,
    rain: string,
    minTemp: string,
    maxTemp: string,
    comfort: string,
    windSpeed: string)

  /** The element codes the `switch` routes into a field. */
  predicate Routed(name: string) {
    name == "Wx" || name == "PoP" || name == "MinT" || name == "MaxT" || name == "CI" || name == "WS"
  }

  /** The field of a record an element code is routed into; "" for other codes. */
  function FieldOf(f: Forecast, name: string): string {
    if name == "Wx" then f.weather
    else if name == "PoP" then f.rain
    else if name == "MinT" then f.minTemp
    else if name == "MaxT" then f.maxTemp
    else if name == "CI" then f.comfort
    else if name == "WS" then f.windSpeed
    else ""
  }

  /** The text appended to a routed value: "%" for the precipitation probability. */
  function Suffix(name: string): string {
    if name == "PoP" then "%" else ""
  }

  /** Index of the last element named `name`, if any. Because `forEach`
      visits the elements in order and each match overwrites the field,
      this is the element that decides the field. */
  function LastNamed(es: seq<WeatherElement>, name: string): (r: Option<nat>)
    ensures r.Some? ==> r.value < |es| && es[r.value].elementName == name
    ensures r.Some? ==> forall m :: r.value < m < |es| ==> es[m].elementName != name
    ensures r.None? <==> forall m :: 0 <= m < |es| ==> es[m].elementName != name
  {
    if |es| == 0 then None
    else if es[|es| - 1].elementName == name then Some(|es| - 1)
    else LastNamed(es[..|es| - 1], name)
  }

  /** The `parameterName` of element `e` at index `i` where it exists. */
  function ParameterAt(e: WeatherElement, i: nat): string {
    if i < |e.time| && e.time[i].parameter.Some? then e.time[i].parameter.value else ""
  }

  /** The text the field routed from `name` ends up holding at index `i`. */
  function FieldText(es: seq<WeatherElement>, name: string, i: nat): string {
    match LastNamed(es, name)
    case None => ""
    case Some(k) => ParameterAt(es[k], i) + Suffix(name)
  }

  /** Reading element `e` at index `i` does not throw: `e.time[i]` exists, and
      when the name is routed, its `parameter` object exists too. */
  predicate ReadableAt(e: WeatherElement, i: nat) {
    i < |e.time| && (Routed(e.elementName) ==> e.time[i].parameter.Some?)
  }

  /** The loop runs to completion: there is a driver element, and every
      element is readable at every index of the driver's time array. */
  predicate Flattenable(es: seq<WeatherElement>) {
    |es| > 0 &&
    forall k, i :: 0 <= k < |es| && 0 <= i < |es[0].time| ==> ReadableAt(es[k], i)
  }

  /** Record `i`: period from the driver's entry `i`, fields by last-wins routing. */
  function RecordAt(es: seq<WeatherElement>, i: nat): Forecast
    requires |es| > 0 && i < |es[0].time|
  {
    Forecast(
      es[0].time[i].startTime,
      es[0].time[i].endTime,
      FieldText(es, "Wx", i),
      FieldText(es, "PoP", i),
      FieldText(es, "MinT", i),
      FieldText(es, "MaxT", i),
      FieldText(es, "CI", i),
      FieldText(es, "WS", i))
  }

  /** Reference definition of the flattening: None stands for the TypeError
      the loop throws on an empty element list or an unreadable entry. */
  function Flattened(es: seq<WeatherElement>): Option<seq<Forecast>> {
    if Flattenable(es) then
      Some(seq(|es[0].time|, i requires 0 <= i < |es[0].time| => RecordAt(es, i)))
    else None
  }

  /** The record for index `i` after the first `j` elements have been visited. */
  function Partial(es: seq<WeatherElement>, j: nat, i: nat): Forecast
    requires j <= |es| && 0 < |es| && i < |es[0].time|
  {
    Forecast(
      es[0].time[i].startTime,
      es[0].time[i].endTime,
      FieldText(es[..j], "Wx", i),
      FieldText(es[..j], "PoP", i),
      FieldText(es[..j], "MinT", i),
      FieldText(es[..j], "MaxT", i),
      FieldText(es[..j], "CI", i),
      FieldText(es[..j], "WS", i))
  }

  /** Extending the element list by one element changes a field only when
      the new element's name routes to it. */
  lemma FieldTextStep(es: seq<WeatherElement>, j: nat, name: string, i: nat)
    requires j < |es|
    ensures FieldText(es[..j + 1], name, i) ==
      if es[j].elementName == name then ParameterAt(es[j], i) + Suffix(name) else FieldText(es[..j], name, i)
  {
  }

  /** Visiting element `j` overwrites exactly the field its name routes to. */
  lemma PartialStep(es: seq<WeatherElement>, j: nat, i: nat)
    requires j < |es| && i < |es[0].time|
    ensures var p, v, name := Partial(es, j, i), ParameterAt(es[j], i), es[j].elementName;
      Partial(es, j + 1, i) ==
        if name == "Wx" then p.(weather := v)
        else if name == "PoP" then p.(rain := v + "%")
        else if name == "MinT" then p.(minTemp := v)
        else if name == "MaxT" then p.(maxTemp := v)
        else if name == "CI" then p.(comfort := v)
        else if name == "WS" then p.(windSpeed := v)
        else p
  {
    FieldTextStep(es, j, "Wx", i);
    FieldTextStep(es, j, "PoP", i);
    FieldTextStep(es, j, "MinT", i);
    FieldTextStep(es, j, "MaxT", i);
    FieldTextStep(es, j, "CI", i);
    FieldTextStep(es, j, "WS", i);
  }

  /** The `forEach` callback of server.js:117-139 for one index `i`: every
      element in list order overwrites the field its name routes to. Returns
      None where reading `element.time[i].parameter` or its `parameterName`
      throws. */
  method FillRecord(es: seq<WeatherElement>, i: nat) returns (r: Option<Forecast>)
    requires |es| > 0 && i < |es[0].time|
    ensures r.Some? <==> forall k :: 0 <= k < |es| ==> ReadableAt(es[k], i)
    ensures r.Some? ==> r.value == RecordAt(es, i)
  {
    var forecast := Forecast(es[0].time[i].startTime, es[0].time[i].endTime, "", "", "", "", "", "");
    for j := 0 to |es|
      invariant forecast == Partial(es, j, i)
      invariant forall k :: 0 <= k < j ==> ReadableAt(es[k], i)
    {
      var element := es[j];
      if i >= |element.time| {
        assert !ReadableAt(es[j], i);
        return None;
      }
      var value := element.time[i].parameter;
      if Routed(element.elementName) && value.None? {
        assert !ReadableAt(es[j], i);
        return None;
      }
      PartialStep(es, j, i);
      if element.elementName == "Wx" {
        forecast := forecast.(weather := value.value);
      } else if element.elementName == "PoP" {
        forecast := forecast.(rain := value.value + "%");
      } else if element.elementName == "MinT" {
        forecast := forecast.(minTemp := value.value);
      } else if element.elementName == "MaxT" {
        forecast := forecast.(maxTemp := value.value);
      } else if element.elementName == "CI" {
        forecast := forecast.(comfort := value.value);
      } else if element.elementName == "WS" {
        forecast := forecast.(windSpeed := value.value);
      }
    }
    assert es[..|es|] == es;
    return Some(forecast);
  }

  /** The loop of server.js:102-142: one record per entry of the driver's
      time array, appended in index order. Returns None where the source
      throws (no elements, or an unreadable entry). */
  method Flatten(es: seq<WeatherElement>) returns (r: Option<seq<Forecast>>)
    ensures r == Flattened(es)
  {
    if |es| == 0 {
      return None;
    }
    var timeCount := |es[0].time|;
    var forecasts: seq<Forecast> := [];
    for i := 0 to timeCount
      invariant |forecasts| == i
      invariant forall i' :: 0 <= i' < i ==> forecasts[i'] == RecordAt(es, i')
      invariant forall k, i' :: 0 <= k < |es| && 0 <= i' < i ==> ReadableAt(es[k], i')
    {
      var forecast := FillRecord(es, i);
      if forecast.None? {
        assert !Flattenable(es) by {
          var k :| 0 <= k < |es| && !ReadableAt(es[k], i);
        }
        return None;
      }
      forecasts := forecasts + [forecast.value];
    }
    assert Flattenable(es);
    var fs := Flattened(es).value;
    assert |fs| == |forecasts| && forall i :: 0 <= i < |fs| ==> fs[i] == forecasts[i];
    assert fs == forecasts;
    return Some(forecasts);
  }
}

/** Properties of the flattening, stated on its reference definition; by
    `Flatten`'s postcondition they hold of the loop's result as well. */
module ForecastProperties {
  import opened Types
  import opened Forecasts

  /** One record per entry of the driver's time array, in the same order,
      each carrying that entry's period. */
  lemma DriverSetsPeriods(es: seq<WeatherElement>)
    requires Flattened(es).Some?
    ensures |es| > 0 && |Flattened(es).value| == |es[0].time|
    ensures forall i :: 0 <= i < |es[0].time| ==>
      Flattened(es).value[i].startTime == es[0].time[i].startTime &&
      Flattened(es).value[i].endTime == es[0].time[i].endTime
  {
  }

  /** `weatherElements[0]` on an empty list throws. */
  lemma NoElementsFails()
    ensures Flattened([]) == None
  {
  }

  /** An element whose time array is shorter than the driver's makes
      `element.time[i]` undefined at `i == |element.time|`, whatever its name. */
  lemma {:induction false} ShortSeriesFails(es: seq<WeatherElement>, k: nat)
    requires k < |es| && |es[k].time| < |es[0].time|
    ensures Flattened(es) == None
  {
    assert !ReadableAt(es[k], |es[k].time|);
  }

  /** A routed element whose entry at a driver index has no `parameter`
      object makes `value.parameterName` throw. */
  lemma {:induction false} MissingParameterFails(es: seq<WeatherElement>, k: nat, i: nat)
    requires k < |es| && i < |es[0].time| && i < |es[k].time|
    requires Routed(es[k].elementName) && es[k].time[i].parameter.None?
    ensures Flattened(es) == None
  {
    assert !ReadableAt(es[k], i);
  }

  /** The flattening fails exactly when there is no driver, some element's
      time array is shorter than the driver's, or some routed element lacks
      `parameter` at a driver index. */
  lemma {:induction false} FailsExactly(es: seq<WeatherElement>)
    ensures Flattened(es).None? <==>
      || |es| == 0
      || (exists k :: 0 <= k < |es| && |es[k].time| < |es[0].time|)
      || (exists k, i :: 0 <= k < |es| && 0 <= i < |es[0].time| && i < |es[k].time| &&
            Routed(es[k].elementName) && es[k].time[i].parameter.None?)
  {
    if |es| > 0 && !Flattenable(es) {
      var k, i :| 0 <= k < |es| && 0 <= i < |es[0].time| && !ReadableAt(es[k], i);
      if i < |es[k].time| {
        assert Routed(es[k].elementName) && es[k].time[i].parameter.None?;
      } else {
        assert |es[k].time| < |es[0].time|;
      }
    }
    if |es| > 0 && exists k :: 0 <= k < |es| && |es[k].time| < |es[0].time| {
      var k :| 0 <= k < |es| && |es[k].time| < |es[0].time|;
      ShortSeriesFails(es, k);
    }
    if exists k, i :: 0 <= k < |es| && 0 <= i < |es[0].time| && i < |es[k].time| &&
        Routed(es[k].elementName) && es[k].time[i].parameter.None? {
      var k, i :| 0 <= k < |es| && 0 <= i < |es[0].time| && i < |es[k].time| &&
        Routed(es[k].elementName) && es[k].time[i].parameter.None?;
      MissingParameterFails(es, k, i);
    }
  }

  /** With a driver, equal-length series and a parameter in every routed
      entry, the flattening succeeds. */
  lemma AlignedSucceeds(es: seq<WeatherElement>)
    requires |es| > 0
    requires forall k :: 0 <= k < |es| ==> |es[k].time| == |es[0].time|
    requires forall k, i :: 0 <= k < |es| && 0 <= i < |es[k].time| && Routed(es[k].elementName) ==>
      es[k].time[i].parameter.Some?
    ensures Flattened(es).Some?
  {
  }

  /** The last element named `name` decides the field `name` routes to
      (earlier ones are overwritten): the field is that element's
      `parameterName` at the same index, with "%" appended for "PoP". */
  lemma {:induction false} LastElementDecidesField(es: seq<WeatherElement>, i: nat, name: string, k: nat)
    requires Flattened(es).Some? && i < |Flattened(es).value|
    requires Routed(name) && k < |es| && es[k].elementName == name
    requires forall m :: k < m < |es| ==> es[m].elementName != name
    ensures i < |es[k].time| && es[k].time[i].parameter.Some?
    ensures FieldOf(Flattened(es).value[i], name) == es[k].time[i].parameter.value + Suffix(name)
  {
    assert ReadableAt(es[k], i);
    assert LastNamed(es, name) == Some(k);
    assert Flattened(es).value[i] == RecordAt(es, i);
  }

  /** A field whose element code appears nowhere in the list stays "". */
  lemma AbsentFieldEmpty(es: seq<WeatherElement>, i: nat, name: string)
    requires Flattened(es).Some? && i < |Flattened(es).value|
    requires Routed(name)
    requires forall m :: 0 <= m < |es| ==> es[m].elementName != name
    ensures FieldOf(Flattened(es).value[i], name) == ""
  {
  }

  /** Appending an element whose name the `switch` does not route changes
      nothing, provided its time array is long enough to be read. */
  lemma {:induction false} UnroutedElementIgnored(es: seq<WeatherElement>, e: WeatherElement)
    requires |es| > 0 && !Routed(e.elementName) && |e.time| >= |es[0].time|
    ensures Flattened(es + [e]) == Flattened(es)
  {
    var es' := es + [e];
    assert es'[0] == es[0];
    assert es'[..|es|] == es;
    forall k, i | 0 <= k < |es'| && 0 <= i < |es[0].time|
      ensures ReadableAt(es'[k], i) <==> (k < |es| ==> ReadableAt(es[k], i))
    {
    }
    assert Flattenable(es') <==> Flattenable(es) by {
      if Flattenable(es) {
        forall k, i | 0 <= k < |es'| && 0 <= i < |es'[0].time|
          ensures ReadableAt(es'[k], i)
        {
          if k < |es| {
            assert ReadableAt(es[k], i);
          }
        }
      }
      if Flattenable(es') {
        forall k, i | 0 <= k < |es| && 0 <= i < |es[0].time|
          ensures ReadableAt(es[k], i)
        {
          assert ReadableAt(es'[k], i);
        }
      }
    }
    forall name, i | Routed(name)
      ensures FieldText(es', name, i) == FieldText(es, name, i)
    {
      assert LastNamed(es', name) == LastNamed(es, name);
    }
    if Flattenable(es) {
      var fs, fs' := Flattened(es).value, Flattened(es').value;
      forall i | 0 <= i < |fs|
        ensures fs'[i] == fs[i]
      {
        assert fs'[i] == RecordAt(es', i);
        assert fs[i] == RecordAt(es, i);
      }
      assert fs' == fs;
    }
  }

  /** Two "Wx" series of one period: the later one in list order wins. */
  lemma LaterDuplicateWins()
    ensures var es := [
        WeatherElement("Wx", [TimeEntry("t0", "t1", Some("Sunny"))]),
        WeatherElement("Wx", [TimeEntry("t0", "t1", Some("Rain"))])];
      Flattened(es).Some? && Flattened(es).value[0].weather == "Rain"
  {
  }
}
