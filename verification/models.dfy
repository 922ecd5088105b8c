/**
 * The generated payload classes of `main` and their shared `convertValues`
 * helper: constructors copy named keys from an untyped source without any
 * validation, and nested class-typed fields are rebuilt by duck typing.
 * `JSON.parse`, which a constructor applies to a string source, is a
 * parameter `parse` here.
 */
module Models {
  import opened Options
  import opened JsValue

  /** The generated classes that carry payload data. */
  datatype Class = WeatherInfo | CurrentWeather | DailyTemp | DailyWeather | HourlyWeather | WeatherData

  function Name(c: Class): string {
    match c
    case WeatherInfo => "WeatherInfo"
    case CurrentWeather => "CurrentWeather"
    case DailyTemp => "DailyTemp"
    case DailyWeather => "DailyWeather"
    case HourlyWeather => "HourlyWeather"
    case WeatherData => "WeatherData"
  }

  /** The keys each constructor assigns. */
  function FieldSet(c: Class): set<string> {
    match c
    case WeatherInfo => {"main", "description", "icon"}
    case CurrentWeather =>
      {"temp", "feels_like", "humidity", "pressure", "uvi", "visibility", "wind_speed", "wind_deg", "weather"}
    case DailyTemp => {"day", "min", "max", "night"}
    case DailyWeather => {"dt", "temp", "weather", "pop"}
    case HourlyWeather => {"dt", "temp", "weather", "pop"}
    case WeatherData => {"current", "daily", "hourly"}
  }

  /** Nesting depth of the class graph; every nested class is shallower than its owner. */
  function Rank(c: Class): nat {
    match c
    case WeatherInfo => 0
    case DailyTemp => 0
    case CurrentWeather => 1
    case DailyWeather => 1
    case HourlyWeather => 1
    case WeatherData => 2
  }

  /** The class a constructor passes to `convertValues` for `key`, or `None` for a plain copy. */
  function Nested(c: Class, key: string): (d: Option<Class>)
    ensures d.Some? ==> Rank(d.value) < Rank(c) && key in FieldSet(c)
  {
    match c
    case CurrentWeather => if key == "weather" then Some(WeatherInfo) else None
    case DailyWeather =>
      if key == "temp" then Some(DailyTemp) else if key == "weather" then Some(WeatherInfo) else None
    case HourlyWeather => if key == "weather" then Some(WeatherInfo) else None
    case WeatherData =>
      if key == "current" then Some(CurrentWeather)
      else if key == "daily" then Some(DailyWeather)
      else if key == "hourly" then Some(HourlyWeather)
      else None
    case _ => None
  }

  predicate IsLeaf(c: Class) {
    c == WeatherInfo || c == DailyTemp
  }

  /** An instance of `c` carrying exactly the declared fields. */
  predicate IsInstanceOf(v: Value, c: Class) {
    v.Instance? && v.className == Name(c) && v.props.Keys == FieldSet(c)
  }

  /**
   * `convertValues(a, classs, asMap)`: falsy values and other non-objects come
   * back unchanged, arrays are mapped element by element (with `asMap` back at
   * its default `false`), an object becomes one `new classs(a)`, or, with
   * `asMap`, has each of its values replaced by `new classs(value)`.
   */
  function ConvertValues(a: Value, cls: Class, asMap: bool, parse: string -> Outcome): (r: Outcome)
    ensures !Truthy(a) ==> r == Returned(a)
    ensures Truthy(a) && !IsObjectType(a) ==> r == Returned(a)
    ensures a.Arr? && r.Returned? ==> r.value.Arr? && |r.value.elems| == |a.elems|
    ensures (a.Obj? || a.Instance?) && HasSliceAndMap(a) ==> r == Threw
    ensures (a.Obj? || a.Instance?) && !HasSliceAndMap(a) && !asMap ==> r == New(cls, a, parse)
    ensures (a.Obj? || a.Instance?) && !HasSliceAndMap(a) && asMap && r.Returned? ==>
              && r.value.Obj? == a.Obj?
              && (r.value.Obj? || r.value.Instance?)
              && r.value.props.Keys == a.props.Keys
              && forall k | k in a.props :: New(cls, a.props[k], parse) == Returned(r.value.props[k])
    ensures (a.Obj? || a.Instance?) && !HasSliceAndMap(a) && asMap ==>
              (r.Threw? <==> exists k | k in a.props :: New(cls, a.props[k], parse).Threw?)
    decreases Rank(cls), 3, a
  {
    if !Truthy(a) then Returned(a)
    else if HasSliceAndMap(a) then
      if a.Arr? then ConvertElements(a, cls, parse)
      else Threw  // `a.map` is not a function
    else if a.Obj? || a.Instance? then
      if asMap then ConvertEntries(a, cls, parse) else New(cls, a, parse)
    else Returned(a)
  }

  /** `a.map(elem => convertValues(elem, classs))`; the first element that throws ends the map. */
  function ConvertElements(a: Value, cls: Class, parse: string -> Outcome): (r: Outcome)
    requires a.Arr?
    ensures r.Returned? ==> r.value.Arr? && |r.value.elems| == |a.elems|
    ensures r.Threw? <==> exists i | 0 <= i < |a.elems| :: ConvertValues(a.elems[i], cls, false, parse).Threw?
    ensures r.Returned? ==>
              forall i | 0 <= i < |a.elems| :: ConvertValues(a.elems[i], cls, false, parse) == Returned(r.value.elems[i])
    decreases Rank(cls), 3, a, 0
  {
    var results := seq(|a.elems|, i requires 0 <= i < |a.elems| => ConvertValues(a.elems[i], cls, false, parse));
    if exists i | 0 <= i < |results| :: results[i].Threw? then Threw
    else
      assert forall i | 0 <= i < |a.elems| :: ConvertValues(a.elems[i], cls, false, parse) == results[i];
      Returned(Arr(seq(|results|, i requires 0 <= i < |results| => results[i].value)))
  }

  /** The `asMap` loop: `a[key] = new classs(a[key])` for every own key, then `a` itself. */
  function ConvertEntries(a: Value, cls: Class, parse: string -> Outcome): (r: Outcome)
    requires a.Obj? || a.Instance?
    ensures r.Returned? ==>
              && r.value.Obj? == a.Obj?
              && (r.value.Obj? || r.value.Instance?)
              && r.value.props.Keys == a.props.Keys
              && forall k | k in a.props :: New(cls, a.props[k], parse) == Returned(r.value.props[k])
    ensures r.Threw? <==> exists k | k in a.props :: New(cls, a.props[k], parse).Threw?
    decreases Rank(cls), 3, a, 0
  {
    var results := map k | k in a.props :: New(cls, a.props[k], parse);
    if exists k | k in results :: results[k].Threw? then Threw
    else
      var props := map k | k in results :: results[k].value;
      Returned(if a.Obj? then Obj(props) else Instance(a.className, props))
  }

  /** `new classs(source)`: `undefined` becomes the default `{}`, a string is parsed first. */
  function New(cls: Class, source: Value, parse: string -> Outcome): (r: Outcome)
    ensures r.Returned? ==> IsInstanceOf(r.value, cls)
    ensures source.Null? ==> r == Threw
    ensures source.Undefined? ==> r.Returned? && forall k | k in FieldSet(cls) :: r.value.props[k] == Undefined
    ensures !source.Undefined? && !source.Str? ==> r == Init(cls, source, parse)
    ensures source.Str? && parse(source.s).Threw? ==> r == Threw
    ensures source.Str? && parse(source.s).Returned? ==> r == Init(cls, parse(source.s).value, parse)
    decreases Rank(cls), 2
  {
    var src := if source.Undefined? then Obj(map[]) else source;
    if src.Str? then
      match parse(src.s)
      case Threw => Threw
      case Returned(parsed) => Init(cls, parsed, parse)
    else Init(cls, src, parse)
  }

  /** The constructor body after the string check: one assignment per declared field. */
  function Init(cls: Class, src: Value, parse: string -> Outcome): (r: Outcome)
    ensures r.Returned? ==> IsInstanceOf(r.value, cls)
    ensures !Readable(src) ==> r == Threw
    ensures Readable(src) ==> (r.Threw? <==> exists k | k in FieldSet(cls) :: FieldValue(cls, src, k, parse).Threw?)
    ensures Readable(src) && r.Returned? ==>
              forall k | k in FieldSet(cls) :: Returned(r.value.props[k]) == FieldValue(cls, src, k, parse)
    decreases Rank(cls), 1
  {
    if !Readable(src) then Threw  // reading a property of null
    else
      var results := map k | k in FieldSet(cls) :: FieldValue(cls, src, k, parse);
      if exists k | k in results :: results[k].Threw? then Threw
      else Returned(Instance(Name(cls), map k | k in results :: results[k].value))
  }

  /** `this.key = source["key"]`, or `this.convertValues(source["key"], Nested)` for a class-typed field. */
  function FieldValue(cls: Class, src: Value, key: string, parse: string -> Outcome): (r: Outcome)
    requires Readable(src)
    ensures Nested(cls, key).None? ==> r == Returned(Get(src, key))
    decreases Rank(cls), 0
  {
    match Nested(cls, key)
    case None => Returned(Get(src, key))
    case Some(d) => ConvertValues(Get(src, key), d, false, parse)
  }

  /** Arrays are mapped element by element whatever `asMap` says; one throwing element makes the whole call throw. */
  lemma ArraysMapElementwise(a: Value, cls: Class, asMap: bool, parse: string -> Outcome)
    requires a.Arr?
    ensures ConvertValues(a, cls, asMap, parse).Threw? <==>
              exists i | 0 <= i < |a.elems| :: ConvertValues(a.elems[i], cls, false, parse).Threw?
    ensures ConvertValues(a, cls, asMap, parse).Returned? ==>
              forall i | 0 <= i < |a.elems| ::
                ConvertValues(a.elems[i], cls, false, parse) == Returned(ConvertValues(a, cls, asMap, parse).value.elems[i])
  {
  }

  /**
   * The shape `convertValues(a, cls)` promises: falsy values and primitives are
   * kept, arrays stay arrays of the same length at every depth, and every
   * object, however deep in arrays, becomes an instance of `cls`.
   */
  predicate Mirrors(a: Value, r: Value, cls: Class) {
    if !Truthy(a) then r == a
    else if a.Arr? then
      && r.Arr? && |r.elems| == |a.elems|
      && forall i | 0 <= i < |a.elems| :: Mirrors(a.elems[i], r.elems[i], cls)
    else if a.Obj? || a.Instance? then IsInstanceOf(r, cls)
    else r == a
  }

  lemma {:induction false} ConvertMirrors(a: Value, cls: Class, parse: string -> Outcome)
    requires ConvertValues(a, cls, false, parse).Returned?
    ensures Mirrors(a, ConvertValues(a, cls, false, parse).value, cls)
  {
    var r := ConvertValues(a, cls, false, parse).value;
    if Truthy(a) && a.Arr? {
      ArraysMapElementwise(a, cls, false, parse);
      forall i | 0 <= i < |a.elems|
        ensures Mirrors(a.elems[i], r.elems[i], cls)
      {
        ConvertMirrors(a.elems[i], cls, parse);
      }
    }
  }

  /** A leaf class constructor copies each declared key verbatim; a key the source lacks becomes `undefined`. */
  lemma LeafCopiesFields(cls: Class, src: Value, parse: string -> Outcome)
    requires IsLeaf(cls)
    requires Readable(src) && !src.Str?
    ensures New(cls, src, parse).Returned?
    ensures IsInstanceOf(New(cls, src, parse).value, cls)
    ensures forall k | k in FieldSet(cls) :: New(cls, src, parse).value.props[k] == Get(src, k)
  {
  }

  /** `DailyWeather` converts its `temp` through `DailyTemp` and its `weather` list through `WeatherInfo`. */
  lemma DailyWeatherConvertsNested(src: Value, parse: string -> Outcome)
    requires src.Obj? && PlainData(src)
    ensures New(DailyWeather, src, parse).Returned?
    ensures var inst := New(DailyWeather, src, parse).value;
            && ConvertValues(Get(src, "temp"), DailyTemp, false, parse) == Returned(inst.props["temp"])
            && ConvertValues(Get(src, "weather"), WeatherInfo, false, parse) == Returned(inst.props["weather"])
            && inst.props["dt"] == Get(src, "dt") && inst.props["pop"] == Get(src, "pop")
  {
    InitPlainNeverThrows(DailyWeather, src, parse);
  }

  /**
   * `WeatherData` rebuilds its forecast lists element-wise and keeps their
   * length; a list the source lacks stays `undefined` rather than empty.
   */
  lemma WeatherDataConvertsLists(src: Value, parse: string -> Outcome)
    requires src.Obj? && PlainData(src)
    ensures New(WeatherData, src, parse).Returned?
    ensures var inst := New(WeatherData, src, parse).value;
            && (Get(src, "daily").Arr? ==>
                  && inst.props["daily"].Arr?
                  && |inst.props["daily"].elems| == |Get(src, "daily").elems|
                  && forall i | 0 <= i < |Get(src, "daily").elems| ::
                       ConvertValues(Get(src, "daily").elems[i], DailyWeather, false, parse)
                         == Returned(inst.props["daily"].elems[i]))
            && (Get(src, "hourly").Arr? ==>
                  && inst.props["hourly"].Arr?
                  && |inst.props["hourly"].elems| == |Get(src, "hourly").elems|
                  && forall i | 0 <= i < |Get(src, "hourly").elems| ::
                       ConvertValues(Get(src, "hourly").elems[i], HourlyWeather, false, parse)
                         == Returned(inst.props["hourly"].elems[i]))
            && (Get(src, "daily") == Undefined ==> inst.props["daily"] == Undefined)
            && (Get(src, "hourly") == Undefined ==> inst.props["hourly"] == Undefined)
  {
    InitPlainNeverThrows(WeatherData, src, parse);
    assert "daily" in FieldSet(WeatherData) && "hourly" in FieldSet(WeatherData);
  }

  /** A parsed value with no class instances and no object that carries both a truthy "slice" and "map". */
  predicate PlainData(v: Value) {
    match v
    case Instance(_, _) => false
    case Arr(elems) => forall i | 0 <= i < |elems| :: PlainData(elems[i])
    case Obj(props) =>
      && !(Truthy(Get(v, "slice")) && Truthy(Get(v, "map")))
      && forall k | k in props :: PlainData(props[k])
    case _ => true
  }

  /** On plain data, `convertValues` with the default `asMap` never throws. */
  lemma {:induction false} ConvertPlainNeverThrows(a: Value, cls: Class, parse: string -> Outcome)
    requires PlainData(a)
    ensures ConvertValues(a, cls, false, parse).Returned?
    decreases Rank(cls), 3, a
  {
    if Truthy(a) {
      if a.Arr? {
        forall i | 0 <= i < |a.elems|
          ensures ConvertValues(a.elems[i], cls, false, parse).Returned?
        {
          ConvertPlainNeverThrows(a.elems[i], cls, parse);
        }
        ArraysMapElementwise(a, cls, false, parse);
      } else if a.Obj? {
        InitPlainNeverThrows(cls, a, parse);
      }
    }
  }

  /** A constructor given a plain object fills every field without throwing. */
  lemma {:induction false} InitPlainNeverThrows(cls: Class, src: Value, parse: string -> Outcome)
    requires src.Obj? && PlainData(src)
    ensures Init(cls, src, parse).Returned?
    decreases Rank(cls), 1
  {
    forall k | k in FieldSet(cls)
      ensures FieldValue(cls, src, k, parse).Returned?
    {
      match Nested(cls, k)
      case None =>
      case Some(d) =>
        var x := Get(src, k);
        assert PlainData(x);
        ConvertPlainNeverThrows(x, d, parse);
    }
  }

  /**
   * An array handed to the `DailyWeather` constructor yields no data fields,
   * except `pop`, which reads the array's inherited `Array.prototype.pop`.
   */
  lemma ArraySourceReadsInheritedPop(elems: seq<Value>, parse: string -> Outcome)
    ensures New(DailyWeather, Arr(elems), parse).Returned?
    ensures var inst := New(DailyWeather, Arr(elems), parse).value;
            && inst.props["pop"] == Builtin("pop")
            && inst.props["dt"] == Undefined && inst.props["temp"] == Undefined
            && inst.props["weather"] == Undefined
  {
    var src := Arr(elems);
    assert "pop" in ArrayMethods;
    assert "dt" !in ArrayMethods && "temp" !in ArrayMethods && "weather" !in ArrayMethods;
    assert Get(src, "pop") == Builtin("pop");
    assert Get(src, "dt") == Undefined && Get(src, "temp") == Undefined && Get(src, "weather") == Undefined;
    assert FieldValue(DailyWeather, src, "temp", parse) == Returned(Undefined);
    assert FieldValue(DailyWeather, src, "weather", parse) == Returned(Undefined);
    assert forall k | k in FieldSet(DailyWeather) :: FieldValue(DailyWeather, src, k, parse).Returned?;
  }
}
