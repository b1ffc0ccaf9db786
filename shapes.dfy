/** The shape checks of the `sarcastic` library that the entrypoint getters use,
    stated by what they accept and what they return; errors are values here,
    where the library throws. */
module Shapes {
  import opened Json
  import opened Errors

  /** What a `browser` or `react-native` field holds: one path, or a mapping
      from module paths to replacement paths. */
  datatype Target = Path(path: string) | PathMap(paths: map<string, string>)

  /** `is.objectOf(is.string)` accepts an object exactly when every value is a string. */
  ghost predicate IsStringMap(fields: map<string, Value>)
  {
    forall k :: k in fields ==> fields[k].Str?
  }

  /** How a setter stores a target in the manifest. */
  function TargetValue(t: Target): Value
  {
    match t
    case Path(p) => Str(p)
    case PathMap(m) => Object(map k | k in m :: Str(m[k]))
  }

  /** `is.string`: only a present string is accepted. */
  function IsString(v: Option<Value>): (r: Result<string>)
    ensures r.Ok? <==> v.Some? && v.value.Str?
    ensures r.Ok? ==> v.value == Str(r.value)
    ensures r.Err? ==> r.error == ShapeError(AString)
  {
    if v.Some? && v.value.Str? then Ok(v.value.s) else Err(ShapeError(AString))
  }

  /** `is.maybe(is.string)`: absent and null read as no value, a string as itself,
      anything else is rejected. */
  function IsMaybeString(v: Option<Value>): (r: Result<Option<string>>)
    ensures r == Ok(None) <==> v == None || v == Some(Null)
    ensures (r.Ok? && r.value.Some?) <==> (v.Some? && v.value.Str?)
    ensures r.Ok? && r.value.Some? ==> v.value == Str(r.value.value)
    ensures r.Err? ==> r.error == ShapeError(MaybeString)
  {
    match v
    case None => Ok(None)
    case Some(Null) => Ok(None)
    case Some(Str(s)) => Ok(Some(s))
    case Some(_) => Err(ShapeError(MaybeString))
  }

  /** `is.maybe(is.either(is.string, is.objectOf(is.string)))`: absent and null read
      as no value; a string or an object of strings is accepted and read back as
      the target it stores; anything else is rejected. */
  function IsMaybeTarget(v: Option<Value>): (r: Result<Option<Target>>)
    ensures r == Ok(None) <==> v == None || v == Some(Null)
    ensures r.Err? <==> v.Some? && !v.value.Null? && !v.value.Str?
                        && !(v.value.Object? && IsStringMap(v.value.fields))
    ensures r.Ok? && r.value.Some? ==> TargetValue(r.value.value) == v.value
    ensures r.Err? ==> r.error == ShapeError(MaybeStringOrStringMap)
  {
    match v
    case None => Ok(None)
    case Some(Null) => Ok(None)
    case Some(Str(s)) => Ok(Some(Path(s)))
    case Some(Object(fields)) =>
      if forall k | k in fields :: fields[k].Str? then
        var paths := map k | k in fields :: fields[k].s;
        assert TargetValue(PathMap(paths)) == Object(fields);
        Ok(Some(PathMap(paths)))
      else
        Err(ShapeError(MaybeStringOrStringMap))
    case Some(_) => Err(ShapeError(MaybeStringOrStringMap))
  }

  /** `is.default(is.string, d)`: only an absent value takes the default; a present
      value, null included, must be a string. */
  function IsDefaultString(v: Option<Value>, default: string): (r: Result<string>)
    ensures v == None ==> r == Ok(default)
    ensures v.Some? ==> (r.Ok? <==> v.value.Str?)
    ensures v.Some? && r.Ok? ==> v.value == Str(r.value)
    ensures r.Err? ==> r.error == ShapeError(AString)
  {
    if v == None then Ok(default) else IsString(v)
  }

  /** A target written by a setter reads back as the same target. */
  lemma TargetRoundTrip(t: Target)
    ensures IsMaybeTarget(Some(TargetValue(t))) == Ok(Some(t))
  {
    if t.PathMap? {
      var fields := map k | k in t.paths :: Str(t.paths[k]);
      assert (map k | k in fields :: fields[k].s) == t.paths;
    }
  }
}
