/** The entrypoint descriptor of preconstruct: a typed, shape-checked view over
    the parsed `package.json` of one entrypoint directory, with a memoised,
    one-way promotion to a strict descriptor whose `main` must be a string. */
module Entrypoints {
  import opened Json
  import opened Errors
  import opened Shapes

  const MAIN_KEY: string := "main"
  const MODULE_KEY: string := "module"
  const BROWSER_KEY: string := "browser"
  const REACT_NATIVE_KEY: string := "react-native"
  const UMD_MAIN_KEY: string := "umd:main"
  /** The tool-private configuration section of the manifest. */
  const CONFIG_KEY: string := "preconstruct"
  const SOURCE_KEY: string := "source"
  const UMD_NAME_KEY: string := "umdName"
  const DEFAULT_SOURCE: string := "src/index.js"

  /** The owning package, kept only to be handed on to the strict descriptor. */
  datatype Owner = Owner(name: string, directory: string)

  /** The configuration a descriptor reads `source` and `umdName` from: the
      `preconstruct` object, or nothing when that key is absent or holds a value
      that is not an object (property access on it yields undefined). */
  function Config(doc: Doc): Doc
  {
    if CONFIG_KEY in doc && doc[CONFIG_KEY].Object? then doc[CONFIG_KEY].fields else map[]
  }

  /** `_config.umdName` read through `is.maybe(is.string)`. */
  function UmdNameOf(doc: Doc): Result<Option<string>>
  {
    IsMaybeString(Get(Config(doc), UMD_NAME_KEY))
  }

  /** The value the `umdName` setter stores in the section. */
  function UmdNameEntry(name: Option<string>): Value
  {
    if name.Some? then Str(name.value) else Null
  }

  /** The manifest after the `umdName` setter, as the net effect of its steps.
      Writing null first dereferences the section, so an absent or null section
      fails; it deletes `umdName` and drops a section left without keys, but then
      falls through: a falsy or missing section is (re)created as an empty object
      and `umdName` is assigned in it, which fails on any other non-object. */
  function WithUmdName(doc: Doc, name: Option<string>): (r: Result<Doc>)
    ensures r.Err? ==> r.error == TypeError
    ensures name.None? && Get(doc, CONFIG_KEY) in {None, Some(Null)} ==> r.Err?
    ensures name.Some? && Get(doc, CONFIG_KEY) in {None, Some(Null)} ==>
              r == Ok(doc[CONFIG_KEY := Object(map[UMD_NAME_KEY := Str(name.value)])])
    ensures CONFIG_KEY in doc && doc[CONFIG_KEY].Object? ==> r.Ok?
    ensures r.Ok? ==> UmdNameOf(r.value) == Ok(name)
    ensures r.Ok? ==> CONFIG_KEY in r.value && r.value[CONFIG_KEY].Object?
    ensures r.Ok? ==> r.value - {CONFIG_KEY} == doc - {CONFIG_KEY}
    ensures r.Ok? ==> Config(r.value) - {UMD_NAME_KEY} == Config(doc) - {UMD_NAME_KEY}
  {
    var section := Get(doc, CONFIG_KEY);
    var entry := UmdNameEntry(name);
    if name.None? && (section == None || section == Some(Null)) then
      Err(TypeError)
    else if section.Some? && section.value.Object? then
      Ok(doc[CONFIG_KEY := Object(section.value.fields[UMD_NAME_KEY := entry])])
    else if section == None || !Truthy(section.value) || (name.None? && HasNoKeys(section.value)) then
      Ok(doc[CONFIG_KEY := Object(map[UMD_NAME_KEY := entry])])
    else
      Err(TypeError)
  }

  /** Writing null does not remove the configuration section: it stays, holding
      `umdName: null`, even when `umdName` was its only key. */
  lemma ClearingKeepsSection(doc: Doc)
    requires CONFIG_KEY in doc && doc[CONFIG_KEY].Object?
    ensures WithUmdName(doc, None) == Ok(doc[CONFIG_KEY := Object(doc[CONFIG_KEY].fields[UMD_NAME_KEY := Null])])
  {
  }

  /** Writing the same name twice leaves the manifest as writing it once. */
  lemma UmdNameWriteIdempotent(doc: Doc, name: Option<string>)
    requires WithUmdName(doc, name).Ok?
    ensures WithUmdName(WithUmdName(doc, name).value, name) == WithUmdName(doc, name)
  {
    var once := WithUmdName(doc, name).value;
    var section := once[CONFIG_KEY].fields;
    assert section[UMD_NAME_KEY := UmdNameEntry(name)] == section;
    assert once[CONFIG_KEY := Object(section)] == once;
  }

  /** Setting a name and clearing it again does not restore a manifest that had
      no configuration section. */
  lemma SetThenClearIsNoUndo(doc: Doc, name: string)
    requires CONFIG_KEY !in doc
    ensures WithUmdName(doc, Some(name)).Ok?
    ensures WithUmdName(WithUmdName(doc, Some(name)).value, None)
            == Ok(doc[CONFIG_KEY := Object(map[UMD_NAME_KEY := Null])])
    ensures WithUmdName(WithUmdName(doc, Some(name)).value, None).value != doc
  {
    var written := doc[CONFIG_KEY := Object(map[UMD_NAME_KEY := Str(name)])];
    assert map[UMD_NAME_KEY := Str(name)][UMD_NAME_KEY := Null] == map[UMD_NAME_KEY := Null];
    assert written[CONFIG_KEY := Object(map[UMD_NAME_KEY := Null])] == doc[CONFIG_KEY := Object(map[UMD_NAME_KEY := Null])];
    assert CONFIG_KEY in written;
  }

  /** One entrypoint descriptor. A strict descriptor (`isStrict`) is the source's
      `StrictEntrypoint`: its `main` must be a string and it promotes to itself. */
  class Entrypoint {
    /** Path of the backing `package.json`. */
    const path: string
    /** The manifest as parsed from the text the descriptor was created from. */
    const contents: Doc
    const isStrict: bool
    /** The manifest as the setters have left it. */
    var json: Doc
    const package: Owner
    /** The strict descriptor built by the first successful promotion. */
    var strictCache: Entrypoint?

    /** Only a loose descriptor caches, and what it caches is strict. */
    ghost predicate Valid()
      reads this, strictCache
    {
      && (isStrict ==> strictCache == null)
      && (strictCache != null ==> strictCache.isStrict && strictCache.strictCache == null)
    }

    /** A loose descriptor over a parsed manifest, owned by `package`. */
    constructor (path: string, contents: Doc, package: Owner)
      ensures Valid() && !isStrict
      ensures this.path == path && this.contents == contents && json == contents
      ensures this.package == package && strictCache == null
    {
      this.path := path;
      this.contents := contents;
      this.isStrict := false;
      this.json := contents;
      this.package := package;
      this.strictCache := null;
    }

    /** A strict descriptor over a parsed manifest, owned by `package`. */
    constructor Strict(path: string, contents: Doc, package: Owner)
      ensures Valid() && isStrict
      ensures this.path == path && this.contents == contents && json == contents
      ensures this.package == package && strictCache == null
    {
      this.path := path;
      this.contents := contents;
      this.isStrict := true;
      this.json := contents;
      this.package := package;
      this.strictCache := null;
    }

    /** `main`: optional for a loose descriptor, required for a strict one. */
    function Main(): (r: Result<Option<string>>)
      reads this
      ensures (r.Ok? && r.value.Some?) <==> MAIN_KEY in json && json[MAIN_KEY].Str?
      ensures r.Ok? && r.value.Some? ==> json[MAIN_KEY] == Str(r.value.value)
      ensures r == Ok(None) <==> !isStrict && (MAIN_KEY !in json || json[MAIN_KEY] == Null)
    {
      if isStrict then
        var s := IsString(Get(json, MAIN_KEY));
        if s.Ok? then Ok(Some(s.value)) else Err(s.error)
      else
        IsMaybeString(Get(json, MAIN_KEY))
    }

    function Module(): (r: Result<Option<string>>)
      reads this
      ensures r == Ok(None) <==> MODULE_KEY !in json || json[MODULE_KEY] == Null
      ensures (r.Ok? && r.value.Some?) <==> MODULE_KEY in json && json[MODULE_KEY].Str?
      ensures r.Ok? && r.value.Some? ==> json[MODULE_KEY] == Str(r.value.value)
    {
      IsMaybeString(Get(json, MODULE_KEY))
    }

    function Browser(): (r: Result<Option<Target>>)
      reads this
      ensures r == Ok(None) <==> BROWSER_KEY !in json || json[BROWSER_KEY] == Null
      ensures r.Err? <==> BROWSER_KEY in json && !json[BROWSER_KEY].Null? && !json[BROWSER_KEY].Str?
                          && !(json[BROWSER_KEY].Object? && IsStringMap(json[BROWSER_KEY].fields))
      ensures r.Ok? && r.value.Some? ==> TargetValue(r.value.value) == json[BROWSER_KEY]
    {
      IsMaybeTarget(Get(json, BROWSER_KEY))
    }

    function ReactNative(): (r: Result<Option<Target>>)
      reads this
      ensures r == Ok(None) <==> REACT_NATIVE_KEY !in json || json[REACT_NATIVE_KEY] == Null
      ensures r.Err? <==> REACT_NATIVE_KEY in json && !json[REACT_NATIVE_KEY].Null? && !json[REACT_NATIVE_KEY].Str?
                          && !(json[REACT_NATIVE_KEY].Object? && IsStringMap(json[REACT_NATIVE_KEY].fields))
      ensures r.Ok? && r.value.Some? ==> TargetValue(r.value.value) == json[REACT_NATIVE_KEY]
    {
      IsMaybeTarget(Get(json, REACT_NATIVE_KEY))
    }

    function UmdMain(): (r: Result<Option<string>>)
      reads this
      ensures r == Ok(None) <==> UMD_MAIN_KEY !in json || json[UMD_MAIN_KEY] == Null
      ensures (r.Ok? && r.value.Some?) <==> UMD_MAIN_KEY in json && json[UMD_MAIN_KEY].Str?
      ensures r.Ok? && r.value.Some? ==> json[UMD_MAIN_KEY] == Str(r.value.value)
    {
      IsMaybeString(Get(json, UMD_MAIN_KEY))
    }

    /** The source file named in the configuration, `src/index.js` when unset. */
    function ConfigSource(): (r: Result<string>)
      reads this
      ensures SOURCE_KEY !in Config(json) ==> r == Ok(DEFAULT_SOURCE)
      ensures SOURCE_KEY in Config(json) ==> (r.Ok? <==> Config(json)[SOURCE_KEY].Str?)
      ensures SOURCE_KEY in Config(json) && r.Ok? ==> Config(json)[SOURCE_KEY] == Str(r.value)
    {
      IsDefaultString(Get(Config(json), SOURCE_KEY), DEFAULT_SOURCE)
    }

    function UmdName(): (r: Result<Option<string>>)
      reads this
      ensures r == Ok(None) <==> UMD_NAME_KEY !in Config(json) || Config(json)[UMD_NAME_KEY] == Null
      ensures (r.Ok? && r.value.Some?) <==> UMD_NAME_KEY in Config(json) && Config(json)[UMD_NAME_KEY].Str?
      ensures r.Ok? && r.value.Some? ==> Config(json)[UMD_NAME_KEY] == Str(r.value.value)
    {
      UmdNameOf(json)
    }

    method SetMain(file: string)
      modifies this`json
      ensures json == old(json)[MAIN_KEY := Str(file)]
      ensures Main() == Ok(Some(file))
    {
      json := json[MAIN_KEY := Str(file)];
    }

    method SetModule(file: string)
      modifies this`json
      ensures json == old(json)[MODULE_KEY := Str(file)]
      ensures Module() == Ok(Some(file))
    {
      json := json[MODULE_KEY := Str(file)];
    }

    method SetBrowser(option: Target)
      modifies this`json
      ensures json == old(json)[BROWSER_KEY := TargetValue(option)]
      ensures Browser() == Ok(Some(option))
    {
      json := json[BROWSER_KEY := TargetValue(option)];
      TargetRoundTrip(option);
    }

    method SetReactNative(option: Target)
      modifies this`json
      ensures json == old(json)[REACT_NATIVE_KEY := TargetValue(option)]
      ensures ReactNative() == Ok(Some(option))
    {
      json := json[REACT_NATIVE_KEY := TargetValue(option)];
      TargetRoundTrip(option);
    }

    method SetUmdMain(file: string)
      modifies this`json
      ensures json == old(json)[UMD_MAIN_KEY := Str(file)]
      ensures UmdMain() == Ok(Some(file))
    {
      json := json[UMD_MAIN_KEY := Str(file)];
    }

    /** The `umdName` setter, step by step; on failure nothing has changed. */
    method SetUmdName(name: Option<string>) returns (o: Outcome)
      modifies this`json
      ensures WithUmdName(old(json), name).Ok? ==> o == Pass && json == WithUmdName(old(json), name).value
      ensures WithUmdName(old(json), name).Err? ==> o == Fail(TypeError) && json == old(json)
      ensures o.Pass? ==> UmdName() == Ok(name)
    {
      if name.None? {
        // deleting `umdName` dereferences the section
        if CONFIG_KEY !in json || json[CONFIG_KEY].Null? {
          return Fail(TypeError);
        }
        if json[CONFIG_KEY].Object? {
          var fields := json[CONFIG_KEY].fields;
          assert (fields - {UMD_NAME_KEY})[UMD_NAME_KEY := Null] == fields[UMD_NAME_KEY := Null];
          json := json[CONFIG_KEY := Object(fields - {UMD_NAME_KEY})];
        }
        if HasNoKeys(json[CONFIG_KEY]) {
          json := json - {CONFIG_KEY};
        }
      }
      if CONFIG_KEY !in json || !Truthy(json[CONFIG_KEY]) {
        json := json[CONFIG_KEY := Object(map[])];
      }
      var section := json[CONFIG_KEY];
      if !section.Object? {
        // assigning a property on a primitive throws
        return Fail(TypeError);
      }
      json := json[CONFIG_KEY := Object(section.fields[UMD_NAME_KEY := UmdNameEntry(name)])];
      o := Pass;
    }

    /** Promotion to the strict descriptor. A loose descriptor asks the validator on
        every call; the first call it accepts builds the strict descriptor from the
        manifest the descriptor was created from, and every later accepted call
        returns that same object. A strict descriptor returns itself. */
    method Promote(validate: Doc -> bool) returns (r: Result<Entrypoint>)
      requires Valid()
      modifies this`strictCache
      ensures Valid()
      ensures isStrict ==> r == Ok(this) && strictCache == old(strictCache)
      ensures !isStrict ==> (r.Ok? <==> validate(json))
      ensures !isStrict && !validate(json) ==> r == Err(ValidationError) && strictCache == old(strictCache)
      ensures !isStrict && validate(json) && old(strictCache) != null ==>
                r == Ok(old(strictCache)) && strictCache == old(strictCache)
      ensures !isStrict && validate(json) && old(strictCache) == null ==>
                && r.Ok? && fresh(r.value) && strictCache == r.value
                && r.value.isStrict && r.value.path == path && r.value.contents == contents
                && r.value.json == contents && r.value.package == package && r.value.strictCache == null
    {
      if isStrict {
        return Ok(this);
      }
      if !validate(json) {
        return Err(ValidationError);
      }
      if strictCache == null {
        strictCache := new Entrypoint.Strict(path, contents, package);
      }
      r := Ok(strictCache);
    }

    /** Replacing the whole manifest; a strict descriptor then re-validates it. */
    method Updater(doc: Doc, validate: Doc -> bool) returns (o: Outcome)
      modifies this`json
      ensures json == doc
      ensures o.Fail? <==> isStrict && !validate(doc)
      ensures o.Fail? ==> o.error == ValidationError
    {
      json := doc;
      o := if isStrict && !validate(doc) then Fail(ValidationError) else Pass;
    }
  }

  /** Promoting twice, and promoting the result, all give the one strict descriptor. */
  method PromoteTwice(e: Entrypoint, validate: Doc -> bool)
    returns (first: Result<Entrypoint>, second: Result<Entrypoint>, again: Result<Entrypoint>)
    requires e.Valid() && !e.isStrict && validate(e.json)
    modifies e, e.strictCache
    ensures first.Ok? && second == first && again == first
    ensures first.value.isStrict && first.value == e.strictCache
  {
    first := e.Promote(validate);
    second := e.Promote(validate);
    again := first.value.Promote(validate);
  }

  /** The strict descriptor is built from the manifest the loose one was created
      from, not from its edits: a `main` written before the first promotion is
      validated, yet the strict descriptor's `main` read still fails. */
  method PromoteAfterSetMain(e: Entrypoint, file: string, validate: Doc -> bool)
    returns (r: Result<Entrypoint>)
    requires e.Valid() && !e.isStrict && e.strictCache == null
    requires MAIN_KEY !in e.contents
    requires validate(e.json[MAIN_KEY := Str(file)])
    modifies e
    ensures e.Main() == Ok(Some(file))
    ensures r.Ok? && r.value.Main() == Err(ShapeError(AString))
  {
    e.SetMain(file);
    r := e.Promote(validate);
  }
}
