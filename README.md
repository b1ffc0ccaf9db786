# preconstruct entrypoint descriptor, in Dafny

This project models the `Entrypoint` class of preconstruct (`src/entrypoint.js`).
An entrypoint is a typed view over the parsed `package.json` of one entrypoint
directory. Each getter reads one manifest key and checks its shape with the
`sarcastic` library. A value of the wrong shape is an error, never coerced.
Each setter writes through to the parsed manifest in place. `strict()` promotes
a loose entrypoint to a `StrictEntrypoint` whose `main` must be a string. The
promotion is memoised, and it is refused when the entrypoint validator rejects
the entrypoint.

Files:
- `errors.dfy` (module `Errors`): the failures (shape error, runtime type
  error, validation error) and the result and outcome types that carry them.
- `json.dfy` (module `Json`): JSON values, property lookup, JavaScript truthiness
  and "has no own keys".
- `shapes.dfy` (module `Shapes`): the four `sarcastic` checks the getters use. Each check is stated by what it accepts and returns.
- `entrypoint.dfy` (module `Entrypoints`): the manifest keys, the configuration
  section, the `umdName` write `WithUmdName` with lemmas about it, and the class
  `Entrypoint`.

How the model is built:
- `Entrypoint` is a class. Its field `json` is the parsed manifest, which the
  setter methods reassign.
- `strictCache` is the source's `_strict`.
- `contents` is the manifest as parsed from `_contents`, the text the descriptor
  was created from.
- `StrictEntrypoint` is the same class with `isStrict` set. JavaScript subclassing
  has no counterpart here.
- `Main()` dispatches on `isStrict`: a strict descriptor's `main` never reads as
  "no value".
- The validator is a parameter `validate: Doc -> bool`. `false` stands for
  `validateEntrypoint` throwing.

Behaviour of the code worth knowing:
- Writing `null` to `umdName`. Line 87 deletes `umdName` from the section, so
  with no section the write fails. Lines 88-90 delete a section that the
  deletion leaves empty. There is no `return` after them, so the setter falls
  through, re-creates the section at lines 92-94 and stores `umdName: null` at
  line 95. The section is always present afterwards (`ClearingKeepsSection`,
  `SetThenClearIsNoUndo`).
- Promotion. Line 100 calls `validateEntrypoint(this, false)`. Line 102 builds
  the strict descriptor from `_contents`, not from the loose descriptor's
  current `json`. So a `main` set before the first promotion passes validation,
  yet is missing from the strict descriptor (`PromoteAfterSetMain`).
- The validator runs on every `strict()` call, including calls that return the
  cached descriptor.

## Model

| member | source | states |
|---|---|---|
| Shapes.IsMaybeString | src/entrypoint.js:37-39 | `is.maybe(is.string)`: absent or null reads as no value, a string reads as itself, any other value is a shape error |
| Shapes.IsString | src/entrypoint.js:110-112 | `is.string`: only a present string is accepted and returned; absent, null and every other value are shape errors |
| Shapes.IsMaybeTarget | src/entrypoint.js:49-54 | `is.maybe(is.either(is.string, is.objectOf(is.string)))`: absent or null reads as no value. A string, or an object whose every value is a string, is accepted, and the target read back encodes to exactly the stored value. Every other value, including an object with a non-string value, is a shape error |
| Shapes.IsDefaultString | src/entrypoint.js:75-77 | `is.default(is.string, d)`: only an absent value gives `d`. A present value (null included) must be a string and is returned as is, otherwise it is a shape error |
| Shapes.TargetRoundTrip | src/entrypoint.js:55-57 | a path or a path mapping stored by the `browser`/`react-native` setters reads back as the same target |
| Entrypoints.Entrypoint.constructor | src/entrypoint.js:18-19 | a new loose descriptor has the given path, its `json` is the parsed contents, it carries the owning package and it has no cached strict descriptor |
| Entrypoints.Entrypoint.Strict | src/entrypoint.js:102-103 | a new strict descriptor over the given contents and package, with no cache |
| Entrypoints.Entrypoint.Main | src/entrypoint.js:110-112 | `main` reads as a path exactly when a string is stored. The loose read yields no value exactly when `main` is absent or null. The strict read never yields no value, so absent and null are errors there as well |
| Entrypoints.Entrypoint.Module | src/entrypoint.js:43-45 | `module` is no value when absent or null, the stored string when it is a string, and an error otherwise |
| Entrypoints.Entrypoint.Browser | src/entrypoint.js:49-54 | `browser` is no value when absent or null. It is an error exactly when the stored value is neither a string nor an object of strings. Otherwise it is the target that encodes to the stored value |
| Entrypoints.Entrypoint.ReactNative | src/entrypoint.js:58-63 | the same as `browser`, for the `react-native` key |
| Entrypoints.Entrypoint.UmdMain | src/entrypoint.js:68-70 | `umd:main` is no value when absent or null, the stored string when it is a string, and an error otherwise |
| Entrypoints.Entrypoint.ConfigSource | src/entrypoint.js:75-77 | `src/index.js` when the configuration has no `source`; the stored string when `source` is a string; an error for any other stored `source` |
| Entrypoints.Entrypoint.UmdName | src/entrypoint.js:82-84 | the configuration's `umdName`: no value when absent or null, the string when it is a string, and an error otherwise |
| Entrypoints.Entrypoint.SetMain | src/entrypoint.js:40-42 | stores the string under `main` and changes no other key; `main` then reads back as that string. The strict setter at lines 113-115 is the same |
| Entrypoints.Entrypoint.SetModule | src/entrypoint.js:46-48 | stores the string under `module` and changes no other key; it reads back as written |
| Entrypoints.Entrypoint.SetBrowser | src/entrypoint.js:55-57 | stores the target under `browser` and changes no other key; it reads back as written |
| Entrypoints.Entrypoint.SetReactNative | src/entrypoint.js:64-66 | stores the target under `react-native` and changes no other key; it reads back as written |
| Entrypoints.Entrypoint.SetUmdMain | src/entrypoint.js:71-73 | stores the string under `umd:main` and changes no other key; it reads back as written |
| Entrypoints.WithUmdName | src/entrypoint.js:85-96 | the net effect of the `umdName` setter. Writing null with no section, or a null section, fails. A string written with no section (or a null one) creates the section holding only `umdName`. An object section always succeeds. On success the section is an object, `umdName` reads back as written, and no other top-level key and no other configuration key changes. Every failure is a runtime type error |
| Entrypoints.Entrypoint.SetUmdName | src/entrypoint.js:85-96 | runs the setter's steps in order: delete, drop an empty section, re-create a falsy one, assign. It ends in the state `WithUmdName` gives, leaves `json` untouched when it fails, and `umdName` reads back as written |
| Entrypoints.ClearingKeepsSection | src/entrypoint.js:85-96 | writing null into an object section succeeds and leaves the section present with `umdName: null`, even when `umdName` was its only key |
| Entrypoints.UmdNameWriteIdempotent | src/entrypoint.js:92-95 | writing the same `umdName` twice gives the manifest that writing it once gives |
| Entrypoints.SetThenClearIsNoUndo | src/entrypoint.js:85-96 | on a manifest with no section, setting a name and then clearing it leaves a section `{umdName: null}` behind, so the original manifest is not restored |
| Entrypoints.Entrypoint.Promote | src/entrypoint.js:98-106 | a loose descriptor succeeds exactly when the validator accepts its manifest, and caches nothing when rejected. The first accepted call builds and caches a fresh strict descriptor with the same path, contents and package. Later accepted calls return that same object. A strict descriptor returns itself (lines 120-122) |
| Entrypoints.Entrypoint.Updater | src/entrypoint.js:116-119 | the manifest is replaced; a strict descriptor then fails with a validation error when the validator rejects the new manifest |
| Entrypoints.PromoteTwice | src/entrypoint.js:98-106 | promoting twice gives one strict descriptor, and promoting that descriptor gives itself |
| Entrypoints.PromoteAfterSetMain | src/entrypoint.js:102 | after `main` is set on a descriptor whose original contents lack it, promotion succeeds but the strict descriptor's `main` read fails |

## Left out

- `create` and `createSync` (reading `package.json` from disk) are I/O. The
  constructor takes the already parsed manifest instead.
- Parsing and serialising the manifest text belong to the `Item` base class,
  which is not part of this model. Key order is not represented, so the model
  does not show that the `umdName` setter moves `umdName`, or the whole section,
  to the end of the serialised object.
- `_config` is assumed to be the current `preconstruct` object, or empty when
  that key is absent or holds a non-object value. `Item`, which defines it, is
  not part of this model.
- `Item.updater` is assumed to replace `json`. The model keeps only the
  re-validation that `StrictEntrypoint.updater` adds.
- `name` joins and relativises paths with Node's `path` module, a foreign call,
  and is not modelled.
- `source` resolves a module through Node's module resolution against the file
  system, and is not modelled.
- `validateEntrypoint` is a parameter that accepts or rejects a manifest. Its
  rules, and the meaning of its second argument `false`, are not modelled.
- The implementation of `sarcastic`, including its error messages, is not
  modelled. Only the accepted shapes and returned values are. Arrays are treated
  as non-objects for `is.objectOf`.
- Entrypoints.WithUmdName: when the section is an array, except an empty one
  being cleared (which lines 88-94 replace with an object), JavaScript stores
  `umdName` as an array property that the manifest text cannot hold. The model
  reports a type error there instead, for example for `{"preconstruct": []}`
  with `umdName` set to a string.
- Entrypoints.Entrypoint.SetUmdName: the same array sections end in a type error
  and leave `json` unchanged, where JavaScript adds the array property.
- JavaScript's getters return `undefined` for an absent key and `null` for a
  stored null. The model reads both as the same "no value".
- JSON numbers are reals, not IEEE doubles. Only their truthiness is used.
