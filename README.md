# FOX feature tree: a verified Dafny model

This project models FOX (Features, Options and eXperiences), the feature tree
of the session client. `AlFoxSnapshot` turns arbitrary JSON-like data into a
normalised tree of feature nodes. Each node has an experience descriptor
(`available`, `active`, optional `prompt`), an options dictionary and named
child features. The snapshot then answers path lookups, and any missing
feature reads as the default node.

Files:

- `raw_data.dfy` (module `RawData`): the raw input as a `Json` datatype.
  It also defines JavaScript truthiness and own-property lookup on an object's entries.
- `fox.dfy` (module `Fox`): the descriptor and node datatypes and the
  normalisation invariant. It holds `interpretExperience` and
  `interpretOptions` as functions, and the node parser as specification
  functions (`ParseInto`, `ApplyEntries`, `ApplyEntry`). The in-place parser
  `InterpretFeatureNode` updates a `NodeCell` object entry by entry and is
  proved equal to them. The class `FoxSnapshot` holds the root and the path accessors.
- `fox_properties.dfy` (module `FoxProperties`): lemmas about the parser and
  the lookup. They cover the shorthand forms, defaulting of `active`, filtering of
  `prompt`, what parsing an object changes, which entry decides a key, path
  composition, and the rejected inputs from the source's tests.

Three behaviours of the source are easy to miss, and the model follows them:

- A prompt is dropped only when it is truthy and not available. So `""`,
  `null`, `false` and `0` are kept even when they are not available.
  `ExperienceInvariant` therefore asks only truthy prompts to be available
  (`FoxProperties.EmptyPromptKept` shows the empty-string case).
- `interpretOptions` keeps every non-null object, arrays included, as it is.
  It does not check that the values are strings, numbers or booleans.
- `interpretExperience` calls `xpData.hasOwnProperty(...)` on the object it
  is given. An experience object with its own `hasOwnProperty` entry hides
  that method, and JSON data can never make that entry a function, so the
  call throws a TypeError. The model reports this as the error
  `HasOwnPropertyNotFunction`.

## Model

| member | source | states |
|---|---|---|
| `RawData.Get` | src/types/al-fox.types.ts:59-60 | `hasOwnProperty(key) ? obj[key] : absent`: absent exactly when no entry has the key, and otherwise the value of the last entry with that key |
| `RawData.GetSkipsOtherKey` | src/types/al-fox.types.ts:59-68 | an entry under a different key, inserted anywhere among the entries, does not change a lookup |
| `Fox.EmptyFeatureNode` | src/types/al-fox.types.ts:34-42 | the default node has no children and no prompt, and satisfies the tree invariant `Normalised` |
| `Fox.ChooseActive` | src/types/al-fox.types.ts:60-67 | the chosen `active` is null exactly when `available` is empty and is otherwise available; a given active that is available is kept, and a missing or unavailable one becomes `available[0]`, or null when nothing is available |
| `Fox.FilterPrompt` | src/types/al-fox.types.ts:68-71 | a kept prompt is the given value, and a truthy kept prompt is an available string; a present prompt that is falsy or an available string is kept |
| `Fox.AvailableOf` | src/types/al-fox.types.ts:59 | `available` is `[]` when absent, and otherwise the given string array, element by element |
| `Fox.InterpretExperience` | src/types/al-fox.types.ts:47-76 | succeeds exactly on strings, booleans and non-array objects without an own `hasOwnProperty` entry; such an object fails with the TypeError and any other value with the 'xp' format error; every result satisfies `ExperienceInvariant` |
| `Fox.InterpretOptions` | src/types/al-fox.types.ts:81-86 | a non-null object (arrays included) is returned unchanged, and anything else becomes `{}`; the result is always an object |
| `Fox.ParseInto` | src/types/al-fox.types.ts:91-109 | succeeds exactly on `Parsable` data, an independent description of the accepted shapes; parsing into a normalised node gives a normalised node |
| `Fox.ApplyEntries` | src/types/al-fox.types.ts:99-108 | the first `n` entries apply without error exactly when each of them is parsable; normalisation is preserved |
| `Fox.ApplyEntry` | src/types/al-fox.types.ts:100-107 | one entry (`xp`, `options` or a child key) applies exactly when it is parsable; normalisation is preserved |
| `Fox.ErrorStands` | src/types/al-fox.types.ts:99-108 | once an entry fails, the later entries do not change the error |
| `Fox.NodeCell.Empty` | src/types/al-fox.types.ts:105 | a fresh node object holds `emptyFeatureNode()` |
| `Fox.InterpretFeatureNode` | src/types/al-fox.types.ts:91-109 | updating the node in place, entry by entry, fails exactly when `ParseInto` does and with the same error; on success the node becomes `ParseInto`'s result |
| `Fox.Walk` | src/types/al-fox.types.ts:122 | the child walk that replaces `getJsonPath`: the node itself for an empty path, absent as soon as the first segment is not a child, and every node it reaches in a normalised tree is normalised |
| `Fox.FoxSnapshot.constructor` | src/types/al-fox.types.ts:26 | the root starts as a fresh `emptyFeatureNode()` |
| `Fox.FoxSnapshot.Root` | src/types/al-fox.types.ts:114-116 | `getRoot`, as a value: the snapshot is valid exactly when this tree is normalised |
| `Fox.FoxSnapshot.Create` | src/types/al-fox.types.ts:28-32 | falsy data leaves the default root; other data succeeds exactly when it is `Parsable`, and the root is then the parsed tree; errors are the parser's; a created snapshot's tree is normalised |
| `Fox.FoxSnapshot.GetFeature` | src/types/al-fox.types.ts:121-123 | total: a missing path gives the default node, and a present one gives the node found; in a valid snapshot the result is normalised |
| `Fox.FoxSnapshot.GetFeatureExperience` | src/types/al-fox.types.ts:128-130 | the experience of `GetFeature(path)`, which satisfies `ExperienceInvariant` in a valid snapshot |
| `Fox.FoxSnapshot.GetFeatureOptions` | src/types/al-fox.types.ts:135-137 | the options of `GetFeature(path)`, which are an object in a valid snapshot |
| `FoxProperties.StringShorthand` | src/types/al-fox.types.ts:48-52 | a string `s` gives `{available: [s], active: s}` with no prompt |
| `FoxProperties.BooleanShorthand` | src/types/al-fox.types.ts:53-57 | `true` and `false` both give the default experience |
| `FoxProperties.ExperienceRejects` | src/types/al-fox.types.ts:73-75 | arrays, `null` and numbers raise the 'xp' format error |
| `FoxProperties.ActiveDefaulting` | src/types/al-fox.types.ts:59-67 | for an object the parser accepts (no own `hasOwnProperty`): `available` is kept as given; an available string `active` is kept; a missing, null, non-string or unavailable one becomes `available[0]`, or null when nothing is available |
| `FoxProperties.PromptFiltering` | src/types/al-fox.types.ts:68-72 | for an object the parser accepts (no own `hasOwnProperty`): a prompt is kept exactly when it is present and either falsy or an available string, and a kept prompt is unchanged |
| `FoxProperties.EmptyPromptKept` | src/types/al-fox.types.ts:69 | an empty-string prompt that is not available is still kept |
| `FoxProperties.ExtraKeysIgnored` | src/types/al-fox.types.ts:72 | a key other than `available`, `active`, `prompt` and `hasOwnProperty`, inserted anywhere in an experience object, does not change the descriptor |
| `FoxProperties.ShadowedHasOwnPropertyThrows` | src/types/al-fox.types.ts:59 | an own `hasOwnProperty` entry anywhere in an experience object, whatever its value, makes interpretation fail with the TypeError |
| `FoxProperties.ShorthandKeepsRest` | src/types/al-fox.types.ts:92-95 | string or boolean feature data replaces only the experience; options and children are kept |
| `FoxProperties.FeatureRejects` | src/types/al-fox.types.ts:96-98 | arrays, `null` and numbers as feature data raise the "not an object" error |
| `FoxProperties.ApplyEntriesFrame` | src/types/al-fox.types.ts:99-108 | after applying entries, the child keys are the old ones plus the entries' child keys, and an old child that no entry names keeps its value; `xp` and `options` change only when such an entry was applied |
| `FoxProperties.ParseObjectFrame` | src/types/al-fox.types.ts:99-108 | the same frame property for a whole object: new child keys, untouched old children kept as they were, `xp` and `options` changed only by such entries |
| `FoxProperties.LastEntryDecides` | src/types/al-fox.types.ts:100-107 | the last entry under a key decides it: `xp` gives the interpreted experience, `options` the interpreted options, and another key a child parsed from the empty node |
| `FoxProperties.ParsedChildFound` | src/types/al-fox.types.ts:104-107 | after parsing an object, looking up a child key finds that key's value parsed from the empty node |
| `FoxProperties.RejectsArrayFeature` | test/al-fox.types.spec.ts:77-79 | `{child: ["not an object"]}` is rejected as not an object |
| `FoxProperties.RejectsArrayExperience` | test/al-fox.types.spec.ts:81-83 | `{child: {xp: [...]}}` is rejected as an invalid experience |
| `FoxProperties.RejectsShadowedHasOwnProperty` | src/types/al-fox.types.ts:59 | `{child: {xp: {hasOwnProperty: 1}}}` is rejected with the TypeError |
| `FoxProperties.ShorthandFormsExample` | test/al-fox.types.spec.ts:58-74 | `true`, `"override"` and `{options, xp: "my-experience"}` parse to the expected nodes |
| `FoxProperties.WalkAppend` | src/types/al-fox.types.ts:121-123 | looking up `p + q` is looking up `p` and then `q` from the node found |
| `FoxProperties.MissingBelowMissing` | src/types/al-fox.types.ts:121-137 | below a missing feature every path gives the default node, the default experience and `{}` options |

## Left out

- Session management (`AlSession`, its guards, the account-resolution pipeline and persisted-session validation) is not part of this model. Its source is not among the files modelled, and it is built on promises and foreign clients.
- `AlExperienceTree` (src/types/al-experience.types.ts) only wraps `Object.assign` and `getJsonPath`, and has no rules of its own.
- `getJsonPath` from `@al/common` is not part of this model. Lookup walks child features only: paths come pre-split as `seq<string>` and are never split on dots. A path segment `xp` or `options` is treated as a missing child, whereas the source would return the raw descriptor. An empty path gives the root.
- `getRoot` returns a reference in the source; `FoxSnapshot.Root` gives the tree as a value. Changes made by callers through that reference are not modelled.
- Fox.InterpretFeatureNode: on an error the source has already applied the earlier entries, and may have inserted a partially filled child. The model leaves the node unspecified on error, because the only caller, the snapshot constructor, discards it. A child is parsed and then inserted, instead of being inserted empty and filled through the reference; nothing else refers to a child, so no aliasing is lost.
- Fox.InterpretExperience: an `available` entry that is present must be an array of strings (`ExperienceDataTyped`, required through `FeatureDataTyped` by the parser). The source only casts it, and other values would behave in JavaScript-specific ways: a string would be searched as a substring, and `null` would raise a TypeError.
- A `prompt` is kept as the raw value (`Option<Json>`), because the source only casts it. `active` needs no typing: a non-string can never be found in `available`.
- Object entries are taken in the order given. JavaScript's `Object.entries` puts integer-like keys first. This order matters only for which error is reported when several entries are malformed. Duplicate keys, which a JavaScript object cannot have, are not merged by the parser: every duplicate is applied in order, so an earlier invalid one raises the error even when a later one is valid, and the last valid one decides the value. `JSON.parse` would instead keep only the last value, at the first key's position. `RawData.Get` alone returns the last value.
- Numbers are modelled as `real`, so `NaN` (falsy) and `-0` are not represented. `undefined` is not a JSON value, and is represented only as an absent entry.
- Fox.FoxSnapshot.Create models the throwing constructor as a static method that returns an error instead of an object.
