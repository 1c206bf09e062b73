# TypescriptPalette: a Dafny model of the palette builder

TypescriptPalette builds a flat style palette from a table of colors. Each
color has four fields: `main`, `dark`, `light` and `extra`. A *tone* is a
callback that turns one color's data into a record of style properties
(string to string). A tone may carry a named *subtone group*: a group name
plus named subtone callbacks. `createPalette(inputModel, config)` walks the
colors and writes into one result object:

- under `color`: the color's raw data overlaid with the base tone's record;
- under `color_<group>`, for every tone: the tone's record;
- under `color_<subtone>_<group>`, for every subtone of that tone: the
  subtone's record.

The same file holds a test script. It defines the four-color table `input`,
the expected palette `output`, three tones (`baseColors`, `brightness`,
`depths`), single-record checks of the tones, and a palette check that uses
two key-by-key equality helpers.

The model has nine modules:

- `Wrappers`: `Option` and `Result`.
- `Tones`: records, modifiers (total functions from record to record),
  subtone groups, the `Tone` datatype and `CreateTone`.
- `Writes`: the result object as a map, and the assignments made to it as an
  ordered list of writes. `Overlay` replays those writes, so the last write
  to a key wins, as it does for a JavaScript object. Laws about replay live
  here.
- `PaletteBuilder`: `PaletteWrites`, the ordered list of assignments
  `createPalette` makes, and `Palette`, the object they leave behind. These
  are the specification. `CreatePalette` is the three nested loops as
  imperative code, split into `CreatePalette`, `FillTones` and
  `FillSubtones`, one method per loop. Each is proved equal to the
  specification.
- `PaletteLaws`: when the builder fails, which assignments it makes and
  which keys it produces, the size of the result, and the corrected builder.
- `KeyNames`: how a composite key splits back into color, subtone and group
  names when no name contains the separator `_`.
- `EntryLaws`: what each entry holds, with the last write to a key winning.
  Tones may share a group name, and subtones a subtone name. The tone and
  subtone laws assume only that color names are distinct and that no color,
  group or subtone name contains `_` (`WellNamed`); the base-entry law needs
  only the color part (`PlainColors`).
- `DeepEqual`: the two equality helpers of the test script as loop methods,
  proved to decide equality exactly.
- `Fixtures`: the test script's data and tones, its single-record checks, and
  the palette check against `output`.

`createPalette` applies every modifier to `input[color]`. `input` is the
module-level color table, not the `inputModel` parameter. The model makes
that table an explicit parameter, `lookup`. The builder can fail in two ways
at run time:

- `UndefinedInput(color)`: `input[color]` is undefined, and the base modifier
  reads a field of it.
- `MissingSubtone(toneKey)`: a tone has no subtone group, and the builder
  reads the group's `name`.

These become the `Error` cases of a `Result`. Reading the module-level table
rather than the argument is evidently unintended. The model follows the code
as written, and proves the corrected builder separately; see "## Findings".

## Model

| member | source | states |
|---|---|---|
| `Tones.CreateTone` | App2.ts:73-82 | The returned callback gives exactly the modifier's record on every input. It carries a subtone group if and only if one was supplied, and then carries exactly that group. |
| `PaletteBuilder.CreatePalette` | App2.ts:84-104 | The loop program returns exactly `Palette(lookup, inputModel, config)`. That is the object left by replaying, in order, each color's base entry, then its tone entries, then its subtone entries. It also fails with the same error at the same color. |
| `PaletteBuilder.FillTones` | App2.ts:90-100 | The tone loop for one color leaves the object produced by that color's tone and subtone assignments on top of the given result. It fails with `MissingSubtone(toneKey)` at the first tone that has no group. |
| `PaletteBuilder.FillSubtones` | App2.ts:95-98 | The subtone loop leaves the given result with one `color_<subtone>_<group>` entry per subtone assigned, in order. |
| `PaletteLaws.ToneWritesSucceeds` | App2.ts:90-93 | A color's tone loop succeeds if and only if every tone of the config carries a subtone group. |
| `PaletteLaws.PaletteWritesSucceeds` | App2.ts:87-93 | The builder makes all of its assignments without error if and only if there are no colors, or every color is in the lookup table and every tone carries a subtone group. |
| `PaletteLaws.PaletteSucceeds` | App2.ts:84-104 | The palette is built without error if and only if there are no colors, or every color is in the lookup table and every tone carries a subtone group. With no colors the result is the empty object, whatever the config. |
| `PaletteLaws.ToneWritesMembers` | App2.ts:90-98 | An assignment is made by a color's tone loop if and only if it is a tone entry or a subtone entry of one of the config's tones, computed from that color's data. |
| `PaletteLaws.PaletteWritesMembers` | App2.ts:87-101 | An assignment is made by the builder if and only if it is the base, tone or subtone entry of one of the input colors. |
| `PaletteLaws.PaletteKeys` | App2.ts:88-97 | A key is in the palette if and only if, for some input color, it is that color, `color_<group>` of one of its tones, or `color_<subtone>_<group>` of one of its subtones. |
| `PaletteLaws.PaletteSize` | App2.ts:87-101 | The palette has at most (number of colors × (1 + tones + subtones)) keys. It has exactly that many when no two assignments share a key. |
| `EntryLaws.BaseEntry` | App2.ts:87-88 | With distinct color names and no `_` in them, the entry under each color is its raw data overlaid with the base record of `lookup[color]`. This holds whatever the tones, and whatever their group and subtone names: every tone or subtone key contains `_`, so none can overwrite it. |
| `EntryLaws.LaterToneWins` | App2.ts:90-93 | Last write wins for tone entries, for every color and any tones, under `WellNamed`. When `tones[j]` is the last tone whose group is named `g`, the entry `color_<g>` holds `tones[j]`'s record of `lookup[color]`. Earlier tones with the same group name are overwritten. |
| `EntryLaws.SharedGroupName` | App2.ts:90-93 | Two tones share the group name `g`. The build succeeds, the base entry is unaffected, and `color_g` holds the second tone's record. |
| `EntryLaws.LaterSubtoneWins` | App2.ts:95-97 | Last write wins for subtone entries, under `WellNamed`. When subtone `s` of `tones[j]` is the last one written under `color_<sub>_<group>`, that entry holds the subtone's record of `lookup[color]`. |
| `EntryLaws.PaletteEntries` | App2.ts:87-101 | For every input color: the base entry, the entry of each tone that is the last of its group name, and the entry of each subtone that is the last written under its key. Each holds its own record of `lookup[color]`. |
| `Writes.OverlayFinalWrite` | App2.ts:93-97 | An assignment that no later assignment overwrites leaves its record under its key. |
| `Writes.OverlayLastWrite` | App2.ts:88-97 | After the assignments, a key holds the value of the last assignment to it. |
| `Writes.OverlayUntouched` | App2.ts:88-97 | A key that no assignment writes keeps its previous presence and value. |
| `EntryLaws.IntendedEntries` | App2.ts:84-104 | The corrected builder reads each color's own data from `inputModel`. Under `WellNamed`, the base entry and the entries of the last tone and subtone written under each key are computed from that color's own raw data. |
| `PaletteLaws.IntendedSucceeds` | App2.ts:84-104 | The corrected builder never meets an undefined color. It fails only when there is a color and some tone has no subtone group. |
| `DeepEqual.DeepEqualObj` | App2.ts:382-390 | The key-count test plus the per-key membership-and-value test returns true if and only if the two records are equal. |
| `DeepEqual.DeepEqualRecordsOfRecords` | App2.ts:368-380 | The key-count test plus the per-key membership and nested record test returns true if and only if the two palettes are equal. |
| `Fixtures.ToneChecks` | App2.ts:231-354 | On `myData`: `baseColors`, `brightness` and `depths` give the expected records. The group names are `brightness` and `depth`. Each named subtone gives its expected record. |
| `Fixtures.FixturePaletteMatchesOutput` | App2.ts:355-361 | Building the palette from `input` with `baseColors`, `brightness` and `depths` succeeds and yields exactly the 40-entry `output`, so the palette check holds. |
| `Fixtures.FixtureCallIsIntended` | App2.ts:355 | In the test call, `inputModel` is the table `input` itself, so the builder as written and the corrected builder agree there. |
| `Fixtures.TableShadowsArgument` | App2.ts:88 | Given `red` with data that differs from the table's, the builder as written takes the base entry's fields from the table's `red`. The corrected builder takes them from the argument. |

## Left out

- The `PaletteShape` and other type-level machinery (App2.ts:1-70) only type the result. The model's result is a map from string keys to records.
- The console output and the throwing wrappers of the test script (`expectEqualObj`, `nameCheck`, the log lines) are not modelled. Each check they perform is stated as a lemma in `Fixtures`.
- Colors, tones and subtones are ordered sequences of name/value pairs, in `for…in` order. JavaScript's reordering of integer-like keys and inherited prototype keys are not modelled. This includes the `key in b` tests of the two equality helpers (App2.ts:376, App2.ts:387): the model reads them as own-key membership, whereas JavaScript's `in` also finds inherited keys such as `toString`. So `DeepEqual.DeepEqualObj` and `DeepEqual.DeepEqualRecordsOfRecords` decide equality of the own keys, and a JavaScript run can differ when a key of one argument is an inherited property of the other.
- Modifiers are total functions. A fixture modifier reads an absent field as the empty string, where JavaScript would yield `undefined`.
- `UndefinedInput` assumes the base modifier dereferences its argument, as every modifier of the test script does. A base modifier that ignores its argument would not fail in JavaScript.
- Callbacks are values. Function identity, and the `subtone` property attached to a function object, become the `Tone` datatype.
- EntryLaws.PaletteEntries: the tone and subtone entry laws assume `WellNamed`: distinct color names, and no `_` in any color, group or subtone name. If a name contains `_`, keys of different forms can coincide; for example, color `a_b` and the tone key of color `a` with group `b` are both `a_b`. For such names the model states only the general last-write law, `Writes.OverlayLastWrite`, not which entry wins.
- The result object is built by value: each loop method returns the updated map. Key insertion order of the JavaScript object is not modelled, because the palette check ignores it.

## Findings

| source | as written | input that shows it | evidently intended | confidence | as-written member | corrected member |
|---|---|---|---|---|---|---|
| App2.ts:88 | The base, tone and subtone modifiers are applied to `input[color]`, the module-level table, not to `inputModel[color]` (also at App2.ts:93 and App2.ts:97). | `createPalette({ red: crimson data }, { base: baseColors, tones: {} })` gives `red.background == "red"` and not `"crimson"`. A color missing from `input` makes the base modifier read a field of `undefined`. | Apply the modifiers to the argument's own data, `inputModel[color]`. | not executed | `Fixtures.TableShadowsArgument` | `EntryLaws.IntendedEntries` |
