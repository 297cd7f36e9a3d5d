# Pokémon viewer: sprite selector and index navigator

This project models the two interactive state machines of a browser-based
Pokémon viewer and proves properties about them.

- **Sprite selector** (module `Sprite`, file `sprite.dfy`). The left panel
  keeps three toggles: front/back, female and shiny. From them it derives an
  asset key such as `front_shiny_female` and shows the image the parent's
  `sprites` table holds under that key. A toggle is refused, and the error
  flag raised, when the table has no truthy image for the new key. Ctrl+S,
  Ctrl+G and Ctrl+B go through the same guarded toggle. The pure parts are
  `BuildImage`, `Flip`, `Accepts`, `Commit` and `KeyToggle`. The component
  itself is the class `Selector`, with fields `sprite`, `src`, `error` and the
  `sprites` prop.
- **Index navigator** (module `Controls`, file `controls.dfy`). The right
  panel keeps a locally edited `index` and commits entry numbers to the parent
  through `changePokemonIndex`. A commit happens only after `checkError`
  accepts the number, i.e. it lies in 1..807. Commits come from the step
  buttons, the arrow keys and Enter in the text field. Each handler is a pure
  function on a snapshot `Nav` of the component. The class `Navigator` has the
  real fields and a ghost log `commits` of every value passed to
  `changePokemonIndex`. Each of its methods is proved to follow the matching
  function. `Step` and `Run` replay any sequence of events, and
  `RunCommitsInRange` proves that no sequence commits a value outside 1..807.
- `wrappers.dfy` holds the `Option` type. It stands for JavaScript's
  `null`/`undefined`.

Modelling decisions:

- The `sprites` table is a `map<string, Option<string>>`. A key missing from
  the map reads as `undefined`. `Lookup` returns `None` for a missing key and
  for a `null` entry. Truthy means `Some(s)` with `s != ""`.
- `src` starts as `Some("")`, the empty string the state hook is initialised
  with.
- React runs the `src` effect only when `sprite` or `sprites` changed.
  `ToggleAndRender` models one toggle followed by the render it causes, so it
  re-syncs `src` only when the toggle went through. `SetSprites` models a new
  `sprites` prop followed by the effect.
- The navigator's `index` is seeded from the `pokemonIndex` prop only on
  mount. `SetPokemonIndex` therefore changes the prop and leaves `index` as
  it was.
- For a front, non-shiny, non-female sprite `buildImage` builds
  `"front_default"` (src/components/LeftPanel/Sprite/index.tsx:31-40);
  `BuildImageFront` states it.
- `PressedCode` reads `e.keyCode || e.which`: the key code is `keyCode`, or
  `which` when `keyCode` is 0
  (src/components/RightPanel/Controls/index.tsx:50).

## Model

| member | source | states |
|---|---|---|
| `Sprite.BuildImageFront` | src/components/LeftPanel/Sprite/index.tsx:31-40 | the keys of the four front-facing combinations; the non-shiny female key loses the `_default` part (`front_female`), and the default key is `front_default` |
| `Sprite.BuildImageBack` | src/components/LeftPanel/Sprite/index.tsx:31-40 | the keys of the four back-facing combinations; the non-shiny female key is `back_female`, not `back_default_female` |
| `Sprite.ParseImage` | src/components/LeftPanel/Sprite/index.tsx:31-40 | inverse table of the eight keys; whatever it returns is a combination whose key is the parsed string |
| `Sprite.ParseBuildImage` | src/components/LeftPanel/Sprite/index.tsx:31-40 | reading a built key back gives the combination it was built from |
| `Sprite.BuildImageInjective` | src/components/LeftPanel/Sprite/index.tsx:31-40 | different toggle combinations never share a key |
| `Sprite.BuildImageDirection` | src/components/LeftPanel/Sprite/index.tsx:31-40 | a key starts with `front` exactly when `front` is set, and with `back` exactly when it is not |
| `Sprite.Flip` | src/components/LeftPanel/Sprite/index.tsx:45 | the candidate state: a field changes exactly when it is the chosen toggle |
| `Sprite.FlipTwice` | src/components/LeftPanel/Sprite/index.tsx:56 | flipping the same toggle twice restores the state |
| `Sprite.Commit` | src/components/LeftPanel/Sprite/index.tsx:45-56 | an accepted toggle gives the flipped state and a refused one leaves the state alone; with no table every toggle is accepted |
| `Sprite.CommitTwice` | src/components/LeftPanel/Sprite/index.tsx:45-56 | two accepted toggles of the same attribute restore the original state |
| `Sprite.CommitKeepsImage` | src/components/LeftPanel/Sprite/index.tsx:45-56 | a toggle never leaves a combination that has an image for one that has none |
| `Sprite.KeyToggle` | src/components/LeftPanel/Sprite/index.tsx:69-85 | Ctrl+83 picks shiny, Ctrl+71 female and Ctrl+66 front, each exactly when that key is pressed with Ctrl; nothing without Ctrl |
| `Sprite.Selector.constructor` | src/components/LeftPanel/Sprite/index.tsx:16-29 | starts at front, not female, not shiny, with no error; after the mount effect `src` is the `front_default` entry when there is a table, and `""` when there is none |
| `Sprite.Selector.SyncSource` | src/components/LeftPanel/Sprite/index.tsx:24-29 | with a table, `src` becomes `sprites[BuildImage(sprite)]`; without one `src` is untouched |
| `Sprite.Selector.HandleChange` | src/components/LeftPanel/Sprite/index.tsx:42-59 | the new `sprite` is `Commit` of the old one; the error flag is raised exactly when the toggle is refused; `src` and the table do not change |
| `Sprite.Selector.ClearError` | src/components/LeftPanel/Sprite/index.tsx:51-53 | the timer's reset clears the error flag and nothing else |
| `Sprite.Selector.OnKeyDown` | src/components/LeftPanel/Sprite/index.tsx:69-85 | a Ctrl shortcut acts as `HandleChange` of the toggle `KeyToggle` picks; any other key changes nothing |
| `Sprite.Selector.ToggleAndRender` | src/components/LeftPanel/Sprite/index.tsx:24-59 | after an accepted toggle with a table, `src` is the new key's truthy entry; after a refused one, and whenever there is no table, `src` is unchanged; a synced `src` stays synced |
| `Sprite.Selector.SetSprites` | src/components/LeftPanel/Sprite/index.tsx:24-29 | a new table prop re-runs the effect; the toggles are kept |
| `Controls.RangeEdges` | src/components/RightPanel/Controls/index.tsx:13-29 | 0 and 808 are out of range; 1 and 807 are in range |
| `Controls.Initial` | src/components/RightPanel/Controls/index.tsx:16-17 | on mount `index` equals the prop, with no error and no commits |
| `Controls.Press` | src/components/RightPanel/Controls/index.tsx:31-42 | an out-of-range value only raises the error flag and leaves `index` alone; an in-range value becomes `index` and is committed exactly once |
| `Controls.Edit` | src/components/RightPanel/Controls/index.tsx:44-47 | the typed number becomes `index` with no check, no commit and no change to the error flag |
| `Controls.Enter` | src/components/RightPanel/Controls/index.tsx:49-59 | Enter commits the current `index` when it is in range and raises the error flag otherwise; `index` never changes; any other key has no effect |
| `Controls.ArrowKey` | src/components/RightPanel/Controls/index.tsx:61-71 | ArrowDown presses the button for `pokemonIndex - 1` and ArrowUp the one for `pokemonIndex + 1`; other keys do nothing |
| `Controls.ArrowKeyIgnoresEditedIndex` | src/components/RightPanel/Controls/index.tsx:61-71 | arrow stepping commits the same values and gives the same error flag whatever the local `index` holds |
| `Controls.Step` | src/components/RightPanel/Controls/index.tsx:31-95 | any single event commits nothing, or commits one in-range value that is then the local `index` |
| `Controls.RunCommitsInRange` | src/components/RightPanel/Controls/index.tsx:31-59 | along any sequence of events, every committed value stays in 1..807 and earlier commits are kept |
| `Controls.CommittedFromMountInRange` | src/components/RightPanel/Controls/index.tsx:15-59 | from mount, whatever the starting prop, only values in 1..807 ever reach `changePokemonIndex` |
| `Controls.Navigator.constructor` | src/components/RightPanel/Controls/index.tsx:16-17 | the mounted state is `Initial` of the prop, and the commit log is valid |
| `Controls.Navigator.CheckError` | src/components/RightPanel/Controls/index.tsx:19-29 | returns true exactly for n below 1 or above 807, and raises the error flag whenever it returns true |
| `Controls.Navigator.HandleButton` | src/components/RightPanel/Controls/index.tsx:31-42 | follows `Press` and keeps every logged commit in range |
| `Controls.Navigator.HandleInputChange` | src/components/RightPanel/Controls/index.tsx:44-47 | follows `Edit` |
| `Controls.Navigator.HandleKeyPress` | src/components/RightPanel/Controls/index.tsx:49-59 | follows `Enter` on the resolved key code and keeps every logged commit in range |
| `Controls.Navigator.OnKeyDown` | src/components/RightPanel/Controls/index.tsx:61-71 | follows `ArrowKey` and keeps every logged commit in range |
| `Controls.Navigator.ClickDown` | src/components/RightPanel/Controls/index.tsx:82 | the down button acts as `Press` with `pokemonIndex - 1` |
| `Controls.Navigator.ClickUp` | src/components/RightPanel/Controls/index.tsx:95 | the up button acts as `Press` with `pokemonIndex + 1` |
| `Controls.Navigator.SetPokemonIndex` | src/components/RightPanel/Controls/index.tsx:16 | a new prop changes only `pokemonIndex`; the local `index` is not re-seeded |
| `Controls.Navigator.ClearError` | src/components/RightPanel/Controls/index.tsx:22-24 | the timer's reset clears the error flag and nothing else |
| `Controls.Navigator.Handle` | src/components/RightPanel/Controls/index.tsx:31-95 | every event is handled as `Step` says, so every logged commit stays in range |

## Left out

- The 500 ms `setTimeout` that clears the error flag in both components is asynchronous. It is modelled as an explicit `ClearError` event, not as a timer.
- Attaching and detaching the `keydown` listeners is DOM lifecycle plumbing, so it is not modelled. This covers `src/helpers/useKeyhandler.ts` and the inline listener effects in both components. Key events are plain method calls.
- `event.preventDefault()` in the shortcut handler is a browser concern and is not modelled.
- Rendering is not modelled. This covers `renderScreen` (an image when `src` is truthy, otherwise the Poké Ball placeholder), the `name` alt text, the icons, the buttons, and the styles in `src/components/RightPanel/Moves/MovesScreen/styles.ts`.
- React hook mechanics are not modelled: `useCallback` memoisation, render scheduling and stale closures. In both key handlers at most one branch can fire per key, so closing over the render's state changes nothing.
- `Controls.Navigator.HandleInputChange`: it takes the parsed value as an `int`. JavaScript's `Number(text)` can give fractions or `NaN`. Both comparisons in `checkError` are false for `NaN`, so Enter would commit `NaN`. The model does not reproduce this. The range invariant is proved for integer input only.
- A `null` entry and an absent key are not told apart: `Lookup` gives `None` for both. Both are falsy and both leave nothing to display.
- The parent component that owns `pokemonIndex` and the `sprites` table is not part of this model. Its response to `changePokemonIndex` shows up only as later `SetPokemonIndex` / `SetSprites` calls.
