# Screen-region translator: selection and capture logic

A desktop tool lets the user drag a rectangle over the screen, stores it,
and on a global hotkey captures that region, scales it from logical to
physical pixels and sends it with a language-specific prompt to a
translation model. This project models and proves the two pieces of that
tool that are logic rather than plumbing:

- `selection.dfy`, module `Selection` (renderer.js): the drag-selection
  state machine of the setup window. The class `Selector` holds the
  handlers' shared state `isDrawing`, `startX`, `startY` and `rect`, with
  one method per event (mousedown, mousemove, mouseup, keydown). Each
  method is proved against the pure transition `Step`; `Run` applies a
  sequence of events, and the lemmas about it state what a user can get
  out of a drag. The renderer's `rect` starts as the empty object `{}`;
  here that is `None`, and since `undefined > 10` is false, releasing
  with no rectangle closes the window. Mouse-down does not reset `rect`,
  so a click without a move is judged on the previous drag's rectangle:
  after a saved drag, a plain click saves the same rectangle again
  (`ClickAfterSaveSavesAgain`), and after a drag whose mouse-up never
  reached the canvas, when the pointer does not move before the next
  press, the next click saves that drag's rectangle when both its sides
  exceed 10 px (`LostMouseUpSavesStaleBox`); a move in between reshapes
  `rect` from the first press point, since drawing never ended. In ordinary use the first case is rare:
  saving closes the setup window (main.js:188-189) and the next setup
  window starts again from `{}`; it arises when the setup window survives
  the save, for instance when a second one was opened from the tray.
- `capture.dfy`, module `MainProcess` (main.js): the settings and the
  capture cycle. The store is a `map<string, Value>`; the global shortcut
  registry is the set of accelerators the application holds; whether the
  operating system accepts a registration is a boolean parameter, and
  whether the registry can parse a string as an accelerator at all is a
  predicate given to the application (`register` and `isRegistered`
  throw on one it cannot, which ends the handler); the
  display's scale factor is an exact fraction `num / den`, and
  `Math.round` is `floor(x + 1/2)` computed on integers. The class `App`
  keeps the invariant that the hotkey and language in memory agree with
  the store wherever the store has them, and that the only shortcut held
  is the current hotkey.
- `wrappers.dfy`, module `Wrappers`: the `Option` type.

## Model

| member | source | states |
|---|---|---|
| Selection.BoundingBox | renderer.js:46-49 | the rectangle built on mouse-move has non-negative width and height and contains both the drag origin and the pointer |
| Selection.BoundingBoxIsSmallest | renderer.js:46-49 | every box containing both points encloses the bounding box, so it is the smallest such box |
| Selection.BoundingBoxSymmetric | renderer.js:46-49 | swapping the drag origin and the pointer gives the same rectangle |
| Selection.Finish | renderer.js:59-65 | mouse-up saves exactly when a rectangle exists with width > 10 and height > 10, saves that rectangle unchanged, and closes otherwise; `{}` closes |
| Selection.Step | renderer.js:25-73 | one handler's effect: only mouse-up and keys send anything, a save happens only on mouse-up while drawing and sends the current `rect` with both sides above 10 px, keys leave the state alone, only mouse-down moves the origin, mouse-up ends drawing and mouse-down starts it, neither touching `rect` |
| Selection.Run | renderer.js:25-73 | every event yields exactly one outcome |
| Selection.RunAppend | renderer.js:25-73 | handling two event sequences in turn is handling their concatenation |
| Selection.MovesWhileDrawing | renderer.js:32-49 | while drawing, moves send nothing, keep the origin, and leave the box of the origin and the last pointer position |
| Selection.PressAndMove | renderer.js:25-49 | a press followed by moves sends nothing and leaves drawing on, the origin at the press point and the drag's rectangle in `rect` |
| Selection.DragOutcome | renderer.js:25-65 | a press, moves and a release send one message, at the release, judging the box of press point and last pointer position, or the previous rectangle when there was no move; drawing ends |
| Selection.ClickReusesPreviousRect | renderer.js:25-65 | a press and release without a move is judged on the rectangle already in the state |
| Selection.ClickAfterSaveSavesAgain | renderer.js:9-65 | after a saved drag, a click without a move saves the same rectangle again |
| Selection.LostMouseUpSavesStaleBox | renderer.js:25-65 | when a drag's mouse-up is lost and the pointer does not move before the next press, the next press and release saves that drag's rectangle when both its sides exceed 10 px |
| Selection.FirstClickCloses | renderer.js:9-65 | on a fresh page a click without a move closes the window |
| Selection.SmallDragNeverSaves | renderer.js:59-65 | a drag with at least one move whose horizontal or vertical extent, measured at the last pointer position, is at most 10 px ends in a close |
| Selection.SavedRectsAreLarge | renderer.js:59-61 | for any sequence of events, every saved rectangle has both sides above 10 px |
| Selection.EscapeInAnyState | renderer.js:69-72 | Escape closes the window in every state and leaves the state, including `isDrawing`, as it was |
| Selection.DragExample | renderer.js:46-61 | a drag from (50,50) to (250,200) saves {x:50, y:50, width:200, height:150} |
| Selection.ExampleDrag | renderer.js:25-66 | the same drag through the handlers of a fresh selector saves the same rectangle |
| Selection.Selector.constructor | renderer.js:8-9 | the page starts not drawing, with the empty rectangle |
| Selection.Selector.MouseDown | renderer.js:25-30 | drawing starts, the origin is the pointer, `rect` is unchanged |
| Selection.Selector.MouseMove | renderer.js:32-49 | not drawing: nothing changes; drawing: `rect` becomes the bounding box of origin and pointer, nothing else changes |
| Selection.Selector.MouseUp | renderer.js:56-66 | not drawing: nothing changes and nothing is sent; otherwise drawing ends and the outcome is `Finish(rect)` |
| Selection.Selector.KeyDown | renderer.js:69-73 | closes exactly on Escape, never saves, changes no state |
| MainProcess.LoadString | main.js:11-12 | a stored setting is used when present, the default otherwise |
| MainProcess.DefaultSettings | main.js:11-12 | with an empty store the hotkey is "F1" and the language "english" |
| MainProcess.RoundDiv | main.js:70-73 | the rounded value r satisfies r - 1/2 <= n/d < r + 1/2 (halves round up, as `Math.round`) |
| MainProcess.RoundDivUnique | main.js:70-73 | that bound determines the rounded value uniquely |
| MainProcess.RoundDivMonotone | main.js:70-73 | rounding preserves order |
| MainProcess.RoundDivAtLeast | main.js:70-73 | if n/d is at least the integer k, so is its rounding |
| MainProcess.ScaleCoord | main.js:70 | a scaled coordinate is the integer nearest to v * scaleFactor, halves rounded up |
| MainProcess.ScaleRect | main.js:69-74 | each field of the physical rectangle is, on its own, the integer nearest to the logical field times the scale factor, halves rounded up |
| MainProcess.ScaleByOne | main.js:70-73 | scale factor 1 leaves a coordinate unchanged |
| MainProcess.ScaleNonNegative | main.js:70-73 | non-negative coordinates scale to non-negative integers |
| MainProcess.ScaleMonotone | main.js:70-73 | scaling preserves the order of coordinates |
| MainProcess.ScaleNotShrinking | main.js:70-73 | a scale factor of at least 1 never shrinks a non-negative coordinate |
| MainProcess.ScaleRectByOne | main.js:69-74 | scale factor 1 leaves the whole rectangle unchanged |
| MainProcess.ScaleRectNonNegative | main.js:69-74 | a rectangle with non-negative fields scales to one with non-negative fields |
| MainProcess.SavedAreaStaysLarge | main.js:69-74 | on a display scaled by at least 1, a saved area keeps both sides above 10 pixels |
| MainProcess.RoundingExamples | main.js:70-73 | 15 at 1.5 gives 23, -5 at 0.5 gives -2, 100 at 1.25 gives 125 |
| MainProcess.PromptFor | main.js:89-94 | the German prompt exactly for "german", the English prompt exactly for "english", the default prompt exactly for everything else |
| MainProcess.App.constructor | main.js:10-12 | the store as saved, hotkey and language loaded with their defaults, no shortcut, no window |
| MainProcess.App.Ready | main.js:158-173 | the translation window opens; a hotkey the registry cannot parse ends the handler with nothing registered and no settings sent; otherwise the hotkey is added to the held shortcuts exactly if registration succeeds (the held set is otherwise unchanged, so from the empty registry at startup it is held exactly then) and the current settings are sent |
| MainProcess.App.OpenSetupWindow | main.js:23-53 | the setup window exists; settings and shortcuts are unchanged |
| MainProcess.App.TranslationWindowClosed | main.js:154-156 | the translation window reference is dropped; nothing else changes |
| MainProcess.App.SaveCoords | main.js:185-191 | the coordinates are stored unchanged under "captureArea" and the setup window, if open, is closed; nothing else changes |
| MainProcess.App.CloseSetup | main.js:199-203 | the setup window, if open, is closed; nothing is stored and nothing else changes |
| MainProcess.App.SaveHotkey | main.js:205-215 | with an unparseable current hotkey nothing changes and the handler fails; otherwise the old hotkey is released, the new one becomes current and is stored whether or not registration succeeds, and is held exactly if it is parseable and registration succeeds; the old one no longer fires |
| MainProcess.App.SaveLanguage | main.js:217-221 | the language becomes current and is stored; hotkey, shortcuts, area and windows are unchanged |
| MainProcess.App.RequestSettings | main.js:223-227 | the current hotkey and language are reported exactly when the translation window is open, and agree with the store |
| MainProcess.App.StartCapture | main.js:58-74 | with no stored area the cycle stops before scaling; otherwise the stored area scaled field by field |
| MainProcess.App.ChoosePrompt | main.js:89-94 | the prompt for the target language as it is when the crop has finished |
| MainProcess.App.CaptureAndTranslate | main.js:57-94 | a cycle with no event in between: no stored area stops it before scaling; otherwise the stored area scaled field by field and the prompt for the current language |
| MainProcess.App.HotkeyPressed | main.js:159-161 | a key starts the capture cycle exactly when its shortcut is held, only the current hotkey can be held, and the cycle it starts is the one `CaptureAndTranslate` describes |
| MainProcess.App.WillQuit | main.js:176-179 | every shortcut is released |
| MainProcess.RebindExample | main.js:205-215 | after rebinding F1 to F2, F1 no longer starts a capture cycle and F2 does |
| MainProcess.UnparseableHotkeyExample | main.js:205-215 | an unparseable hotkey is adopted and stored, and a later rebind to F2 leaves it in place with F2 inert |
| MainProcess.LanguageChangeMidCycle | main.js:77-94 | a switch to German while the screenshot is pending gives the cycle already started the German prompt |

## Left out

- Canvas drawing in renderer.js (overlay fill, stroke colours, the info text, the redraw of saved coordinates and the listener it re-registers on every move): user interface only.
- Pointer coordinates are integers here; a browser may report fractional `clientX`/`clientY`.
- `startX` and `startY` are undefined in renderer.js before the first mouse-down; the model starts them at 0, which nothing reads before a mouse-down sets them.
- The renderer mutates one `rect` object in place and sends it over IPC, which copies it; the model replaces an immutable value, which is observably the same.
- Window creation, the tray menu, window-bounds persistence, dock hiding and the 'setup-ready' handler of main.js: Electron plumbing. Window references are reduced to absent or open, and `close()` is merged with the 'closed' handler that nulls the reference, so a destroyed window whose reference is still set does not arise.
- The 'set-capture-area' and 'capture-screenshot' handlers are one-line calls of what `OpenSetupWindow` and `CaptureAndTranslate` model.
- The screenshot, the `sharp` crop (including its failure on a rectangle outside the image), the Gemini request, base64 encoding, response parsing, console logging and forwarding errors to the window: foreign libraries, network and I/O. `CaptureAndTranslate` ends with the crop rectangle and the prompt it would hand on.
- MainProcess.App.CaptureAndTranslate: reads the target language in the same step as the area, as if no event arrived during the screenshot and crop; `StartCapture` and `ChoosePrompt` are the two halves between which events can be handled, as `LanguageChangeMidCycle` shows.
- Overlapping capture cycles, where the last response to arrive wins the window: asynchronous concurrency.
- Floating point: the scale factor is an exact fraction and `v * scaleFactor` is exact, so results can differ from IEEE doubles where the product is not representable.
- Registrations by other applications, and the reason the operating system refuses one, are outside the model; success is a parameter. Which strings parse as accelerators is Electron's rule and is a predicate given to `App`, not modelled.
- MainProcess.App.constructor: requires that "hotkey" and "targetLanguage" hold strings and "captureArea" a rectangle when present, which is all this program ever writes there; a store edited by hand to hold something else is not modelled.
- preload.js (IPC bridge wiring) and translation-renderer.js (DOM handlers, timestamps, alerts) are not part of this model.
