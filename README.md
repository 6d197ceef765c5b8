# MCStack property layer — a Dafny model

This project models the property setters and getters of LiveCode's stack
object, `MCStack`, as written in `engine/src/exec-interface-stack.cpp`.
When a script sets or reads a property such as `minWidth`, `closeBox`,
`style`, `stackFiles` or `compositorType`, these members run. Each setter
is a short, sequential update of a few fields of the stack. Each getter
reads those fields.

The model keeps that shape:

- `StackObject.Stack` is a class holding the stack's fields: the `flags`
  word, the `decorations` word, the size bounds, the id, the name, the
  title, the rectangles, the window-shape id, the stackfiles array, the
  icon, the open count, the window mode and the tile cache.
- Each setter is a method that changes the fields its `modifies` clause
  names, in the source's order. Each getter is a function of the fields.
- Each method's `ensures` states the whole new state. It does so through
  specification functions in the other modules, and the lemmas there state
  what those functions promise: round trips, preserved invariants and
  which bits are left alone.

Calls into the window system and the rest of the engine are not executed.
Each one is appended to the ghost log `effects`, so the contracts still say
which calls happen and in what order. These calls are reopening the window,
size hints and geometry, redraws, the id-changed message, flushing parent
scripts, stopping edits, resetting the cursor, raising the stack and the
dispatcher's cut. Facts the setters take from code outside this file become
method parameters:

- whether the stack is keyed;
- whether the dispatcher's cut succeeds;
- whether the UTF-8 conversion of a label succeeds;
- which compositors the platform supports;
- whether a new window mask could be built;
- whether the engine runs on Mac.

Modules:

| file | module | contents |
|---|---|---|
| `defs.dfy` | `Defs` | errors, `uint32`, window modes, the `flags` and `decorations` words |
| `decorations.dfy` | `Decorations` | SetDecoration, the decoration getters, the window-shape rewrite |
| `styles.dfy` | `Styles` | the style field of `flags`, SetStyle and GetStyle |
| `stackfiles.dfy` | `StackFiles` | the stackFiles parser and printer, and their round trip |
| `names.dfy` | `Names` | name normalisation |
| `compositing.dfy` | `Compositing` | compositor resolution |
| `stack.dfy` | `StackObject` | the `Stack` class and its setters and getters |

The bit values of `F_*` and `WD_*` and the width of the `flags` word are
defined in `objdefs.h` and `stack.h`, which are not part of this model.
So a word is modelled as the set of its named bits that are on. The style
field of `flags` is kept as the number it holds (`getstyleint`). The setters
and getters only ever test, set, clear or flip named bits and read or write
the style field, so nothing they do depends on the bit positions.

## Model

| member | source | states |
|---|---|---|
| StackObject.Stack.SetFullscreen | engine/src/exec-interface-stack.cpp:149-165 | A changed setting saves the rect on entry. On exit it restores the saved rect only if that rect has positive width and height. An unchanged setting touches nothing. An open stack is reopened once. |
| StackObject.Stack.ToggleFullscreen | engine/src/exec-interface-stack.cpp:149-165 | Entering fullscreen saves the rect; after the window is resized while fullscreen, leaving restores the saved rect when it has positive width and height, and otherwise keeps the fullscreen rect. An open stack is reopened on each change. |
| StackObject.Stack.SetName | engine/src/exec-interface-stack.cpp:167-218 | The stored name is the normalised name. The window name is dirtied. Parent scripts are flushed, and the has-parent-scripts state cleared, exactly when the stack had parent scripts and the name changed, ignoring case. |
| Names.ReplaceChar | engine/src/exec-interface-stack.cpp:182 | Every `from` character is replaced with `to`, every other character is kept, and the length is unchanged. |
| Names.NormaliseName | engine/src/exec-interface-stack.cpp:181-195 | The stored name holds no comma and is never empty. An empty request stores "Untitled". Otherwise each comma becomes `_`, replaced before the emptiness test. |
| Names.NormaliseKeepsCleanName | engine/src/exec-interface-stack.cpp:181-195 | A non-empty, comma-free name is stored unchanged. |
| Names.FoldChar | engine/src/exec-interface-stack.cpp:207 | An upper-case ASCII letter folds to its lower-case letter; every other character is kept. |
| Names.SameName | engine/src/exec-interface-stack.cpp:207 | The caseless `hasname` test: equal names are the same name, and the same name has the same length. |
| Names.NormaliseIdempotent | engine/src/exec-interface-stack.cpp:181-195 | Setting a stack's name to its own stored name stores the same name again. |
| StackObject.Stack.SetId | engine/src/exec-interface-stack.cpp:220-233 | An id below the current one raises the bad-id error and leaves the id alone. Otherwise the id becomes the new one, so the id never decreases. The id-changed message is sent only when the id changes. |
| StackObject.Stack.SetLabel | engine/src/exec-interface-stack.cpp:484-515 | The title becomes the label and `F_TITLE` tracks whether it is nil. On a failed conversion the title stays nil, `F_TITLE` keeps its old value, the window name is not dirtied and an error is raised. |
| StackObject.Stack.SetMinWidth | engine/src/exec-interface-stack.cpp:704-714 | `minwidth` becomes the new value. `maxwidth` is raised to it when smaller and kept otherwise, so min ≤ max. An open stack gets new hints and geometry. |
| StackObject.Stack.SetMaxWidth | engine/src/exec-interface-stack.cpp:721-731 | `maxwidth` becomes the new value. `minwidth` is lowered to it when larger and kept otherwise, so min ≤ max. |
| StackObject.Stack.SetMinHeight | engine/src/exec-interface-stack.cpp:738-748 | As SetMinWidth, for the heights. |
| StackObject.Stack.SetMaxHeight | engine/src/exec-interface-stack.cpp:755-765 | As SetMaxWidth, for the heights. |
| StackObject.Stack.SetDecoration | engine/src/exec-interface-stack.cpp:562-606 | The new `flags` and `decorations` are those of FlagsAfterDecoration and DecorationsAfter. For close, zoom, live-resizing, system-window and metal, the getter then reads back the setting. An open stack is reopened. |
| Decorations.DecorationsAfter | engine/src/exec-interface-stack.cpp:564-603 | The word starts as the default word when `F_DECORATIONS` is off. Exactly the property's bits then follow the setting, inverted for shadow. Every other bit is kept. |
| Decorations.FlagsAfterDecoration | engine/src/exec-interface-stack.cpp:566 | `F_DECORATIONS` ends up on, and no other flag or the style field changes. |
| Decorations.DraggableChangesNoBit | engine/src/exec-interface-stack.cpp:596-598 | A property the switch does not list changes no bit of the defaulted word. |
| Decorations.DraggableRoundTripFails | engine/src/exec-interface-stack.cpp:596-598 | Draggable does not round-trip: cleared on a fresh stack, the getter (line 630) still reads true, because the setter writes no bit for it. |
| Decorations.GetDecoration | engine/src/exec-interface-stack.cpp:608-681 | The eight getters as written. All but shadow read true only with `F_DECORATIONS` on; shadow reads true only with it off. Close, zoom, live-resizing, system-window and metal read exactly the bit their setter writes. Draggable and collapseBox read `WD_TITLE`. Shadow reads true exactly when `F_DECORATIONS` is off and `WD_NOSHADOW` is on. |
| StackObject.Stack.Decoration | engine/src/exec-interface-stack.cpp:608-681 | A decoration getter on the stack's words reads true only when `F_DECORATIONS` is on, or, for shadow, off. |
| Decorations.DecorationRoundTrip | engine/src/exec-interface-stack.cpp:608-671 | For close, zoom, live-resizing, system-window and metal, the getter returns what the setter stored. |
| Decorations.DecorationLeavesOtherGetters | engine/src/exec-interface-stack.cpp:608-671 | Setting one decoration leaves every round-tripping getter on a different bit reading that bit of the defaulted word. |
| Decorations.ShadowReadsFalseAfterSet | engine/src/exec-interface-stack.cpp:678-681 | As written, the shadow getter reads false after any decoration has been set. |
| Decorations.ShadowRoundTripFails | engine/src/exec-interface-stack.cpp:678-681 | A concrete case: setting shadow to true on a fresh stack reads back false. |
| Decorations.ShadowNeverDecoratedDiffers | engine/src/exec-interface-stack.cpp:678-681 | On a stack whose words were never set, the getter as written reads false and the intended getter reads true. |
| Decorations.ShadowIntendedRoundTrip | engine/src/exec-interface-stack.cpp:678-681 | With the negation over the whole test, the shadow getter reads back what was set. |
| Decorations.CollapseBoxIgnoresSetting | engine/src/exec-interface-stack.cpp:638-641 | As written, collapseBox reads `WD_TITLE`, which its setter never changes, so its value does not depend on the setting. |
| Decorations.CollapseBoxRoundTripFails | engine/src/exec-interface-stack.cpp:638-641 | A concrete case: clearing collapseBox on a fresh stack still reads true. |
| Decorations.CollapseBoxIntendedRoundTrip | engine/src/exec-interface-stack.cpp:638-641 | Reading `WD_MINIMIZE`, the bit the setter writes, collapseBox reads back what was set. |
| Decorations.ShapeDecorations | engine/src/exec-interface-stack.cpp:1686-1724 | A nonzero shape leaves only `WD_SHAPE` and the old no-shadow bit. A zero shape clears `WD_SHAPE` and keeps every other bit. |
| Decorations.ShapeFlags | engine/src/exec-interface-stack.cpp:1686-1724 | `F_DECORATIONS` is on exactly when the shape is nonzero, and nothing else changes. |
| Decorations.ShapedWindowHasNoDecorations | engine/src/exec-interface-stack.cpp:1686-1691 | A shaped window reports none of the title-bar decorations. |
| Decorations.ShapeKeepsNoShadow | engine/src/exec-interface-stack.cpp:1686-1724 | Shaping and then unshaping a window keeps the no-shadow bit of its decorations word. Only the word keeps it: unshaping clears `F_DECORATIONS`. |
| Decorations.UnshapedDecorationDropsNoShadow | engine/src/exec-interface-stack.cpp:1720-1724 | After unshaping, the next decoration set on a property other than shadow starts from the default word, so the no-shadow bit is lost. |
| StackObject.Stack.SetWindowShape | engine/src/exec-interface-stack.cpp:1683-1736 | The shape id and the two words are rewritten as ShapeDecorations and ShapeFlags say, and a shaped window reports no decorations. When a new mask replaces the old one, only a full redraw follows. Otherwise an open stack is reopened, and then redrawn if it has a mask. |
| Styles.StyleOf | engine/src/exec-interface-stack.cpp:352-369 | GetStyle returns a non-top-level style only when the style field stores that style's mode. It returns top level exactly when the field stores none of them. |
| Styles.SetStyleFlags | engine/src/exec-interface-stack.cpp:371-389 | The bits are kept. Palette and modeless read back as themselves and every other style reads back as modal. |
| StackObject.Stack.GetStyle | engine/src/exec-interface-stack.cpp:352-369 | A non-top-level style is returned exactly when the style field plus `WM_TOP_LEVEL_LOCKED` is that style's mode, one of modeless, palette, modal, sheet and drawer. Top level is returned otherwise. |
| Styles.SetSheetReadsModal | engine/src/exec-interface-stack.cpp:371-389 | Setting the style to sheet reads back modal. |
| Styles.SetTopLevelReadsModal | engine/src/exec-interface-stack.cpp:371-389 | Setting the style to top level reads back modal. Top level is read-only in the style table, so a script probably never reaches this. |
| Styles.SetStyleFlagsIntended | engine/src/exec-interface-stack.cpp:371-389 | The corrected setter keeps every bit of `flags` and writes only the style field. |
| Styles.StyleIntendedRoundTrip | engine/src/exec-interface-stack.cpp:352-389 | With a case for every style, GetStyle returns every style that was set. |
| StackObject.Stack.SetStyle | engine/src/exec-interface-stack.cpp:371-393 | `flags` becomes SetStyleFlags of the old word, and GetStyle reads palette, modeless or modal. An open stack goes to top-level mode and is reopened. |
| StackObject.Stack.SetCantModify | engine/src/exec-interface-stack.cpp:400-420 | Changing the flag on an open, unkeyed stack raises the no-key error and leaves every field as it was. Otherwise the flag follows the setting. On an open stack in a top-level mode, the mode becomes locked when the flag is set or the cut fails, and unlocked otherwise. The four window calls follow in order. GetCantModify then reads the setting, or the old value after the error. |
| StackObject.Stack.CantModify | engine/src/exec-interface-stack.cpp:395-398 | GetCantModify reads exactly the `F_CANT_MODIFY` bit; after SetCantModify it reads the setting, or its old value when an error was raised. |
| Defs.ToggleUndoesChange | engine/src/exec-interface-stack.cpp:402-406 | Flipping the bit that changeflag has just changed restores the old flags word. |
| StackObject.Stack.SetIcon | engine/src/exec-interface-stack.cpp:825-833 | Only an open stack takes the new icon id. The icon is redrawn only when the id changed and the stack is iconic. |
| StackObject.Stack.SetStackFiles | engine/src/exec-interface-stack.cpp:1382-1445 | The array becomes Parse of the value, and `F_STACK_FILES` is on exactly when the array is non-empty. |
| StackFiles.ParseStackFiles | engine/src/exec-interface-stack.cpp:1397-1429 | The offset loop collects exactly Parse of the whole value. |
| StackFiles.ParseLine | engine/src/exec-interface-stack.cpp:1407-1427 | One pass of the loop body adds exactly the entry of its line: none for an empty line, or for a line whose part after the first comma is empty. |
| StackFiles.FindChar | engine/src/exec-interface-stack.cpp:1409-1410 | The result is the first index at or after `from` holding `c`, or the length when there is none. |
| StackFiles.DivideAtChar | engine/src/exec-interface-stack.cpp:1418 | The head holds no delimiter. With a delimiter, the value is head, delimiter, tail. Without one, the head is the whole value and the tail is empty. |
| StackFiles.ParseWellFormed | engine/src/exec-interface-stack.cpp:1405-1427 | Every stored entry has a non-empty file name, a stack name without comma or newline, and a file name without newline. |
| StackFiles.ParseEntriesAreLines | engine/src/exec-interface-stack.cpp:1405-1427 | Every stored entry, printed as `stackname,filename`, is one of the value's lines. |
| StackFiles.ParseFormat | engine/src/exec-interface-stack.cpp:1352-1380 | Parsing what GetStackFiles prints gives back the entries, for entries the parser can store. |
| StackFiles.ParseFormatParse | engine/src/exec-interface-stack.cpp:1352-1445 | Reading stackFiles and setting it back stores the same array. |
| StackFiles.FormatSnoc | engine/src/exec-interface-stack.cpp:1364-1374 | Printing one more entry appends a newline, when entries came before, and that entry's line. |
| StackObject.Stack.GetStackFiles | engine/src/exec-interface-stack.cpp:1352-1380 | The loop prints exactly Format of the array: the `stackname,filename` lines, joined by newlines, in array order. |
| Compositing.Resolve | engine/src/exec-interface-stack.cpp:1808-1819 | Nil resolves to none. OpenGL resolves to dynamic OpenGL where supported and to static OpenGL otherwise. Any other request stands for itself, so the generic OpenGL type is never the result. |
| Compositing.ResolveIdempotent | engine/src/exec-interface-stack.cpp:1808-1819 | A resolved type resolves to itself. |
| StackObject.Stack.SetCompositorType | engine/src/exec-interface-stack.cpp:1804-1843 | An unsupported resolved type raises the not-supported error with the tile cache untouched. None releases the tile cache. Any other type retargets the existing cache, or creates one of tile size 32 and limit 4 MiB. The stack is then redrawn, and updates are effectively deferred exactly when requested and the type is not none. GetCompositorType then reads the resolved type. |
| StackObject.Stack.GetCompositor | engine/src/exec-interface-stack.cpp:1791-1802 | Nil exactly when there is no tile cache, otherwise the tile cache's compositor. After SetCompositorType it reads the resolved type, nil for none, or its old value when an error was raised. |
| StackObject.Stack.EffectiveDeferScreenUpdates | engine/src/exec-interface-stack.cpp:1855-1858 | Updates are deferred exactly when requested and a tile cache exists. |
| StackObject.Stack.GetCharset | engine/src/exec-interface-stack.cpp:1508-1515 | The charset is 0 or 1. It is 1 (MacOS) exactly when the translated state differs from being on Mac. |

## Left out

- The window system and the rest of the engine are not modelled. The calls into them are recorded in the ghost log `effects` and not executed. These are reopening the window, hints, geometry, redraws, messages, parent-script flushing, stopping edits, the cursor and the stack list.
- Building a new window mask from an image in SetWindowShape is a parameter, `newMaskBuilt`. The `ECS_MASK_CHANGED` state it sets is not modelled.
- The numeric values of the `F_*` and `WD_*` bits and of `F_STYLE` are in headers that are not part of this model. Words are sets of named bits, and the style field is a number.
- `iskeyed`, the dispatcher's cut, `MCTileCacheSupportsCompositor` and the label's UTF-8 conversion are parameters. So is the platform for GetCharset (`_MACOSX`).
- The tile cache's viewport and internals are not modelled. Only its presence, tile size, cache limit and compositor are kept.
- StackObject.Stack.SetName: the error path of the inherited name setter and the failure of copying the old name are not modelled. Both depend on code outside this file. Case-insensitive name comparison folds ASCII letters only.
- StackObject.Stack.SetStackFiles: the array count is a 16-bit `uint2` in the source, and its wrap-around above 65535 entries is not modelled. Copying substrings and dividing at the comma are treated as never failing; in the source they fail only when memory runs out. Freeing the old array is not modelled.
- StackObject.Stack.SetMinWidth: `minwidth` and `maxwidth` are given the 32-bit width of the `uinteger_t` parameter, because their declared width is in `stack.h`, which is not part of this model. If the fields are narrower, the assignment truncates and `minwidth == width` fails for larger values; that truncation is not modelled.
- StackObject.Stack.SetMaxWidth: as for SetMinWidth; the 32-bit width of `maxwidth` and `minwidth` is assumed and any truncation is not modelled.
- StackObject.Stack.SetMinHeight: as for SetMinWidth; the 32-bit width of `minheight` and `maxheight` is assumed and any truncation is not modelled.
- StackObject.Stack.SetMaxHeight: as for SetMinWidth; the 32-bit width of `maxheight` and `minheight` is assumed and any truncation is not modelled.
- Names.FoldChar: only the ASCII letters A to Z are folded. The engine's caseless comparison may fold other letters too, so SetName may flush parent scripts after a rename that the engine treats as no change.
- Names.SameName: it folds ASCII letters only, as FoldChar does, so SetName may flush parent scripts after a rename that the engine treats as no change. Its promise that the same name has the same length holds for this fold only; a fold that changes lengths would not keep it.
- The `Window_mode` values (`WM_CLOSED` to `WM_PULLDOWN`) come from a header that is not part of this model; the values in `Defs` follow their declaration order. The model relies only on the modes being distinct and on `WM_TOP_LEVEL_LOCKED` lying below the five style modes, which is what StyleField's precondition uses.
- StackObject.Stack.GetCompositor: the source returns the address of a local variable holding the compositor, and that pointer is no longer valid once the getter returns. The model returns the compositor value itself.
- StackObject.Stack.GetStackFiles: the list and string operations are treated as never failing. The 16-bit loop counter is not modelled.
- The entries' strings are `seq<char>`. The conversion to and from C strings is treated as the identity.
- SetUnicodeLabel, SetMainStack, SetSubstacks, the group and card property lists, the link colours, and the other one-line setters and getters are not modelled. They are outside the modelled core or depend on objects this model does not have.
- Memory management (`delete`, `strclone`, `MCU_realloc`) is not modelled.

## Findings

The class models each of these members as written. The corrected member
stands beside it in the same module, with its property proved.

| source | as written | input that shows it | evidently intended | confidence | as-written member | corrected member |
|---|---|---|---|---|---|---|
| engine/src/exec-interface-stack.cpp:678-681 | GetShadow returns `!(flags & F_DECORATIONS) && (decorations & WD_NOSHADOW)`; the negation binds to the flags test only | set shadow to true on a fresh stack: SetDecoration turns `F_DECORATIONS` on, so the getter reads false; after any decoration is set, shadow always reads false. On a stack never decorated the getter as written reads false and the intended one true (Decorations.ShadowNeverDecoratedDiffers) | `!((flags & F_DECORATIONS) && (decorations & WD_NOSHADOW))`, so shadow reads back what was set | not executed | Decorations.ShadowRoundTripFails | Decorations.ShadowIntendedRoundTrip |
| engine/src/exec-interface-stack.cpp:638-641 | GetCollapseBox tests `WD_TITLE`, while SetDecoration writes `WD_MINIMIZE` for the collapse box | set collapseBox to false on a fresh stack: the default word has `WD_TITLE`, so the getter reads true | the getter tests `WD_MINIMIZE`, the bit its setter writes | not executed | Decorations.CollapseBoxRoundTripFails | Decorations.CollapseBoxIntendedRoundTrip |
| engine/src/exec-interface-stack.cpp:371-389 | SetStyle has cases only for palette and modeless; every other style, sheet included, falls to the default branch and stores modal | set the style to sheet: GetStyle reads modal, though its switch has a sheet case (line 361) | sheet stores its own mode, so GetStyle reads it back. Top level and drawer are marked read-only in the style table (lines 62-63), so a script probably never passes them; the corrected setter still gives them a case | not executed | Styles.SetSheetReadsModal | Styles.StyleIntendedRoundTrip |
