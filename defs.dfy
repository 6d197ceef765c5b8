/**
 * Shared vocabulary of the stack model: the script errors the setters raise,
 * an Option type for nil-able values, the 32-bit unsigned integer the
 * property layer passes around, the window-mode enumeration, and the two
 * bit words of a stack, `flags` and `decorations`.
 *
 * The numeric values of the flag and decoration bits live in headers
 * (objdefs.h, stack.h) that are not part of this model. The model names
 * each bit and represents a word by the set of bits it has on; the style
 * field of `flags` (the bits F_STYLE) is kept as the number it holds. What
 * the setters and getters depend on is exactly that: which named bits are
 * on, and the value of the style field.
 */
module Defs {

  datatype Option<T> = None | Some(value: T)

  /**
   * Script errors the setters of this model raise: the three thrown with
   * LegacyThrow, and the plain Throw of SetLabel when the label cannot be
   * converted to UTF-8.
   */
  datatype ExecError = StackBadId | StackNoKey | CompositorNotSupported | LabelNotConverted

  /** uinteger_t: the unsigned 32-bit integer of the property layer. */
  newtype uint32 = x: int | 0 <= x < 0x1_0000_0000

  // ---- the window modes (enumeration Window_mode), in declaration order ----

  const WM_CLOSED: int := 0
  const WM_TOP_LEVEL: int := 1
  const WM_TOP_LEVEL_LOCKED: int := 2
  const WM_MODELESS: int := 3
  const WM_PALETTE: int := 4
  const WM_MODAL: int := 5
  const WM_SHEET: int := 6
  const WM_DRAWER: int := 7
  const WM_PULLDOWN: int := 8

  // ---- MCStack::flags ----

  /** The single-bit flags of MCStack::flags this model reads or writes. */
  datatype FlagBit =
    | TitleFlag        // F_TITLE: the stack has a label
    | DecorationsFlag  // F_DECORATIONS: the decorations word is in use
    | CantModifyFlag   // F_CANT_MODIFY
    | StackFilesFlag   // F_STACK_FILES: the stackfiles array is non-empty

  /** A flags word: the value of its style field and the set of its bits that are on. */
  datatype Flags = Flags(style: nat, bits: set<FlagBit>)

  /** getflag: whether bit `f` is on. */
  predicate GetFlag(flags: Flags, f: FlagBit) {
    f in flags.bits
  }

  /** The flags word after changeflag(on, f), `flags |= f` or `flags &= ~f`: `f` follows `on`, the rest stays. */
  function ChangeFlag(flags: Flags, f: FlagBit, on: bool): (r: Flags)
    ensures GetFlag(r, f) == on
    ensures forall g :: g != f ==> (GetFlag(r, g) <==> GetFlag(flags, g))
    ensures r.style == flags.style
  {
    if on then flags.(bits := flags.bits + {f}) else flags.(bits := flags.bits - {f})
  }

  /** The flags word after `flags ^= f`: `f` flips, the rest stays. */
  function ToggleFlag(flags: Flags, f: FlagBit): (r: Flags)
    ensures GetFlag(r, f) != GetFlag(flags, f)
    ensures forall g :: g != f ==> (GetFlag(r, g) <==> GetFlag(flags, g))
    ensures r.style == flags.style
  {
    if f in flags.bits then flags.(bits := flags.bits - {f}) else flags.(bits := flags.bits + {f})
  }

  /** Flipping a bit that changeflag has just changed restores the old word. */
  lemma ToggleUndoesChange(flags: Flags, f: FlagBit, on: bool)
    requires GetFlag(flags, f) != on
    ensures ToggleFlag(ChangeFlag(flags, f, on), f) == flags
  {
    var r := ToggleFlag(ChangeFlag(flags, f, on), f);
    assert forall g :: g in r.bits <==> g in flags.bits;
  }

  // ---- MCStack::decorations ----

  /** The bits of the decorations word. */
  datatype WindowDecoration =
    | WdMenu | WdTitle | WdMinimize | WdMaximize | WdClose
    | WdMetal | WdShape | WdLiveResizing | WdUtility | WdNoShadow

  /** The decorations word after `decorations |= bits` (on) or `decorations &= ~bits` (off). */
  function ChangeBits(mask: set<WindowDecoration>, bits: set<WindowDecoration>, on: bool): (r: set<WindowDecoration>)
    ensures forall d :: d in bits ==> (d in r <==> on)
    ensures forall d :: d !in bits ==> (d in r <==> d in mask)
  {
    if on then mask + bits else mask - bits
  }
}
