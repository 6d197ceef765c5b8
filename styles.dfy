/**
 * The stack's window style, kept in the style field of its flags word as
 * an offset from WM_TOP_LEVEL_LOCKED: MCStack::SetStyle writes it and
 * MCStack::GetStyle reads it back through a switch.
 */
module Styles {
  import opened Defs

  /** The style values of the stack-style enumeration (each name's window mode). */
  datatype StackStyle = TopLevel | Modeless | Palette | Modal | Sheet | Drawer

  /** The window mode a style value stands for. */
  function ModeOf(s: StackStyle): int {
    match s
    case TopLevel => WM_TOP_LEVEL
    case Modeless => WM_MODELESS
    case Palette => WM_PALETTE
    case Modal => WM_MODAL
    case Sheet => WM_SHEET
    case Drawer => WM_DRAWER
  }

  /** The style field value that stores window mode `mode` (`mode - WM_TOP_LEVEL_LOCKED`). */
  function StyleField(mode: int): nat
    requires WM_TOP_LEVEL_LOCKED <= mode
  {
    mode - WM_TOP_LEVEL_LOCKED
  }

  /** The switch of GetStyle, on the value of the style field (getstyleint(flags)). */
  function StyleOfField(field: nat): StackStyle {
    var mode := field + WM_TOP_LEVEL_LOCKED;
    if mode == WM_MODELESS then Modeless
    else if mode == WM_PALETTE then Palette
    else if mode == WM_MODAL then Modal
    else if mode == WM_SHEET then Sheet
    else if mode == WM_DRAWER then Drawer
    else TopLevel
  }

  /**
   * GetStyle: the mode the style field stores, when it is one of the five
   * non-top-level styles; top level for anything else, an empty field
   * included.
   */
  function StyleOf(flags: Flags): (s: StackStyle)
    ensures s != TopLevel ==> flags.style == StyleField(ModeOf(s))
    ensures s == TopLevel <==> (forall t :: t != TopLevel ==> flags.style != StyleField(ModeOf(t)))
  {
    StyleOfField(flags.style)
  }

  /** The switch of SetStyle: palette and modeless have a case, the default stores modal. */
  function StoredStyle(s: StackStyle): StackStyle {
    match s
    case Palette => Palette
    case Modeless => Modeless
    case _ => Modal
  }

  /**
   * SetStyle as written: the style field is cleared, then palette and
   * modeless store themselves and every other value, top level included,
   * falls to the default branch and stores modal.
   */
  function SetStyleFlags(flags: Flags, s: StackStyle): (r: Flags)
    ensures r.bits == flags.bits
    ensures StyleOf(r) == (if s == Palette || s == Modeless then s else Modal)
  {
    flags.(style := StyleField(ModeOf(StoredStyle(s))))
  }

  /** The concrete failing round trip: set the style to top level, read modal. */
  lemma SetTopLevelReadsModal(flags: Flags)
    ensures StyleOf(SetStyleFlags(flags, TopLevel)) == Modal
  {
  }

  /**
   * The failing round trip for a style a script can set: sheet falls to the
   * default branch too, and reads back modal.
   */
  lemma SetSheetReadsModal(flags: Flags)
    ensures StyleOf(SetStyleFlags(flags, Sheet)) == Modal
  {
  }

  /**
   * SetStyle with a case for every style: top level leaves the field empty,
   * every other style stores its own mode.
   */
  function SetStyleFlagsIntended(flags: Flags, s: StackStyle): (r: Flags)
    ensures r.bits == flags.bits
  {
    if s == TopLevel then flags.(style := 0) else flags.(style := StyleField(ModeOf(s)))
  }

  /** With the intended setter, GetStyle returns every style that was set. */
  lemma StyleIntendedRoundTrip(flags: Flags, s: StackStyle)
    ensures StyleOf(SetStyleFlagsIntended(flags, s)) == s
  {
  }
}
