/**
 * The decorations word of a stack window and the properties that read and
 * write it: MCStack::SetDecoration, the decoration getters (closeBox,
 * zoomBox, draggable, collapseBox, liveResizing, systemWindow, metal,
 * shadow) and the rewrite done by MCStack::SetWindowShape.
 *
 * Everything here is a function of the two words involved, the stack's
 * `flags` and its `decorations`; the class in StackObject updates its
 * fields as these functions say.
 */
module Decorations {
  import opened Defs

  /** The properties MCStack::SetDecoration dispatches on. */
  datatype DecorationProp =
    | CloseBox | CollapseBox | MinimizeBox | ZoomBox | MaximizeBox
    | LiveResizing | SystemWindow | Metal | Shadow | Draggable

  /** The word a stack gets the first time a decoration is set. */
  const DEFAULT_DECORATIONS: set<WindowDecoration> := {WdMenu, WdTitle, WdMinimize, WdMaximize, WdClose}

  /** The bits `bflags` a property controls: none for a property the switch does not list. */
  function DecorationBits(which: DecorationProp): set<WindowDecoration> {
    match which
    case CloseBox => {WdClose}
    case CollapseBox => {WdMinimize}
    case MinimizeBox => {WdMinimize}
    case ZoomBox => {WdMaximize}
    case MaximizeBox => {WdMaximize}
    case LiveResizing => {WdLiveResizing}
    case SystemWindow => {WdUtility}
    case Metal => {WdMetal}
    case Shadow => {WdNoShadow}
    case Draggable => {}
  }

  /** The word SetDecoration starts from: the default one when F_DECORATIONS is off. */
  function BaseDecorations(flags: Flags, decorations: set<WindowDecoration>): set<WindowDecoration> {
    if GetFlag(flags, DecorationsFlag) then decorations else DEFAULT_DECORATIONS
  }

  /** Whether the property's bits end up on: shadow is stored inverted, as "no shadow". */
  predicate BitOn(which: DecorationProp, setting: bool) {
    if which == Shadow then !setting else setting
  }

  /**
   * The decorations word after SetDecoration(which, setting): starting from
   * the (lazily defaulted) word, exactly the property's bits follow the
   * setting and every other bit is kept.
   */
  function DecorationsAfter(flags: Flags, decorations: set<WindowDecoration>, which: DecorationProp, setting: bool)
    : (r: set<WindowDecoration>)
    ensures forall d :: d in DecorationBits(which) ==> (d in r <==> BitOn(which, setting))
    ensures forall d :: d !in DecorationBits(which) ==> (d in r <==> d in BaseDecorations(flags, decorations))
  {
    ChangeBits(BaseDecorations(flags, decorations), DecorationBits(which), BitOn(which, setting))
  }

  /** The flags word after SetDecoration: F_DECORATIONS on, nothing else touched. */
  function FlagsAfterDecoration(flags: Flags): (r: Flags)
    ensures GetFlag(r, DecorationsFlag)
    ensures forall g :: g != DecorationsFlag ==> (GetFlag(r, g) <==> GetFlag(flags, g))
    ensures r.style == flags.style
  {
    ChangeFlag(flags, DecorationsFlag, true)
  }

  /** The properties that have a getter in the stack's property table. */
  predicate HasGetter(which: DecorationProp) {
    which != MinimizeBox && which != MaximizeBox
  }

  /**
   * The decoration getters, as written (shadow and collapseBox included):
   * every getter but shadow needs F_DECORATIONS on, shadow needs it off;
   * close, zoom, live-resizing, system-window and metal read the bit their
   * setter writes, draggable and collapseBox read WD_TITLE.
   */
  predicate GetDecoration(which: DecorationProp, flags: Flags, decorations: set<WindowDecoration>): (r: bool)
    requires HasGetter(which)
    ensures which != Shadow && r ==> GetFlag(flags, DecorationsFlag)
    ensures which == Shadow && r ==> !GetFlag(flags, DecorationsFlag)
    ensures RoundTrips(which) ==> (r <==> GetFlag(flags, DecorationsFlag) && DecorationBits(which) <= decorations)
    ensures which == Draggable || which == CollapseBox ==> (r <==> GetFlag(flags, DecorationsFlag) && WdTitle in decorations)
    ensures which == Shadow ==> (r <==> !GetFlag(flags, DecorationsFlag) && WdNoShadow in decorations)
  {
    match which
    case CloseBox => GetFlag(flags, DecorationsFlag) && WdClose in decorations
    case ZoomBox => GetFlag(flags, DecorationsFlag) && WdMaximize in decorations
    case Draggable => GetFlag(flags, DecorationsFlag) && WdTitle in decorations
    case CollapseBox => GetFlag(flags, DecorationsFlag) && WdTitle in decorations
    case LiveResizing => GetFlag(flags, DecorationsFlag) && WdLiveResizing in decorations
    case SystemWindow => GetFlag(flags, DecorationsFlag) && WdUtility in decorations
    case Metal => GetFlag(flags, DecorationsFlag) && WdMetal in decorations
    case Shadow => !GetFlag(flags, DecorationsFlag) && WdNoShadow in decorations
  }

  /** The properties whose getter reads back the bit their setter writes. */
  predicate RoundTrips(which: DecorationProp) {
    which == CloseBox || which == ZoomBox || which == LiveResizing
    || which == SystemWindow || which == Metal
  }

  /** For close, zoom, live-resizing, system-window and metal, get returns what set stored. */
  lemma DecorationRoundTrip(which: DecorationProp, flags: Flags, decorations: set<WindowDecoration>, setting: bool)
    requires RoundTrips(which)
    ensures GetDecoration(which, FlagsAfterDecoration(flags), DecorationsAfter(flags, decorations, which, setting)) == setting
  {
    var d := DecorationsAfter(flags, decorations, which, setting);
    var b :| b in DecorationBits(which);
    assert b in d <==> setting;
  }

  /**
   * Setting one decoration leaves the getters of the properties on other bits
   * as they read on the defaulted word.
   */
  lemma DecorationLeavesOtherGetters(which: DecorationProp, other: DecorationProp, flags: Flags,
                                     decorations: set<WindowDecoration>, setting: bool)
    requires RoundTrips(other)
    requires DecorationBits(other) !! DecorationBits(which)
    ensures GetDecoration(other, FlagsAfterDecoration(flags), DecorationsAfter(flags, decorations, which, setting))
         == (DecorationBits(other) <= BaseDecorations(flags, decorations))
  {
    var d := DecorationsAfter(flags, decorations, which, setting);
    var b :| b in DecorationBits(other);
    assert DecorationBits(other) == {b};
    assert b !in DecorationBits(which);
  }

  /** A property the switch does not list (draggable) changes no bit of the defaulted word. */
  lemma DraggableChangesNoBit(flags: Flags, decorations: set<WindowDecoration>, setting: bool)
    ensures DecorationsAfter(flags, decorations, Draggable, setting) == BaseDecorations(flags, decorations)
  {
  }

  /** Draggable does not round-trip: cleared on a fresh stack, it still reads true. */
  lemma DraggableRoundTripFails()
    ensures GetDecoration(Draggable, FlagsAfterDecoration(Flags(0, {})), DecorationsAfter(Flags(0, {}), {}, Draggable, false)) == true
  {
    assert WdTitle !in DecorationBits(Draggable);
  }

  // ---- shadow: the getter as written and as evidently intended ----

  /**
   * As written, the shadow getter needs F_DECORATIONS off, which every
   * decoration setter turns on: after any SetDecoration the shadow reads false.
   */
  lemma ShadowReadsFalseAfterSet(which: DecorationProp, flags: Flags, decorations: set<WindowDecoration>, setting: bool)
    ensures !GetDecoration(Shadow, FlagsAfterDecoration(flags), DecorationsAfter(flags, decorations, which, setting))
  {
  }

  /** The concrete failing round trip: set the shadow to true, read false. */
  lemma ShadowRoundTripFails()
    ensures GetDecoration(Shadow, FlagsAfterDecoration(Flags(0, {})), DecorationsAfter(Flags(0, {}), {}, Shadow, true)) == false
  {
  }

  /** The shadow getter with the negation over the whole conjunction. */
  predicate ShadowIntended(flags: Flags, decorations: set<WindowDecoration>) {
    !(GetFlag(flags, DecorationsFlag) && WdNoShadow in decorations)
  }

  /** On a stack never decorated, the shadow getter as written reads false and the intended one true. */
  lemma ShadowNeverDecoratedDiffers()
    ensures !GetDecoration(Shadow, Flags(0, {}), {})
    ensures ShadowIntended(Flags(0, {}), {})
  {
  }

  /** With the intended getter, the shadow reads back what was set. */
  lemma ShadowIntendedRoundTrip(flags: Flags, decorations: set<WindowDecoration>, setting: bool)
    ensures ShadowIntended(FlagsAfterDecoration(flags), DecorationsAfter(flags, decorations, Shadow, setting)) == setting
  {
    assert WdNoShadow in DecorationBits(Shadow);
  }

  // ---- collapseBox: the getter as written and as evidently intended ----

  /** As written, collapseBox reads WD_TITLE, which its setter never changes. */
  lemma CollapseBoxIgnoresSetting(flags: Flags, decorations: set<WindowDecoration>, setting: bool)
    ensures GetDecoration(CollapseBox, FlagsAfterDecoration(flags), DecorationsAfter(flags, decorations, CollapseBox, setting))
         == (WdTitle in BaseDecorations(flags, decorations))
  {
    assert WdTitle !in DecorationBits(CollapseBox);
  }

  /** The concrete failing round trip: on a fresh stack, clearing collapseBox still reads true. */
  lemma CollapseBoxRoundTripFails()
    ensures GetDecoration(CollapseBox, FlagsAfterDecoration(Flags(0, {})), DecorationsAfter(Flags(0, {}), {}, CollapseBox, false)) == true
  {
    assert WdTitle !in DecorationBits(CollapseBox);
  }

  /** The collapseBox getter reading the bit its setter writes. */
  predicate CollapseBoxIntended(flags: Flags, decorations: set<WindowDecoration>) {
    GetFlag(flags, DecorationsFlag) && WdMinimize in decorations
  }

  /** With the intended getter, collapseBox reads back what was set. */
  lemma CollapseBoxIntendedRoundTrip(flags: Flags, decorations: set<WindowDecoration>, setting: bool)
    ensures CollapseBoxIntended(FlagsAfterDecoration(flags), DecorationsAfter(flags, decorations, CollapseBox, setting)) == setting
  {
    assert WdMinimize in DecorationBits(CollapseBox);
  }

  // ---- window shape ----

  /** The word of a shaped window: WD_SHAPE, with the old no-shadow bit kept. */
  function ShapedMask(decorations: set<WindowDecoration>): set<WindowDecoration> {
    {WdShape} + (decorations * {WdNoShadow})
  }

  /**
   * The decorations word after SetWindowShape(shape): a nonzero shape leaves
   * only WD_SHAPE and the old no-shadow bit; a zero shape turns WD_SHAPE off.
   */
  function ShapeDecorations(decorations: set<WindowDecoration>, shape: uint32): (r: set<WindowDecoration>)
    ensures shape != 0 ==> WdShape in r && (WdNoShadow in r <==> WdNoShadow in decorations)
                           && r <= {WdShape, WdNoShadow}
    ensures shape == 0 ==> WdShape !in r && forall d :: d != WdShape ==> (d in r <==> d in decorations)
  {
    if shape != 0 then ShapedMask(decorations) else ChangeBits(decorations, {WdShape}, false)
  }

  /** The flags word after SetWindowShape(shape): F_DECORATIONS is on iff the shape is nonzero. */
  function ShapeFlags(flags: Flags, shape: uint32): (r: Flags)
    ensures GetFlag(r, DecorationsFlag) <==> shape != 0
    ensures forall g :: g != DecorationsFlag ==> (GetFlag(r, g) <==> GetFlag(flags, g))
    ensures r.style == flags.style
  {
    ChangeFlag(flags, DecorationsFlag, shape != 0)
  }

  /** A shaped window shows none of the title-bar decorations the getters report. */
  lemma ShapedWindowHasNoDecorations(which: DecorationProp, flags: Flags, decorations: set<WindowDecoration>, shape: uint32)
    requires HasGetter(which) && which != Shadow
    requires shape != 0
    ensures !GetDecoration(which, ShapeFlags(flags, shape), ShapeDecorations(decorations, shape))
  {
  }

  /**
   * Shaping and then unshaping a window keeps the no-shadow bit of its
   * decorations word. Only the word keeps it: unshaping clears
   * F_DECORATIONS, so the word is no longer in use (see the next lemma).
   */
  lemma ShapeKeepsNoShadow(decorations: set<WindowDecoration>, shape: uint32)
    ensures WdNoShadow in ShapeDecorations(ShapeDecorations(decorations, shape), 0) <==> WdNoShadow in decorations
  {
  }

  /**
   * After unshaping, the next decoration set on a property other than shadow
   * starts from the default word and so drops the no-shadow bit.
   */
  lemma UnshapedDecorationDropsNoShadow(flags: Flags, decorations: set<WindowDecoration>, which: DecorationProp, setting: bool)
    requires which != Shadow
    ensures WdNoShadow !in DecorationsAfter(ShapeFlags(flags, 0), ShapeDecorations(decorations, 0), which, setting)
  {
    assert WdNoShadow !in DecorationBits(which);
  }
}
