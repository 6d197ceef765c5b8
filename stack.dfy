/**
 * The stack object (MCStack) and the property setters and getters of
 * exec-interface-stack.cpp that update or read its fields. Each setter is a
 * method that changes the fields its `modifies` clause names, step by step
 * as the source does; each getter is a function of the fields.
 *
 * Calls into the window system and the rest of the engine (reopening the
 * window, size hints, redraws, the id-changed message, flushing parent
 * scripts, ...) are not modelled; each is recorded in the ghost log
 * `effects`, so the contracts still say when they happen. Facts the setters
 * take from parts of the engine outside this model (whether the stack is
 * keyed, whether the dispatcher's cut succeeds, which compositors the
 * platform supports, whether a new window mask could be built) are
 * parameters.
 */
module StackObject {
  import opened Defs
  import opened Decorations
  import opened Styles
  import opened StackFiles
  import opened Names
  import opened Compositing

  /** MCRectangle. */
  datatype Rect = Rect(x: int, y: int, width: int, height: int)

  /** A rectangle with a positive width and height, the only kind fullscreen restores. */
  predicate NonDegenerate(r: Rect) {
    r.width > 0 && r.height > 0
  }

  /** The calls into the window system and the engine that the setters make. */
  datatype Effect =
    | ReopenWindow | SetHints | SetGeometry | RedrawIcon | DirtyWindowName | DirtyAll
    | IdChanged(oldId: uint32, newId: uint32) | FlushParentScripts
    | StopEdit | ResetCursor | RaiseStack | DispatcherCut

  class Stack {
    var flags: Flags
    var decorations: set<WindowDecoration>
    var minwidth: uint32
    var maxwidth: uint32
    var minheight: uint32
    var maxheight: uint32
    var id: uint32
    var name: string
    /** The extended-state bit ECS_HAS_PARENTSCRIPTS. */
    var hasParentScripts: bool
    /** The window label; None is a nil title. */
    var title: Option<string>
    /** The extended-state bit ECS_FULLSCREEN. */
    var fullscreen: bool
    var rect: Rect
    var oldRect: Rect
    var windowShapeId: uint32
    /** Whether the stack holds a window mask (m_window_shape != NULL). */
    var hasWindowMask: bool
    /** The stackfiles array; its length is nstackfiles. */
    var stackfiles: seq<StackFile>
    var iconId: uint32
    /** The state bits CS_ICONIC and CS_TRANSLATED. */
    var iconic: bool
    var translated: bool
    /** The field `opened`: how many times the stack is open; zero when closed. */
    var openCount: nat
    /** The current window mode. */
    var mode: int
    /** The tile cache; None is a nil m_tilecache. */
    var tileCache: Option<TileCache>
    var deferUpdates: bool
    /** The window-system and engine calls made so far, in order. */
    ghost var effects: seq<Effect>

    // ---- fullscreen ----

    method SetFullscreen(setting: bool)
      modifies this`fullscreen, this`rect, this`oldRect, this`effects
      ensures fullscreen == setting
      ensures old(fullscreen) == setting ==>
        rect == old(rect) && oldRect == old(oldRect) && effects == old(effects)
      ensures old(fullscreen) != setting && setting ==>
        oldRect == old(rect) && rect == old(rect)
      ensures old(fullscreen) != setting && !setting ==>
        oldRect == old(oldRect) && rect == (if NonDegenerate(old(oldRect)) then old(oldRect) else old(rect))
      ensures old(fullscreen) != setting ==>
        effects == old(effects) + (if openCount > 0 then [ReopenWindow] else [])
    {
      if fullscreen != setting {
        fullscreen := setting;
        if setting {
          oldRect := rect;
        } else if oldRect.width > 0 && oldRect.height > 0 {
          rect := oldRect;
        }
        if openCount > 0 {
          effects := effects + [ReopenWindow];
        }
      }
    }

    /**
     * Entering fullscreen, having the window resized to `during`, and leaving
     * fullscreen again: a window whose rectangle was non-degenerate gets that
     * rectangle back; any other keeps the rectangle it had in fullscreen.
     */
    method ToggleFullscreen(during: Rect)
      requires !fullscreen
      modifies this`fullscreen, this`rect, this`oldRect, this`effects
      ensures !fullscreen && oldRect == old(rect)
      ensures NonDegenerate(old(rect)) ==> rect == old(rect)
      ensures !NonDegenerate(old(rect)) ==> rect == during
      ensures effects == old(effects) + (if openCount > 0 then [ReopenWindow, ReopenWindow] else [])
    {
      SetFullscreen(true);
      rect := during;
      SetFullscreen(false);
    }

    // ---- name, label, id ----

    method SetName(requested: string)
      modifies this`name, this`hasParentScripts, this`effects
      ensures name == NormaliseName(requested)
      ensures hasParentScripts == (old(hasParentScripts) && SameName(name, old(name)))
      ensures effects == old(effects) + [DirtyWindowName]
        + (if old(hasParentScripts) && !SameName(name, old(name)) then [FlushParentScripts] else [])
    {
      var hadParentScripts := hasParentScripts;
      var oldName := name;
      var replaced := ReplaceChar(requested, ',', '_');
      if |replaced| == 0 {
        name := UNTITLED;
      } else {
        name := replaced;
      }
      effects := effects + [DirtyWindowName];
      if hadParentScripts && !SameName(name, oldName) {
        effects := effects + [FlushParentScripts];
        hasParentScripts := false;
      }
    }

    /**
     * SetLabel: `converted` is whether the native-to-UTF-8 conversion of a
     * non-nil label succeeds. The old title is dropped first; on a failed
     * conversion the title stays nil while F_TITLE keeps its old value.
     */
    method SetLabel(newLabel: Option<string>, converted: bool) returns (err: Option<ExecError>)
      modifies this`title, this`flags, this`effects
      ensures err == (if newLabel.Some? && !converted then Some(LabelNotConverted) else None)
      ensures title == (if err.None? then newLabel else None)
      ensures flags == (if err.None? then ChangeFlag(old(flags), TitleFlag, newLabel.Some?) else old(flags))
      ensures err.None? ==> (GetFlag(flags, TitleFlag) <==> title.Some?)
      ensures effects == old(effects) + (if err.None? then [DirtyWindowName] else [])
    {
      title := None;
      var success := true;
      if newLabel.Some? {
        success := converted;
        if success {
          title := newLabel;
          flags := ChangeFlag(flags, TitleFlag, true);
        }
      } else {
        flags := ChangeFlag(flags, TitleFlag, false);
      }
      if success {
        effects := effects + [DirtyWindowName];
        return None;
      }
      return Some(LabelNotConverted);
    }

    method SetId(newId: uint32) returns (err: Option<ExecError>)
      modifies this`id, this`effects
      ensures err == (if newId < old(id) then Some(StackBadId) else None)
      ensures id == (if newId < old(id) then old(id) else newId)
      ensures old(id) <= id
      ensures effects == old(effects) + (if newId > old(id) then [IdChanged(old(id), newId)] else [])
    {
      if newId < id {
        return Some(StackBadId);
      }
      if id != newId {
        var oldId := id;
        id := newId;
        effects := effects + [IdChanged(oldId, id)];
      }
      return None;
    }

    // ---- size bounds ----

    /** The size-hint and geometry calls an open stack makes when a bound changes. */
    ghost function SizeEffects(): seq<Effect>
      reads this
    {
      if openCount > 0 then [SetHints, SetGeometry] else []
    }

    method SetMinWidth(width: uint32)
      modifies this`minwidth, this`maxwidth, this`effects
      ensures minwidth == width
      ensures maxwidth == (if old(maxwidth) < width then width else old(maxwidth))
      ensures minwidth <= maxwidth
      ensures effects == old(effects) + SizeEffects()
    {
      minwidth := width;
      if minwidth > maxwidth {
        maxwidth := minwidth;
      }
      if openCount > 0 {
        effects := effects + [SetHints, SetGeometry];
      }
    }

    method SetMaxWidth(width: uint32)
      modifies this`minwidth, this`maxwidth, this`effects
      ensures maxwidth == width
      ensures minwidth == (if old(minwidth) > width then width else old(minwidth))
      ensures minwidth <= maxwidth
      ensures effects == old(effects) + SizeEffects()
    {
      maxwidth := width;
      if minwidth > maxwidth {
        minwidth := maxwidth;
      }
      if openCount > 0 {
        effects := effects + [SetHints, SetGeometry];
      }
    }

    method SetMinHeight(height: uint32)
      modifies this`minheight, this`maxheight, this`effects
      ensures minheight == height
      ensures maxheight == (if old(maxheight) < height then height else old(maxheight))
      ensures minheight <= maxheight
      ensures effects == old(effects) + SizeEffects()
    {
      minheight := height;
      if minheight > maxheight {
        maxheight := minheight;
      }
      if openCount > 0 {
        effects := effects + [SetHints, SetGeometry];
      }
    }

    method SetMaxHeight(height: uint32)
      modifies this`minheight, this`maxheight, this`effects
      ensures maxheight == height
      ensures minheight == (if old(minheight) > height then height else old(minheight))
      ensures minheight <= maxheight
      ensures effects == old(effects) + SizeEffects()
    {
      maxheight := height;
      if minheight > maxheight {
        minheight := maxheight;
      }
      if openCount > 0 {
        effects := effects + [SetHints, SetGeometry];
      }
    }

    // ---- decorations ----

    /** The reopen call an open stack makes after a window property changes. */
    ghost function ReopenEffects(): seq<Effect>
      reads this
    {
      if openCount > 0 then [ReopenWindow] else []
    }

    method SetDecoration(which: DecorationProp, setting: bool)
      modifies this`flags, this`decorations, this`effects
      ensures flags == FlagsAfterDecoration(old(flags))
      ensures decorations == DecorationsAfter(old(flags), old(decorations), which, setting)
      ensures RoundTrips(which) ==> Decoration(which) == setting
      ensures effects == old(effects) + ReopenEffects()
    {
      if !GetFlag(flags, DecorationsFlag) {
        decorations := DEFAULT_DECORATIONS;
      }
      assert decorations == BaseDecorations(old(flags), old(decorations));
      flags := ChangeFlag(flags, DecorationsFlag, true);
      decorations := ChangeBits(decorations, DecorationBits(which), BitOn(which, setting));
      if RoundTrips(which) {
        DecorationRoundTrip(which, old(flags), old(decorations), setting);
      }
      if openCount > 0 {
        effects := effects + [ReopenWindow];
      }
    }

    /** The decoration getters (closeBox, zoomBox, ..., shadow) on this stack. */
    predicate Decoration(which: DecorationProp): (r: bool)
      reads this
      requires HasGetter(which)
      ensures r ==> ((which == Shadow) != GetFlag(flags, DecorationsFlag))
    {
      GetDecoration(which, flags, decorations)
    }

    method SetWindowShape(shape: uint32, newMaskBuilt: bool)
      modifies this`windowShapeId, this`decorations, this`flags, this`effects
      ensures windowShapeId == shape
      ensures decorations == ShapeDecorations(old(decorations), shape)
      ensures flags == ShapeFlags(old(flags), shape)
      ensures shape != 0 ==> forall w :: HasGetter(w) && w != Shadow ==> !Decoration(w)
      ensures shape != 0 && hasWindowMask && newMaskBuilt ==> effects == old(effects) + [DirtyAll]
      ensures !(shape != 0 && hasWindowMask && newMaskBuilt) ==>
        effects == old(effects) + ReopenEffects() + (if openCount > 0 && hasWindowMask then [DirtyAll] else [])
    {
      windowShapeId := shape;
      if windowShapeId != 0 {
        decorations := ShapedMask(decorations);
        flags := ChangeFlag(flags, DecorationsFlag, true);
        forall w | HasGetter(w) && w != Shadow
          ensures !Decoration(w)
        {
          ShapedWindowHasNoDecorations(w, old(flags), old(decorations), shape);
        }
        if hasWindowMask && newMaskBuilt {
          effects := effects + [DirtyAll];
          return;
        }
      } else {
        decorations := ChangeBits(decorations, {WdShape}, false);
        flags := ChangeFlag(flags, DecorationsFlag, false);
      }
      if openCount > 0 {
        effects := effects + [ReopenWindow];
        if hasWindowMask {
          effects := effects + [DirtyAll];
        }
      }
    }

    // ---- style ----

    method SetStyle(style: StackStyle)
      modifies this`flags, this`mode, this`effects
      ensures flags == SetStyleFlags(old(flags), style)
      ensures GetStyle() == (if style == Palette || style == Modeless then style else Modal)
      ensures mode == (if openCount > 0 then WM_TOP_LEVEL else old(mode))
      ensures effects == old(effects) + ReopenEffects()
    {
      flags := flags.(style := 0);
      match style {
        case Palette => flags := flags.(style := StyleField(WM_PALETTE));
        case Modeless => flags := flags.(style := StyleField(WM_MODELESS));
        case _ => flags := flags.(style := StyleField(WM_MODAL));
      }
      if openCount > 0 {
        mode := WM_TOP_LEVEL;
        effects := effects + [ReopenWindow];
      }
    }

    /**
     * GetStyle: the style field plus WM_TOP_LEVEL_LOCKED is returned when it is
     * one of the five non-top-level modes, top level otherwise.
     */
    function GetStyle(): (s: StackStyle)
      reads this
      ensures s != TopLevel ==> ModeOf(s) == flags.style + WM_TOP_LEVEL_LOCKED
      ensures s == TopLevel <==>
        flags.style + WM_TOP_LEVEL_LOCKED !in {WM_MODELESS, WM_PALETTE, WM_MODAL, WM_SHEET, WM_DRAWER}
    {
      StyleOf(flags)
    }

    // ---- cantModify, icon ----

    /** GetCantModify: the F_CANT_MODIFY bit of the flags word. */
    predicate CantModify(): (r: bool)
      reads this
      ensures r <==> CantModifyFlag in flags.bits
    {
      GetFlag(flags, CantModifyFlag)
    }

    /**
     * SetCantModify: `keyed` is whether the stack's script is unlocked
     * (iskeyed), `cutSucceeds` what the dispatcher's cut returns when it is
     * asked.
     */
    method SetCantModify(setting: bool, keyed: bool, cutSucceeds: bool) returns (err: Option<ExecError>)
      modifies this`flags, this`mode, this`effects
      ensures err == (if old(CantModify()) != setting && openCount > 0 && !keyed then Some(StackNoKey) else None)
      ensures err.Some? ==> flags == old(flags) && mode == old(mode) && effects == old(effects)
      ensures err.None? ==> flags == ChangeFlag(old(flags), CantModifyFlag, setting)
      ensures CantModify() == (if err.None? then setting else old(CantModify()))
      ensures err.None? && old(CantModify()) != setting && openCount > 0
              && (old(mode) == WM_TOP_LEVEL || old(mode) == WM_TOP_LEVEL_LOCKED) ==>
        mode == (if setting || !cutSucceeds then WM_TOP_LEVEL_LOCKED else WM_TOP_LEVEL)
        && effects == old(effects) + (if setting then [] else [DispatcherCut])
                      + [StopEdit, DirtyWindowName, ResetCursor, RaiseStack]
      ensures err.None? && old(CantModify()) != setting && openCount > 0
              && old(mode) != WM_TOP_LEVEL && old(mode) != WM_TOP_LEVEL_LOCKED ==>
        mode == old(mode) && effects == old(effects) + [StopEdit, DirtyWindowName, ResetCursor, RaiseStack]
      ensures (old(CantModify()) == setting || openCount == 0) ==> mode == old(mode) && effects == old(effects)
    {
      var changed := GetFlag(flags, CantModifyFlag) != setting;
      flags := ChangeFlag(flags, CantModifyFlag, setting);
      if changed && openCount > 0 {
        if !keyed {
          ToggleUndoesChange(old(flags), CantModifyFlag, setting);
          flags := ToggleFlag(flags, CantModifyFlag);
          return Some(StackNoKey);
        }
        if mode == WM_TOP_LEVEL || mode == WM_TOP_LEVEL_LOCKED {
          if GetFlag(flags, CantModifyFlag) {
            mode := WM_TOP_LEVEL_LOCKED;
          } else {
            effects := effects + [DispatcherCut];
            mode := if cutSucceeds then WM_TOP_LEVEL else WM_TOP_LEVEL_LOCKED;
          }
        }
        effects := effects + [StopEdit, DirtyWindowName, ResetCursor, RaiseStack];
      }
      return None;
    }

    method SetIcon(newId: uint32)
      modifies this`iconId, this`effects
      ensures iconId == (if openCount > 0 then newId else old(iconId))
      ensures effects == old(effects)
        + (if openCount > 0 && old(iconId) != newId && iconic then [RedrawIcon] else [])
    {
      if openCount > 0 && iconId != newId {
        iconId := newId;
        if iconic {
          effects := effects + [RedrawIcon];
        }
      }
    }

    // ---- stack files ----

    method SetStackFiles(files: string)
      modifies this`stackfiles, this`flags
      ensures stackfiles == Parse(files)
      ensures flags == ChangeFlag(old(flags), StackFilesFlag, |stackfiles| != 0)
      ensures GetFlag(flags, StackFilesFlag) <==> |stackfiles| != 0
    {
      stackfiles := ParseStackFiles(files);
      if |stackfiles| != 0 {
        flags := ChangeFlag(flags, StackFilesFlag, true);
      } else {
        flags := ChangeFlag(flags, StackFilesFlag, false);
      }
    }

    method GetStackFiles() returns (files: string)
      ensures files == Format(stackfiles)
    {
      files := [];
      var i := 0;
      while i < |stackfiles|
        invariant 0 <= i <= |stackfiles|
        invariant files == Format(stackfiles[..i])
      {
        FormatSnoc(stackfiles[..i], stackfiles[i]);
        assert stackfiles[..i + 1] == stackfiles[..i] + [stackfiles[i]];
        if i > 0 {
          files := files + ['\n'];
        }
        files := files + FormatEntry(stackfiles[i]);
        i := i + 1;
      }
      assert stackfiles[..i] == stackfiles;
    }

    // ---- compositor, deferred updates, charset ----

    /**
     * SetCompositorType: `supported` says which compositors the platform's
     * tile cache supports (MCTileCacheSupportsCompositor).
     */
    method SetCompositorType(request: Option<CompositorType>, supported: CompositorType -> bool)
      returns (err: Option<ExecError>)
      modifies this`tileCache, this`effects
      ensures err == (if supported(Resolve(request, supported)) then None else Some(CompositorNotSupported))
      ensures err.Some? ==> tileCache == old(tileCache) && effects == old(effects)
      ensures err.None? && Resolve(request, supported) == NoCompositor ==> tileCache == None
      ensures err.None? && Resolve(request, supported) != NoCompositor ==>
        tileCache.Some? && tileCache.value.compositor == Resolve(request, supported)
        && (old(tileCache).Some? ==> tileCache == Some(old(tileCache).value.(compositor := Resolve(request, supported))))
        && (old(tileCache).None? ==> tileCache == Some(TileCache(TILE_SIZE, CACHE_LIMIT, Resolve(request, supported))))
      ensures err.None? ==> effects == old(effects) + [DirtyAll]
      ensures GetCompositor() == if err.Some? then old(GetCompositor())
        else if Resolve(request, supported) == NoCompositor then None
        else Some(Resolve(request, supported))
      ensures err.None? ==> (EffectiveDeferScreenUpdates() <==> deferUpdates && Resolve(request, supported) != NoCompositor)
    {
      var t: CompositorType;
      if request == None {
        t := NoCompositor;
      } else if request.value == OpenGL {
        if supported(DynamicOpenGL) {
          t := DynamicOpenGL;
        } else {
          t := StaticOpenGL;
        }
      } else {
        t := request.value;
      }
      if !supported(t) {
        return Some(CompositorNotSupported);
      }
      if t == NoCompositor {
        tileCache := None;
      } else {
        if tileCache == None {
          tileCache := Some(TileCache(TILE_SIZE, CACHE_LIMIT, NoCompositor));
        }
        tileCache := Some(tileCache.value.(compositor := t));
      }
      effects := effects + [DirtyAll];
      return None;
    }

    /** GetCompositorType: the tile cache's compositor, nil without a tile cache. */
    function GetCompositor(): (r: Option<CompositorType>)
      reads this
      ensures r.Some? <==> tileCache.Some?
      ensures r.Some? ==> r.value == tileCache.value.compositor
    {
      if tileCache.Some? then Some(tileCache.value.compositor) else None
    }

    /** Updates are deferred only when asked for and a tile cache exists. */
    predicate EffectiveDeferScreenUpdates(): (deferred: bool)
      reads this
      ensures deferred ==> deferUpdates
      ensures deferred <==> deferUpdates && GetCompositor() != None
    {
      deferUpdates && tileCache.Some?
    }

    /**
     * GetCharset: 0 (ISO) or 1 (MacOS). On Mac an untranslated stack is in
     * the Mac character set; elsewhere a translated one is.
     */
    function GetCharset(onMac: bool): (charset: int)
      reads this
      ensures charset == 0 || charset == 1
      ensures charset == 1 <==> translated != onMac
    {
      if onMac then (if translated then 0 else 1) else (if translated then 1 else 0)
    }
  }
}
