/**
 * The compositor of a stack's tile cache: MCStack::SetCompositorType turns
 * the requested type into a concrete one, rejects it when the platform does
 * not support it, and otherwise releases, creates or retargets the tile
 * cache. Which compositors the platform supports is a parameter.
 */
module Compositing {
  import opened Defs

  /** MCTileCacheCompositorType, in declaration order. */
  datatype CompositorType =
    | NoCompositor | Software | CoreGraphics | OpenGL | StaticOpenGL | DynamicOpenGL

  /** The parts of a tile cache the stack can observe. */
  datatype TileCache = TileCache(tileSize: nat, cacheLimit: nat, compositor: CompositorType)

  /** The tile size and cache limit a new tile cache is created with. */
  const TILE_SIZE: nat := 32
  const CACHE_LIMIT: nat := 4096 * 1024

  /**
   * The compositor a request resolves to: nil means none, the generic OpenGL
   * request becomes dynamic OpenGL where supported and static OpenGL
   * otherwise, and every other request stands for itself.
   */
  function Resolve(request: Option<CompositorType>, supported: CompositorType -> bool): (t: CompositorType)
    ensures t != OpenGL
    ensures request == None ==> t == NoCompositor
    ensures request == Some(OpenGL) && supported(DynamicOpenGL) ==> t == DynamicOpenGL
    ensures request == Some(OpenGL) && !supported(DynamicOpenGL) ==> t == StaticOpenGL
    ensures request.Some? && request.value != OpenGL ==> t == request.value
  {
    match request
    case None => NoCompositor
    case Some(OpenGL) => if supported(DynamicOpenGL) then DynamicOpenGL else StaticOpenGL
    case Some(t) => t
  }

  /** Resolving is idempotent: a resolved type resolves to itself. */
  lemma ResolveIdempotent(request: Option<CompositorType>, supported: CompositorType -> bool)
    ensures Resolve(Some(Resolve(request, supported)), supported) == Resolve(request, supported)
  {
  }
}
