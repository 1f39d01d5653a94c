/**
 * The host side of the per-screen renderer (SnowRenderer): the particle
 * buffer's capacity, the throttled cache of the active window, the frame
 * clock and the uniform block.  The GPU is seen only through the commands
 * the renderer submits, in order; the clock, the window provider's answer
 * and the settings are inputs of each call.
 */
module SnowRendering {
  import opened Geometry
  import WindowInfo
  import AppSettings

  /** Seconds between two polls of the active window. */
  const WindowCheckInterval: real := 0.5

  /** The cache value meaning "no window to interact with". */
  const NoWindowRect: Rect := Rect(-1000.0, -1000.0, 0.0, 0.0)

  datatype Vec2 = Vec2(x: real, y: real)

  datatype Vec4 = Vec4(x: real, y: real, z: real, w: real)

  /** The pointer position meaning "no pointer over this screen". */
  const NoPointer: Vec2 := Vec2(-1000.0, -1000.0)

  /** SnowUniforms, the block both kernels read. */
  datatype Uniforms = Uniforms(
    screenSize: Vec2,
    mousePosition: Vec2,
    windowRect: Vec4,
    time: real,
    deltaTime: real,
    windStrength: real,
    minSize: real,
    maxSize: real,
    minSpeed: real,
    maxSpeed: real,
    isWindowInteractionEnabled: bool,
    particleCount: real)

  /** The work the renderer hands to the GPU. */
  datatype GpuCommand =
    | InitializeParticles(threads: int, uniforms: Uniforms)
    | UpdateParticles(threads: int, uniforms: Uniforms)
    | DrawPoints(vertexCount: int, uniforms: Uniforms)
    | Present

  /**
   * What one draw call meets: which resources the view and the command
   * queue hand out, the answer getActiveWindowRect would give, and the
   * readings of the media clock in the order draw takes them (inside the
   * reallocation, inside the window poll, for the frame clock, inside the
   * uniform builder).
   */
  datatype FrameInputs = FrameInputs(
    hasCommandBuffer: bool,
    hasDrawable: bool,
    hasRenderPassDescriptor: bool,
    hasInitCommandBuffer: bool,
    activeWindow: Option<Rect>,
    initNow: real,
    pollNow: real,
    frameNow: real,
    uniformNow: real)

  /** A poll is due once strictly more than the interval has passed. */
  predicate PollDue(now: real, lastCheck: real)
  {
    now - lastCheck > WindowCheckInterval
  }

  /**
   * The rectangle a due poll stores in the cache.  It never keeps a stale
   * rectangle: it is either the provider's rectangle or the sentinel, and it
   * overlaps the screen exactly when interaction is on and the provider
   * returned a rectangle overlapping it.
   */
  function PolledWindowRect(interaction: bool, active: Option<Rect>, screenRect: Rect): (r: Rect)
    ensures r == NoWindowRect || (active.Some? && r == active.value)
    ensures Intersects(screenRect, r) <==> interaction && active.Some? && Intersects(screenRect, active.value)
  {
    if interaction && active.Some? && Intersects(screenRect, active.value) then active.value
    else NoWindowRect
  }

  predicate NoInitialization(cmds: seq<GpuCommand>)
  {
    forall i :: 0 <= i < |cmds| ==> !cmds[i].InitializeParticles?
  }

  class SnowRenderer {
    const globalRect: Rect
    const screenRect: Rect
    /** MemoryLayout<Snowflake>.stride. */
    const snowflakeStride: nat
    /** Whether the update kernel's pipeline was created. */
    const computePipelineReady: bool
    /** Whether the initialization kernel's pipeline was created. */
    const initPipelineReady: bool

    var particleCount: int
    /** The length in bytes of the particle buffer. */
    var particleBufferLength: int
    var mousePosition: Vec2
    var screenSize: Vec2
    var cachedWindowRect: Rect
    var lastWindowCheckTime: real
    var lastDrawTime: real
    /** Every command submitted so far, oldest first. */
    var commands: seq<GpuCommand>
    /** How many particle buffers have been allocated so far. */
    ghost var allocations: nat

    /** The buffer always holds exactly particleCount particles. */
    predicate Valid()
      reads this
    {
      particleBufferLength == particleCount * snowflakeStride
    }

    /** All four guards of draw hold. */
    predicate FrameReady(f: FrameInputs)
      reads this
    {
      f.hasCommandBuffer && f.hasDrawable && f.hasRenderPassDescriptor && computePipelineReady
    }

    /**
     * makeCurrentUniforms: the cached window placed in this screen's own
     * space (converting its origin back gives the cached origin; its size is
     * the standardized size), the settings' tuning values and the particle
     * count.
     */
    function MakeCurrentUniforms(s: AppSettings.SettingsRecord, now: real): (u: Uniforms)
      reads this
      ensures WindowInfo.Uncast(globalRect, screenRect, Point(u.windowRect.x, u.windowRect.y)) ==
                cachedWindowRect.Origin()
      ensures u.windowRect.z == cachedWindowRect.Width() && u.windowRect.w == cachedWindowRect.Height()
      ensures u.windowRect.z >= 0.0 && u.windowRect.w >= 0.0
      ensures u.screenSize == screenSize && u.mousePosition == mousePosition
      ensures u.time == now && u.deltaTime == now - lastDrawTime
      ensures u.particleCount == particleCount as real
      ensures u.minSize == s.snowflakeSizeRange.lower && u.maxSize == s.snowflakeSizeRange.upper
      ensures u.minSpeed == s.snowflakeSpeedRange.lower && u.maxSpeed == s.snowflakeSpeedRange.upper
      ensures u.minSize <= u.maxSize && u.minSpeed <= u.maxSpeed
      ensures u.isWindowInteractionEnabled == s.windowInteraction && u.windStrength == s.windStrength
    {
      var origin := WindowInfo.Cast(globalRect, screenRect, cachedWindowRect.Origin());
      Uniforms(
        screenSize := screenSize,
        mousePosition := mousePosition,
        windowRect := Vec4(origin.x, origin.y, cachedWindowRect.Width(), cachedWindowRect.Height()),
        time := now,
        deltaTime := now - lastDrawTime,
        windStrength := s.windStrength,
        minSize := s.snowflakeSizeRange.lower,
        maxSize := s.snowflakeSizeRange.upper,
        minSpeed := s.snowflakeSpeedRange.lower,
        maxSpeed := s.snowflakeSpeedRange.upper,
        isWindowInteractionEnabled := s.windowInteraction,
        particleCount := particleCount as real)
    }

    /**
     * init: the field defaults (the frame clock starts at createdAt), the
     * screen size from the frame, then the first allocation.
     */
    constructor (screenRect: Rect, globalRect: Rect, snowflakeStride: nat,
                 computePipelineReady: bool, initPipelineReady: bool,
                 s: AppSettings.SettingsRecord, createdAt: real,
                 hasInitCommandBuffer: bool, initNow: real)
      ensures Valid()
      ensures this.screenRect == screenRect && this.globalRect == globalRect
      ensures this.snowflakeStride == snowflakeStride
      ensures this.computePipelineReady == computePipelineReady
      ensures this.initPipelineReady == initPipelineReady
      ensures particleCount == s.maxSnowflakes
      ensures mousePosition == NoPointer
      ensures screenSize == Vec2(screenRect.width, screenRect.height)
      ensures cachedWindowRect == Rect(0.0, 0.0, 0.0, 0.0)
      ensures lastWindowCheckTime == 0.0 && lastDrawTime == createdAt
      ensures allocations == 1
      ensures commands ==
                if initPipelineReady && hasInitCommandBuffer
                then [InitializeParticles(s.maxSnowflakes, MakeCurrentUniforms(s, initNow))]
                else []
    {
      this.globalRect := globalRect;
      this.screenRect := screenRect;
      this.snowflakeStride := snowflakeStride;
      this.computePipelineReady := computePipelineReady;
      this.initPipelineReady := initPipelineReady;
      particleCount := 0;
      particleBufferLength := 0;
      mousePosition := NoPointer;
      screenSize := Vec2(0.0, 0.0);
      cachedWindowRect := Rect(0.0, 0.0, 0.0, 0.0);
      lastWindowCheckTime := 0.0;
      lastDrawTime := createdAt;
      commands := [];
      allocations := 0;
      new;
      screenSize := Vec2(screenRect.width, screenRect.height);
      GenerateSnowflakes(s, hasInitCommandBuffer, initNow);
    }

    /**
     * generateSnowflakes: a buffer for the configured count, then one
     * initialization pass over it.
     */
    method GenerateSnowflakes(s: AppSettings.SettingsRecord, hasCommandBuffer: bool, now: real)
      modifies this`particleCount, this`particleBufferLength, this`commands, this`allocations
      ensures Valid()
      ensures allocations == old(allocations) + 1
      ensures particleCount == s.maxSnowflakes
      ensures particleBufferLength == s.maxSnowflakes * snowflakeStride
      ensures commands == old(commands) +
                if initPipelineReady && hasCommandBuffer
                then [InitializeParticles(s.maxSnowflakes, MakeCurrentUniforms(s, now))]
                else []
    {
      var maxSnowflakes := s.maxSnowflakes;
      particleCount := maxSnowflakes;
      particleBufferLength := maxSnowflakes * snowflakeStride;
      allocations := allocations + 1;
      InitializeParticlesOnGPU(s, hasCommandBuffer, now);
    }

    /**
     * initializeParticlesOnGPU: without a command buffer or an
     * initialization pipeline nothing is submitted; otherwise one thread per
     * particle, waited for.
     */
    method InitializeParticlesOnGPU(s: AppSettings.SettingsRecord, hasCommandBuffer: bool, now: real)
      modifies this`commands
      ensures commands == old(commands) +
                if initPipelineReady && hasCommandBuffer
                then [InitializeParticles(particleCount, MakeCurrentUniforms(s, now))]
                else []
    {
      if !hasCommandBuffer || !initPipelineReady {
        return;
      }
      var uniforms := MakeCurrentUniforms(s, now);
      commands := commands + [InitializeParticles(particleCount, uniforms)];
    }

    /**
     * updateActiveWindowRect: at most once per interval, replace the cache
     * by the provider's rectangle or by the sentinel.
     */
    method UpdateActiveWindowRect(s: AppSettings.SettingsRecord, now: real, activeWindow: Option<Rect>)
      modifies this`cachedWindowRect, this`lastWindowCheckTime
      ensures !PollDue(now, old(lastWindowCheckTime)) ==>
                cachedWindowRect == old(cachedWindowRect) && lastWindowCheckTime == old(lastWindowCheckTime)
      ensures PollDue(now, old(lastWindowCheckTime)) ==>
                lastWindowCheckTime == now &&
                cachedWindowRect == PolledWindowRect(s.windowInteraction, activeWindow, screenRect)
    {
      var currentTime := now;
      if currentTime - lastWindowCheckTime > WindowCheckInterval {
        if s.windowInteraction && activeWindow.Some? && Intersects(screenRect, activeWindow.value) {
          cachedWindowRect := activeWindow.value;
        } else {
          cachedWindowRect := NoWindowRect;
        }
        lastWindowCheckTime := currentTime;
      }
    }

    /** drawableSizeWillChange. */
    method DrawableSizeWillChange(width: real, height: real)
      modifies this`screenSize
      ensures screenSize == Vec2(width, height)
    {
      screenSize := Vec2(width, height);
    }

    /**
     * draw: skip the frame when a resource is missing; otherwise reallocate
     * if the configured count changed, poll the window, advance the frame
     * clock, then submit the update pass, the point draw and the present.
     */
    method Draw(s: AppSettings.SettingsRecord, f: FrameInputs)
      requires Valid()
      modifies this
      ensures Valid()
      ensures !FrameReady(f) ==>
                particleCount == old(particleCount) && particleBufferLength == old(particleBufferLength) &&
                cachedWindowRect == old(cachedWindowRect) && lastWindowCheckTime == old(lastWindowCheckTime) &&
                lastDrawTime == old(lastDrawTime) && commands == old(commands)
      ensures mousePosition == old(mousePosition) && screenSize == old(screenSize)
      ensures FrameReady(f) ==> particleCount == s.maxSnowflakes
      ensures allocations == old(allocations) + if FrameReady(f) && old(particleCount) != s.maxSnowflakes then 1 else 0
      ensures FrameReady(f) && old(particleCount) == s.maxSnowflakes ==>
                particleBufferLength == old(particleBufferLength)
      ensures FrameReady(f) && !PollDue(f.pollNow, old(lastWindowCheckTime)) ==>
                cachedWindowRect == old(cachedWindowRect) && lastWindowCheckTime == old(lastWindowCheckTime)
      ensures FrameReady(f) && PollDue(f.pollNow, old(lastWindowCheckTime)) ==>
                lastWindowCheckTime == f.pollNow &&
                cachedWindowRect == PolledWindowRect(s.windowInteraction, f.activeWindow, screenRect)
      ensures FrameReady(f) ==> lastDrawTime == f.frameNow
      ensures FrameReady(f) ==>
                var u := MakeCurrentUniforms(s, f.uniformNow).(deltaTime := f.frameNow - old(lastDrawTime));
                var frame := [UpdateParticles(particleCount, u), DrawPoints(particleCount, u), Present];
                if old(particleCount) != s.maxSnowflakes && initPipelineReady && f.hasInitCommandBuffer
                then commands == old(commands) +
                       [InitializeParticles(particleCount,
                          old(MakeCurrentUniforms(s, f.initNow)).(particleCount := s.maxSnowflakes as real))] +
                       frame
                else commands == old(commands) + frame
    {
      if !(f.hasCommandBuffer && f.hasDrawable && f.hasRenderPassDescriptor && computePipelineReady) {
        return;
      }
      if particleCount != s.maxSnowflakes {
        GenerateSnowflakes(s, f.hasInitCommandBuffer, f.initNow);
      }
      UpdateActiveWindowRect(s, f.pollNow, f.activeWindow);

      var currentTime := f.frameNow;
      var deltaTime := currentTime - lastDrawTime;
      lastDrawTime := currentTime;

      var uniforms := MakeCurrentUniforms(s, f.uniformNow);
      uniforms := uniforms.(deltaTime := deltaTime);

      commands := commands + [UpdateParticles(particleCount, uniforms)];
      commands := commands + [DrawPoints(particleCount, uniforms)];
      commands := commands + [Present];
    }
  }

  /**
   * Two ready frames with the same settings: the first one ends after its
   * update pass, point draw and present (preceded by an initialization pass
   * only when it had to reallocate); the second one allocates nothing,
   * submits no initialization pass and keeps the buffer.
   */
  method DrawTwice(r: SnowRenderer, s: AppSettings.SettingsRecord, f1: FrameInputs, f2: FrameInputs)
    returns (firstEnd: int, firstBufferLength: int)
    requires r.Valid() && r.FrameReady(f1) && r.FrameReady(f2)
    modifies r
    ensures r.Valid() && r.particleCount == s.maxSnowflakes
    ensures firstEnd == |old(r.commands)| + 3 +
              if old(r.particleCount) != s.maxSnowflakes && r.initPipelineReady && f1.hasInitCommandBuffer then 1 else 0
    ensures |r.commands| == firstEnd + 3 && NoInitialization(r.commands[firstEnd..])
    ensures r.commands[..|old(r.commands)|] == old(r.commands)
    ensures r.commands[firstEnd - 1] == Present
    ensures r.commands[|r.commands| - 1] == Present
    ensures r.allocations == old(r.allocations) + if old(r.particleCount) != s.maxSnowflakes then 1 else 0
    ensures r.particleBufferLength == firstBufferLength == s.maxSnowflakes * r.snowflakeStride
  {
    r.Draw(s, f1);
    firstEnd := |r.commands|;
    firstBufferLength := r.particleBufferLength;
    r.Draw(s, f2);
  }
}
