/**
 * One mounted particle background: the canvas size, the particle array the
 * effect owns, the animation-frame handle, the debounce timer of the resize
 * listener and the cleanup that runs on unmount. The host's timers and frame
 * callbacks are modelled as the sets of handles that are scheduled and have
 * neither run nor been cancelled; time itself is not modelled, a callback
 * runs when the host calls the matching event method.
 */
module ParticleEngine {
  import opened Wrappers
  import opened ParticleField

  datatype Phase = Uninitialized | Running | Stopped

  function HandleSet(h: Option<nat>): set<nat>
  {
    if h.Some? then {h.value} else {}
  }

  class Engine {
    const cfg: EngineConfig
    var phase: Phase
    /** `canvas.width` and `canvas.height` */
    var width: nat
    var height: nat
    var particles: seq<Particle>
    /** `animId`: the frame requested last */
    var animId: nat
    /** `resizeTimeoutRef.current`: the debounce timer armed last */
    var resizeTimeout: Option<nat>
    /** the window resize listener is registered */
    var listening: bool
    /** frames and timers scheduled with the host that have neither run nor been cancelled */
    var pendingFrames: set<nat>
    var pendingTimers: set<nat>
    /** the host's next fresh handle */
    var nextHandle: nat

    ghost predicate Valid()
      reads this
    {
      && ValidConfig(cfg)
      && AllWellFormed(cfg, particles, width, height)
      && pendingFrames <= {animId}
      && pendingTimers <= HandleSet(resizeTimeout)
      && animId < nextHandle
      && (resizeTimeout.Some? ==> resizeTimeout.value < nextHandle)
      && (phase == Uninitialized ==> pendingFrames == {} && pendingTimers == {} && !listening)
      && (phase == Running ==> listening && pendingFrames == {animId})
      && (phase == Stopped ==> pendingFrames == {} && pendingTimers == {} && !listening)
    }

    /** At most one debounce timer and one animation frame are ever pending. */
    lemma AtMostOnePending()
      requires Valid()
      ensures |pendingTimers| <= 1 && |pendingFrames| <= 1
    {
      if animId in pendingFrames {
        assert pendingFrames == {animId};
      } else {
        assert pendingFrames == {};
      }
      if resizeTimeout.Some? && resizeTimeout.value in pendingTimers {
        assert pendingTimers == {resizeTimeout.value};
      } else {
        assert pendingTimers == {};
      }
    }

    constructor (cfg: EngineConfig)
      requires ValidConfig(cfg)
      ensures Valid() && this.cfg == cfg && phase == Uninitialized
      ensures particles == [] && resizeTimeout == None
    {
      this.cfg := cfg;
      phase := Uninitialized;
      width, height := 0, 0;
      particles := [];
      animId := 0;
      resizeTimeout := None;
      listening := false;
      pendingFrames, pendingTimers := {}, {};
      nextHandle := 1;
    }

    /** `resize()`: the canvas takes the viewport's size. */
    method Resize(viewportWidth: nat, viewportHeight: nat)
      modifies this`width, this`height
      ensures width == viewportWidth && height == viewportHeight
    {
      width := viewportWidth;
      height := viewportHeight;
    }

    /**
     * `initParticles()`: truncate the array, then push one fresh particle per
     * draw, as many as the density tier of the viewport width asks for. No
     * earlier particle survives.
     */
    method InitParticles(viewportWidth: nat, draws: seq<Draws>)
      requires ValidConfig(cfg)
      requires ParticleCount(viewportWidth) <= |draws| && ValidDrawSeq(draws)
      modifies this`particles
      ensures particles == SpawnAll(cfg, width, height, draws[..ParticleCount(viewportWidth)])
      ensures |particles| == ParticleCount(viewportWidth)
      ensures AllWellFormed(cfg, particles, width, height)
    {
      particles := [];
      var count := ParticleCount(viewportWidth);
      var i := 0;
      while i < count
        invariant 0 <= i <= count
        invariant particles == SpawnAll(cfg, width, height, draws[..i])
      {
        assert draws[..i + 1] == draws[..i] + [draws[i]];
        particles := particles + [Spawn(cfg, width, height, draws[i])];
        i := i + 1;
      }
    }

    /** The move-and-wrap loop of one frame; only positions are written. */
    method Advance()
      modifies this`particles
      ensures particles == Advanced(old(particles), width, height)
    {
      var k := 0;
      while k < |particles|
        invariant 0 <= k <= |particles| == |old(particles)|
        invariant forall m :: 0 <= m < k ==> particles[m] == Moved(old(particles)[m], width, height)
        invariant forall m :: k <= m < |particles| ==> particles[m] == old(particles)[m]
      {
        var p := particles[k];
        var x := p.x + p.vx;
        var y := p.y + p.vy;
        if x < 0.0 { x := width as real; }
        if x > width as real { x := 0.0; }
        if y < 0.0 { y := height as real; }
        if y > height as real { y := 0.0; }
        particles := particles[k := p.(x := x, y := y)];
        k := k + 1;
      }
    }

    /**
     * `draw()`: move every particle, find the links on the moved positions
     * and request the next frame.
     */
    method Draw() returns (links: seq<Link>)
      requires ValidConfig(cfg) && AllWellFormed(cfg, particles, width, height)
      modifies this`particles, this`animId, this`pendingFrames, this`nextHandle
      ensures particles == Advanced(old(particles), width, height)
      ensures AllWellFormed(cfg, particles, width, height)
      ensures links == FrameLinks(particles)
      ensures animId == old(nextHandle) && nextHandle == old(nextHandle) + 1
      ensures pendingFrames == old(pendingFrames) + {animId}
    {
      AdvancePreservesWellFormed(cfg, particles, width, height);
      Advance();
      links := ComputeLinks(particles);
      animId := nextHandle;
      pendingFrames := pendingFrames + {animId};
      nextHandle := nextHandle + 1;
    }

    /**
     * The mount effect. Without a canvas or a 2D context it returns before
     * doing anything (and registers no cleanup). Otherwise it sizes the
     * canvas, fills the particles, registers the resize listener and draws
     * the first frame at once.
     */
    method Mount(surface: bool, viewportWidth: nat, viewportHeight: nat, draws: seq<Draws>)
      returns (links: seq<Link>)
      requires Valid() && phase == Uninitialized
      requires ParticleCount(viewportWidth) <= |draws| && ValidDrawSeq(draws)
      modifies this
      ensures Valid()
      ensures !surface ==> unchanged(this) && links == []
      ensures surface ==> && phase == Running && listening
                          && width == viewportWidth && height == viewportHeight
                          && particles == Advanced(SpawnAll(cfg, width, height, draws[..ParticleCount(viewportWidth)]), width, height)
                          && |particles| == ParticleCount(viewportWidth)
                          && links == FrameLinks(particles)
                          && pendingFrames == {animId} && pendingTimers == {}
                          && resizeTimeout == old(resizeTimeout) && nextHandle == old(nextHandle) + 1
    {
      links := [];
      if !surface {
        return;
      }
      Resize(viewportWidth, viewportHeight);
      InitParticles(viewportWidth, draws);
      listening := true;
      links := Draw();
      phase := Running;
    }

    /**
     * A window resize event: cancel the pending debounce timer, if any, and
     * arm a new one. Nothing is resized or re-created yet.
     */
    method OnResize()
      requires Valid()
      modifies this
      ensures Valid()
      ensures !old(listening) ==> unchanged(this)
      ensures old(listening) ==> && resizeTimeout == Some(old(nextHandle))
                                 && pendingTimers == {old(nextHandle)} && nextHandle == old(nextHandle) + 1
                                 && phase == old(phase) && listening
                                 && particles == old(particles) && width == old(width) && height == old(height)
                                 && pendingFrames == old(pendingFrames) && animId == old(animId)
    {
      if !listening {
        return;
      }
      pendingTimers := pendingTimers - HandleSet(resizeTimeout);
      var t := nextHandle;
      nextHandle := nextHandle + 1;
      pendingTimers := pendingTimers + {t};
      resizeTimeout := Some(t);
    }

    /**
     * The host runs timer `t`. Only a pending timer runs: it resizes the
     * canvas to the viewport of that moment and re-creates every particle.
     */
    method OnTimer(t: nat, viewportWidth: nat, viewportHeight: nat, draws: seq<Draws>)
      returns (fired: bool)
      requires Valid()
      requires ParticleCount(viewportWidth) <= |draws| && ValidDrawSeq(draws)
      modifies this
      ensures Valid()
      ensures fired <==> t in old(pendingTimers)
      ensures !fired ==> unchanged(this)
      ensures fired ==> && pendingTimers == old(pendingTimers) - {t}
                        && width == viewportWidth && height == viewportHeight
                        && particles == SpawnAll(cfg, width, height, draws[..ParticleCount(viewportWidth)])
                        && |particles| == ParticleCount(viewportWidth)
                        && phase == old(phase) && listening == old(listening)
                        && pendingFrames == old(pendingFrames) && animId == old(animId)
                        && resizeTimeout == old(resizeTimeout) && nextHandle == old(nextHandle)
    {
      fired := t in pendingTimers;
      if !fired {
        return;
      }
      pendingTimers := pendingTimers - {t};
      Resize(viewportWidth, viewportHeight);
      InitParticles(viewportWidth, draws);
    }

    /** The host runs frame `id`. Only a pending frame runs, and it draws and requests the next. */
    method OnFrame(id: nat) returns (links: Option<seq<Link>>)
      requires Valid()
      modifies this
      ensures Valid()
      ensures links.Some? <==> id in old(pendingFrames)
      ensures links.None? ==> unchanged(this)
      ensures links.Some? ==> && particles == Advanced(old(particles), width, height)
                              && links.value == FrameLinks(particles)
                              && pendingFrames == {animId} && animId == old(nextHandle)
                              && phase == Running && listening && width == old(width) && height == old(height)
                              && pendingTimers == old(pendingTimers)
                              && resizeTimeout == old(resizeTimeout) && nextHandle == old(nextHandle) + 1
    {
      if id !in pendingFrames {
        return None;
      }
      pendingFrames := pendingFrames - {id};
      var drawn := Draw();
      links := Some(drawn);
    }

    /**
     * The effect's cleanup: cancel the frame, clear the debounce timer and
     * remove the listener. Afterwards nothing is pending, so no frame is
     * drawn and no re-initialisation runs.
     */
    method Unmount()
      requires Valid()
      modifies this
      ensures Valid() && phase == Stopped
      ensures pendingFrames == {} && pendingTimers == {} && !listening
      ensures particles == old(particles) && width == old(width) && height == old(height)
    {
      pendingFrames := pendingFrames - {animId};
      pendingTimers := pendingTimers - HandleSet(resizeTimeout);
      listening := false;
      phase := Stopped;
    }
  }

  /**
   * Three resize events in a row leave only the last timer pending; the two
   * superseded timers never run, and the last one re-creates the particles
   * once, for the viewport of the moment it fires.
   */
  method DebounceScenario(draws: seq<Draws>) returns (early: bool, last: bool, w: int, n: nat, again: bool)
    requires |draws| >= 50 && ValidDrawSeq(draws)
    ensures !early && last && !again
    ensures w == 500 && n == 30
  {
    ConfigsValid();
    var e := new Engine(Ambient);
    var first := e.Mount(true, 1000, 800, draws);
    assert |e.particles| == 50;
    e.OnResize();
    var t1 := e.resizeTimeout.value;
    e.OnResize();
    var t2 := e.resizeTimeout.value;
    e.OnResize();
    var t3 := e.resizeTimeout.value;
    var fired1 := e.OnTimer(t1, 500, 400, draws);
    var fired2 := e.OnTimer(t2, 500, 400, draws);
    early := fired1 || fired2;
    last := e.OnTimer(t3, 500, 400, draws);
    w, n := e.width, |e.particles|;
    again := e.OnTimer(t3, 500, 400, draws);
  }

  /** Unmounting before the debounce settles: neither the timer nor a frame runs afterwards. */
  method UnmountScenario(draws: seq<Draws>) returns (fired: bool, drawn: bool, pending: nat)
    requires |draws| >= 50 && ValidDrawSeq(draws)
    ensures !fired && !drawn && pending == 0
  {
    ConfigsValid();
    var e := new Engine(Hero);
    var first := e.Mount(true, 1000, 800, draws);
    var frame := e.animId;
    e.OnResize();
    e.OnResize();
    e.OnResize();
    var t := e.resizeTimeout.value;
    e.Unmount();
    fired := e.OnTimer(t, 500, 400, draws);
    var links := e.OnFrame(frame);
    drawn := links.Some?;
    e.OnResize();
    pending := |e.pendingTimers| + |e.pendingFrames|;
  }
}
