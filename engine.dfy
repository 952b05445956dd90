/**
 * The engine object: the fields of the C++ class (the initialised flag, the two
 * registries, the window) and the observable state of the script VM and the loop
 * (call counters and the trace of calls).  Each method changes these fields in
 * place and is proved to produce the state the matching function of HostApi or
 * GameLoop describes.
 */
module EngineClass {
  import opened Resources
  import opened HostApi
  import opened GameLoop

  /** The part of the engine the host operations never touch. */
  datatype LoopFields = LoopFields(initialized: bool, windowOpen: bool, polls: nat, updates: nat,
                                   renders: nat, trace: seq<Event>)

  class Engine {
    var initialized: bool
    var textures: map<string, Texture>
    var sprites: map<string, Sprite>
    // The window: whether it is open, what was drawn since the last clear, what was presented.
    var windowOpen: bool
    var frame: seq<DrawCall>
    var presented: seq<seq<DrawCall>>
    // How often the window was polled and the script's Update and Render were called.
    var polls: nat
    var updates: nat
    var renders: nat
    var trace: seq<Event>

    function HostState(): Host
      reads this
    {
      Host(Registry(textures, sprites), frame, presented)
    }

    function LoopView(): LoopFields
      reads this
    {
      LoopFields(initialized, windowOpen, polls, updates, renders, trace)
    }

    /** The engine seen as the loop's state, with `acc` the loop's local accumulator. */
    function Snapshot(acc: nat): Sim
      reads this
    {
      Sim(HostState(), acc, polls, updates, renders, windowOpen, trace)
    }

    /** The registry invariant: every sprite's texture is registered. */
    ghost predicate Valid()
      reads this
    {
      SpritesReferenceTextures(Registry(textures, sprites))
    }

    constructor ()
      ensures Valid() && !initialized && !windowOpen
      ensures HostState() == EmptyHost
      ensures polls == 0 && updates == 0 && renders == 0 && trace == []
    {
      initialized := false;
      textures, sprites := map[], map[];
      windowOpen := false;
      frame, presented := [], [];
      polls, updates, renders := 0, 0, 0;
      trace := [];
    }

    /** `init`: marks the engine initialised (the VM it creates is abstract here). */
    method Init()
      modifies this
      ensures initialized
      ensures HostState() == old(HostState())
      ensures LoopView() == old(LoopView()).(initialized := true)
    {
      initialized := true;
    }

    method LoadTexture(textureId: string, path: string, image: Option<Texture>) returns (outcome: Outcome)
      requires Valid()
      modifies this
      ensures Valid()
      ensures var st := HostApi.LoadTexture(old(HostState()), textureId, path, image);
        HostState() == st.host && outcome == st.outcome
      ensures LoopView() == old(LoopView())
    {
      ApplyKeepsRegistry(HostState(), LoadTextureCall(textureId, path, image));
      if image.None? {
        return Fail(TextureLoadFailed(path));
      }
      if textureId in textures {
        return Fail(TextureInsertFailed(textureId));
      }
      textures := textures[textureId := image.value];
      return Pass;
    }

    method CreateSprite(spriteId: string, textureId: string) returns (outcome: Outcome)
      requires Valid()
      modifies this
      ensures Valid()
      ensures var st := HostApi.CreateSprite(old(HostState()), spriteId, textureId);
        HostState() == st.host && outcome == st.outcome
      ensures LoopView() == old(LoopView())
    {
      ApplyKeepsRegistry(HostState(), CreateSpriteCall(spriteId, textureId));
      var found := GetTexture(Registry(textures, sprites), textureId);
      if found.Err? {
        return Fail(found.error);
      }
      if spriteId in sprites {
        return Fail(SpriteInsertFailed(spriteId));
      }
      sprites := sprites[spriteId := NewSprite(textureId)];
      return Pass;
    }

    method MoveSprite(spriteId: string, dx: real, dy: real) returns (outcome: Outcome)
      requires Valid()
      modifies this
      ensures Valid()
      ensures var st := HostApi.MoveSprite(old(HostState()), spriteId, dx, dy);
        HostState() == st.host && outcome == st.outcome
      ensures LoopView() == old(LoopView())
    {
      ApplyKeepsRegistry(HostState(), MoveSpriteCall(spriteId, dx, dy));
      var found := GetSprite(Registry(textures, sprites), spriteId);
      if found.Err? {
        return Fail(found.error);
      }
      var s := found.value;
      sprites := sprites[spriteId := s.(position := Vec2(s.position.x + dx, s.position.y + dy))];
      return Pass;
    }

    method SetSpritePosition(spriteId: string, x: real, y: real) returns (outcome: Outcome)
      requires Valid()
      modifies this
      ensures Valid()
      ensures var st := HostApi.SetSpritePosition(old(HostState()), spriteId, x, y);
        HostState() == st.host && outcome == st.outcome
      ensures LoopView() == old(LoopView())
    {
      ApplyKeepsRegistry(HostState(), SetSpritePositionCall(spriteId, x, y));
      var found := GetSprite(Registry(textures, sprites), spriteId);
      if found.Err? {
        return Fail(found.error);
      }
      sprites := sprites[spriteId := found.value.(position := Vec2(x, y))];
      return Pass;
    }

    method SetSpriteRect(spriteId: string, left: int, top: int, width: int, height: int)
      returns (outcome: Outcome)
      requires Valid()
      modifies this
      ensures Valid()
      ensures var st := HostApi.SetSpriteRect(old(HostState()), spriteId, left, top, width, height);
        HostState() == st.host && outcome == st.outcome
      ensures LoopView() == old(LoopView())
    {
      ApplyKeepsRegistry(HostState(), SetSpriteRectCall(spriteId, left, top, width, height));
      var found := GetSprite(Registry(textures, sprites), spriteId);
      if found.Err? {
        return Fail(found.error);
      }
      var s := found.value.(rect := IntRect(left, top, width, height));
      s := s.(origin := Vec2(width as real / 2.0, height as real / 2.0));
      sprites := sprites[spriteId := s];
      return Pass;
    }

    method DrawSprite(spriteId: string, x: real, y: real) returns (outcome: Outcome)
      requires Valid()
      modifies this
      ensures Valid()
      ensures var st := HostApi.DrawSprite(old(HostState()), spriteId, x, y);
        HostState() == st.host && outcome == st.outcome
      ensures LoopView() == old(LoopView())
    {
      ApplyKeepsRegistry(HostState(), DrawSpriteCall(spriteId, x, y));
      var found := GetSprite(Registry(textures, sprites), spriteId);
      if found.Err? {
        return Fail(found.error);
      }
      var s := found.value.(position := Vec2(x, y));
      sprites := sprites[spriteId := s];
      frame := frame + [DrawCall(spriteId, s)];
      return Pass;
    }

    method WindowClear()
      modifies this
      ensures HostState() == ClearWindow(old(HostState()))
      ensures LoopView() == old(LoopView())
    {
      frame := [];
    }

    method WindowDisplay()
      modifies this
      ensures HostState() == DisplayOnWindow(old(HostState()))
      ensures LoopView() == old(LoopView())
    {
      presented := presented + [frame];
    }

    /** A script's call into the host, dispatched by the name it was registered under. */
    method Call(c: HostCall) returns (outcome: Outcome)
      requires Valid()
      modifies this
      ensures Valid()
      ensures Apply(old(HostState()), c) == Step(HostState(), outcome)
      ensures LoopView() == old(LoopView())
    {
      match c {
        case LoadTextureCall(t, p, img) => outcome := LoadTexture(t, p, img);
        case CreateSpriteCall(s, t) => outcome := CreateSprite(s, t);
        case MoveSpriteCall(s, dx, dy) => outcome := MoveSprite(s, dx, dy);
        case SetSpritePositionCall(s, x, y) => outcome := SetSpritePosition(s, x, y);
        case SetSpriteRectCall(s, l, t, w, h) => outcome := SetSpriteRect(s, l, t, w, h);
        case DrawSpriteCall(s, x, y) => outcome := DrawSprite(s, x, y);
        case ClearWindowCall => WindowClear(); outcome := Pass;
        case DisplayOnWindowCall => WindowDisplay(); outcome := Pass;
      }
    }

    /**
     * A protected call of a script entry point: its host calls run in order
     * until one raises; then the script itself may raise.
     */
    method InvokeEntry(b: Body) returns (outcome: Outcome)
      requires Valid()
      modifies this
      ensures Valid()
      ensures Invoke(old(HostState()), b) == Step(HostState(), outcome)
      ensures LoopView() == old(LoopView())
    {
      var i := 0;
      while i < |b.calls|
        invariant 0 <= i <= |b.calls|
        invariant Valid()
        invariant Exec(HostState(), b.calls[i..]) == Exec(old(HostState()), b.calls)
        invariant LoopView() == old(LoopView())
      {
        ghost var before := HostState();
        assert b.calls[i..][0] == b.calls[i] && b.calls[i..][1..] == b.calls[i + 1..];
        outcome := Call(b.calls[i]);
        if outcome.Fail? {
          assert Exec(before, b.calls[i..]) == Step(HostState(), outcome);
          return;
        }
        i := i + 1;
      }
      assert Exec(HostState(), b.calls[i..]) == Step(HostState(), Pass);
      if b.raises {
        return Fail(ScriptRaised);
      }
      return Pass;
    }

    /** `handleEvents`: drains the window's event queue; a close request closes it. */
    method HandleEvents(closes: seq<bool>)
      modifies this
      ensures Snapshot(0) == GameLoop.HandleEvents(old(Snapshot(0)), closes)
      ensures initialized == old(initialized)
    {
      if CloseRequested(closes, polls) {
        windowOpen := false;
      }
      polls := polls + 1;
      trace := trace + [EventsPolled];
    }

    /** `update`: calls the script's Update; a failure ends the run with its error. */
    method Update(script: Script) returns (status: Status)
      requires Valid()
      modifies this
      ensures Valid()
      ensures GameLoop.Update(old(Snapshot(0)), script) == SimResult(Snapshot(0), status)
      ensures initialized == old(initialized)
    {
      var outcome := InvokeEntry(script.update(updates));
      updates := updates + 1;
      trace := trace + [UpdateCalled];
      if outcome.Fail? {
        return Faulted(ScriptFailed(UpdateEntry, outcome.error));
      }
      return Running;
    }

    /** `render`: calls the script's Render; a failure ends the run with its error. */
    method Render(script: Script) returns (status: Status)
      requires Valid()
      modifies this
      ensures Valid()
      ensures GameLoop.Render(old(Snapshot(0)), script) == SimResult(Snapshot(0), status)
      ensures initialized == old(initialized)
    {
      var outcome := InvokeEntry(script.render(renders));
      renders := renders + 1;
      trace := trace + [RenderCalled];
      if outcome.Fail? {
        return Faulted(ScriptFailed(RenderEntry, outcome.error));
      }
      return Running;
    }

    /**
     * The inner loop of `run`: while a whole timestep is pending, take it off
     * the accumulator, poll the window's events and call Update.
     */
    method DrainUpdates(acc0: nat, script: Script, closes: seq<bool>) returns (acc: nat, status: Status)
      requires Valid()
      modifies this
      ensures Valid()
      ensures Drain(old(Snapshot(acc0)), TimePerFrame, closes, script) == SimResult(Snapshot(acc), status)
      ensures initialized == old(initialized)
    {
      acc, status := acc0, Running;
      while acc >= TimePerFrame
        invariant Valid() && initialized == old(initialized) && status == Running
        invariant Drain(Snapshot(acc), TimePerFrame, closes, script)
               == Drain(old(Snapshot(acc0)), TimePerFrame, closes, script)
        decreases acc
      {
        ghost var pre := Snapshot(acc);
        acc := acc - TimePerFrame;
        HandleEvents(closes);
        assert Snapshot(acc) == GameLoop.HandleEvents(pre.(acc := acc), closes);
        ghost var mid := Snapshot(acc);
        status := Update(script);
        assert GameLoop.Update(mid, script) == SimResult(Snapshot(acc), status);
        if status.Faulted? {
          return;
        }
      }
    }

    /**
     * The outer loop of `run`, from an empty accumulator: while the window is
     * open, add the time elapsed since the last iteration, drain it, render.
     */
    method MainLoop(script: Script, deltas: seq<nat>, closes: seq<bool>) returns (acc: nat, status: Status)
      requires Valid()
      modifies this
      ensures Valid()
      ensures Loop(old(Snapshot(0)), deltas, TimePerFrame, closes, script) == SimResult(Snapshot(acc), status)
      ensures initialized == old(initialized)
    {
      acc, status := 0, Running;
      var i := 0;
      while windowOpen && i < |deltas|
        invariant 0 <= i <= |deltas|
        invariant Valid() && initialized == old(initialized) && status == Running
        invariant Loop(Snapshot(acc), deltas[i..], TimePerFrame, closes, script)
               == Loop(old(Snapshot(0)), deltas, TimePerFrame, closes, script)
        decreases |deltas| - i
      {
        ghost var pre := Snapshot(acc);
        assert deltas[i..][0] == deltas[i] && deltas[i..][1..] == deltas[i + 1..];
        acc, status := DrainUpdates(acc + deltas[i], script, closes);
        ghost var drained := Snapshot(acc);
        assert Drain(pre.(acc := pre.acc + deltas[i]), TimePerFrame, closes, script)
            == SimResult(drained, status);
        if status.Faulted? {
          return;
        }
        status := Render(script);
        assert Frame(pre, deltas[i], TimePerFrame, closes, script) == SimResult(Snapshot(acc), status);
        if status.Faulted? {
          return;
        }
        i := i + 1;
      }
      assert deltas[i..] == [] || !windowOpen;
    }

    /**
     * `run`: the guards, then the fixed-timestep loop over the given clock
     * deltas.  The new state and the status are those RunEngine describes; its
     * lemmas in GameLoop say what that means.
     */
    method Run(script: Script, deltas: seq<nat>, closes: seq<bool>) returns (status: Status)
      requires Valid()
      modifies this
      ensures Valid()
      ensures var r := RunEngine(old(initialized), old(Snapshot(0)), script, deltas, closes, TimePerFrame);
        status == r.status && Snapshot(r.sim.acc) == r.sim
      ensures initialized == old(initialized)
    {
      ghost var s0 := Snapshot(0);
      if !initialized {
        return Faulted(NotInitialized);
      }
      var outcome := InvokeEntry(script.top);
      trace := trace + [ScriptLoaded];
      if outcome.Fail? {
        return Faulted(ScriptFailed(TopLevel, outcome.error));
      }
      windowOpen := true;
      outcome := InvokeEntry(script.init);
      trace := trace + [InitCalled];
      assert trace == s0.trace + [ScriptLoaded, InitCalled];
      if outcome.Fail? {
        return Faulted(ScriptFailed(InitEntry, outcome.error));
      }
      assert RunEngine(true, s0, script, deltas, closes, TimePerFrame)
          == Loop(Snapshot(0), deltas, TimePerFrame, closes, script);
      var acc;
      acc, status := MainLoop(script, deltas, closes);
    }
  }
}
