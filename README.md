# LuaCppTest engine core in Dafny

This project models the `Engine` class of LuaCppTest, a small C++ host that embeds a
Lua VM in an SFML fixed-timestep render loop. The model has three parts, which follow
the engine's own structure:

- **The resource registry** (`resources.dfy`, module `Resources`). It holds two maps
  keyed by string ids, one for textures and one for sprites. The engine looks ids up
  fail-fast with `getTexture` and `getSprite`, which either return the entry or raise
  an error naming the id.
- **The host API** (`host_api.dfy`, module `HostApi`). Scripts can call these
  operations: `LoadTexture`, `CreateSprite`, `MoveSprite`, `SetSpritePosition`,
  `SetSpriteRect`, `DrawSprite`, `ClearWindow` and `DisplayOnWindow`.
  - Each one maps the host state to a new state. The six that can fail also return
    an outcome, and `Apply` gives the two window operations a `Pass`.
  - A C++ exception is modelled as a `Fail` outcome.
  - A script invocation is a sequence of host calls. It stops at the first failing
    call (`Exec`).
- **The run loop** (`game_loop.dfy`, module `GameLoop`). It models the guards of `run`
  and the fixed-timestep accumulator loop, with a timestep of 66666 µs.
  - `sf::seconds(1.f/15.f)` is 66666.67 µs, and `sf::Time` truncates it to this
    integer.
  - Real time is an input sequence of clock deltas.
  - Window close requests are an input sequence, indexed by event poll.
  - The script's entry points are given as the host calls each invocation makes, plus
    whether it then raises. The k-th `Update` or `Render` call may behave differently
    from the others, because the engine looks each entry point up by name on every
    call.
- **The engine object** (`engine.dfy`, class `EngineClass.Engine`). It has the fields
  of the C++ class: the initialized flag, the two registries and the window. It also
  has the observable loop state: call counters and a trace of calls.
  - Every method updates these fields in place.
  - Each method is proved to produce the state that the matching `HostApi` or
    `GameLoop` function gives.
  - `Run` runs the nested `while` loops of `Engine::run`. Its result is proved equal
    to `RunEngine`.

A close request seen by `handleEvents` only takes effect at the outer `isOpen()`
check (src/Engine.cpp:79). The remaining steps of the inner drain loop still call
`Update`, `render()` runs once more, and only then does the loop stop.
`DrainIgnoresClose` and `CloseStopsAfterRender` state this behaviour. The source
throws `std::logic_error` or `std::runtime_error` with a message; the model has one
`Error` constructor per message.

## Model

| member | source | states |
|---|---|---|
| Resources.GetTexture | src/Engine.cpp:224-239 | Lookup succeeds exactly when the texture id is registered, and then returns the registered texture. Otherwise it fails with `TextureNotFound(id)`. Both overloads share this contract. |
| Resources.GetSprite | src/Engine.cpp:207-222 | Lookup succeeds exactly when the sprite id is registered, and then returns that sprite. Otherwise it fails with `SpriteNotFound(id)`. |
| Resources.NewSprite | src/Engine.cpp:118 | A new sprite is bound to the given texture id, at position (0,0), with origin (0,0). |
| HostApi.LoadTexture | src/Engine.cpp:94-112 | A failed load returns the host unchanged; a successful one registers the id and leaves the sprites alone. Its full case split is `LoadTextureContract`. |
| HostApi.CreateSprite | src/Engine.cpp:114-127 | A failed creation returns the host unchanged; a successful one registers the sprite on a registered texture. Its full case split is `CreateSpriteContract`. |
| HostApi.MoveSprite | src/Engine.cpp:129-133 | Succeeds exactly when the sprite id is registered; otherwise fails with `SpriteNotFound` and changes nothing. The key sets and the textures never change. The effect is `MoveSpriteContract`. |
| HostApi.SetSpritePosition | src/Engine.cpp:135-139 | The same lookup contract as `MoveSprite`; the effect is `SetSpritePositionContract`. |
| HostApi.SetSpriteRect | src/Engine.cpp:141-150 | The same lookup contract as `MoveSprite`; the effect is `SetSpriteRectContract`. |
| HostApi.DrawSprite | src/Engine.cpp:152-157 | The same lookup contract as `MoveSprite`; the effect is `DrawSpriteContract`. |
| HostApi.ClearWindow | src/Engine.cpp:159-162 | The current frame's draw list becomes empty; the registries and the presented frames stay. |
| HostApi.DisplayOnWindow | src/Engine.cpp:164-167 | The current frame is appended as the newest presented frame; the earlier frames, the registries and the draw list stay. |
| HostApi.ClearDrawDisplay | src/Engine.cpp:152-167 | Clearing, drawing one sprite and presenting adds exactly one presented frame, holding only that draw at the drawn position. |
| HostApi.Apply | src/Engine.cpp:186-205 | Dispatches each script-visible name to its host operation; any call that raises leaves the host state exactly as it was. |
| HostApi.Exec | src/Engine.cpp:258-266 | An empty sequence passes and changes nothing. If the first call fails, its result is the result, so no later call runs. A failure needs at least one call. `ExecAppend` gives the rest. |
| Resources.GrowsTransitive | include/Engine.hpp:76-77 | "Only grows" (no key removed, no texture replaced, no sprite rebound to another texture) is transitive, so it composes across calls. |
| HostApi.LoadTextureContract | src/Engine.cpp:94-112 | Succeeds exactly when the image decoded and the id is new, and then adds exactly that texture. Decoding is checked first, so a bad path gives `TextureLoadFailed(path)` even for a duplicate id. A duplicate id gives `TextureInsertFailed(id)`. Any failure leaves the host state unchanged. |
| HostApi.LoadTextureKeepsOriginal | src/Engine.cpp:106-111 | Loading under an id that is already registered fails, and the texture already registered stays (`map::insert` does not overwrite). |
| HostApi.CreateSpriteContract | src/Engine.cpp:114-127 | Succeeds exactly when the texture is registered and the sprite id is new, and then adds a fresh sprite bound to that texture. An unknown texture gives `TextureNotFound`, checked before the duplicate check. A duplicate gives `SpriteInsertFailed`. Any failure changes nothing. |
| HostApi.UnknownSpriteFailsAlike | src/Engine.cpp:129-157 | Move, set position, set rect and draw on an unknown sprite id all fail with `SpriteNotFound(id)` and change nothing. |
| HostApi.MoveSpriteContract | src/Engine.cpp:129-133 | Moving adds (dx, dy) to the sprite's position. It changes only that sprite's position: the other sprites, the textures and the window are untouched. |
| HostApi.SetSpritePositionContract | src/Engine.cpp:135-139 | Sets the position to exactly (x, y) and changes nothing else. |
| HostApi.SetThenMove | src/Engine.cpp:129-139 | Setting (10,10) and then moving by (3,-2) places the sprite at (13,8). |
| HostApi.MoveAndSetOrder | src/Engine.cpp:129-139 | Move is relative and set is absolute. Set-then-move ends at (x+dx, y+dy); move-then-set leaves the same state as the set alone. |
| HostApi.Moves | src/Engine.cpp:129-133 | A script part made of n identical move calls has length n, and every element is that move. |
| HostApi.MovesAccumulate | src/Engine.cpp:129-133 | n moves by (dx, dy) succeed and shift the position by (n·dx, n·dy). Nothing else changes. |
| HostApi.SetSpriteRectContract | src/Engine.cpp:141-150 | Sets the texture rectangle to the four given ints and the origin to (width/2, height/2), computed on the real numbers. Position and texture binding stay, and so do the other sprites, the key set, the textures and the window. |
| HostApi.SetSpriteRectLatestWins | src/Engine.cpp:141-150 | Two consecutive rect settings leave the same state as the second one alone. |
| HostApi.SetSpriteRectExample | src/Engine.cpp:147-149 | A 40×60 rectangle puts the origin at (20, 30). |
| HostApi.DrawSpriteContract | src/Engine.cpp:152-157 | Drawing first sets the position to (x, y), so the change persists. It then adds that sprite, at its new position, to the end of the current frame's draw list. |
| HostApi.ExecAppend | src/Engine.cpp:186-205 | Running two call sequences in a row equals running their concatenation, unless the first one fails, in which case the second never runs. |
| HostApi.ApplyKeepsRegistry | src/Engine.cpp:94-157 | Every host call preserves "each sprite's texture is registered", and the registries only grow. |
| HostApi.ExecKeepsRegistry | src/Engine.cpp:186-205 | The same holds for any sequence of host calls made by one script invocation. |
| HostApi.MovingSpriteScenario | src/Engine.cpp:94-157 | A host-call sequence: load a texture, create a sprite, move it n times by (1,0), draw it at its own position. Every call passes and the draw is at (n, 0). |
| GameLoop.Invoke | src/Engine.cpp:258-266 | A protected entry-point call keeps the effects of the host calls made before a raise, and passes exactly when those calls passed and the script did not raise. |
| GameLoop.HandleEvents | src/Engine.cpp:241-256 | One poll: counted and traced, and the window stays open exactly when it was open and this poll saw no close request. Nothing else changes. |
| GameLoop.Update | src/Engine.cpp:258-267 | Calls the script's Update once, counted and traced. It fails exactly when that invocation fails, with `ScriptFailed(UpdateEntry, _)`. |
| GameLoop.Render | src/Engine.cpp:269-277 | Calls the script's Render once, counted and traced. It fails exactly when that invocation fails, with `ScriptFailed(RenderEntry, _)`. |
| GameLoop.Drain | src/Engine.cpp:82-88 | The inner loop never renders and never lowers the poll or Update count, and unless it failed it leaves less than one timestep pending. `DrainAccounting` and `DrainCount` give the exact amounts. |
| GameLoop.Frame | src/Engine.cpp:79-91 | One outer iteration: unless it failed it rendered exactly once and left less than one timestep pending (`FrameAccounting`). |
| GameLoop.Loop | src/Engine.cpp:79-91 | The outer loop: none of the poll, Update and Render counts decreases, and a loop that neither failed nor saw the window close rendered once per clock delta (`LoopAccounting`, `UpdatesFollowTime`). |
| GameLoop.RunEngine | src/Engine.cpp:49-92 | Without `init` the run fails with `NotInitialized` and changes nothing. A run that did not fail was initialized and leaves less than one timestep pending; with the window still open it rendered once per clock delta (`RunGuards`). |
| GameLoop.DivUnique | src/Engine.cpp:82-85 | The number of timesteps taken off the accumulator is the unique quotient, and what is left is the remainder. |
| GameLoop.Conservation | src/Engine.cpp:81-85 | If acc + step·updates grew by exactly the elapsed time and the accumulator stays below one step, then updates = time/step and acc = time % step. |
| GameLoop.DrainAccounting | src/Engine.cpp:82-88 | The inner loop conserves acc + step·updates. It makes one poll per Update and never renders. If no script call fails, it leaves less than one timestep pending. |
| GameLoop.DrainCount | src/Engine.cpp:82-88 | A drain with no failing script call calls Update exactly acc/step times and leaves acc % step. |
| GameLoop.FrameAccounting | src/Engine.cpp:79-91 | One outer iteration with no failing script call renders exactly once and accounts for its delta in whole timesteps. |
| GameLoop.LoopAccounting | src/Engine.cpp:79-91 | As long as no script call fails, the total time of the frames run is simulated in whole timesteps, Render runs once per frame, and one poll precedes each Update. The loop ends before the deltas run out only if the window was closed. |
| GameLoop.UpdatesFollowTime | src/Engine.cpp:74-91 | Starting from an empty accumulator, a run with no failing script call has called Update exactly floor(S/step) times, where S is the total time of the frames rendered; S % step is still pending. |
| GameLoop.ChunkingDoesNotMatter | src/Engine.cpp:74-91 | Two complete runs whose clock deltas have the same total make the same number of Update calls, however the time was split into frames. |
| GameLoop.DrainOpen | src/Engine.cpp:241-256 | After a drain the window is open exactly when it was open before and none of the polls made during the drain saw a close request. |
| GameLoop.DrainIgnoresClose | src/Engine.cpp:79-88 | Closing the window does not cut a drain short. The Update calls, the host state, the trace and the outcome do not depend on the close requests. |
| GameLoop.CloseStopsAfterRender | src/Engine.cpp:79-91 | A frame whose drain did not fail still renders exactly once. If a poll during that drain closed the window, the loop ends right after that render. |
| GameLoop.DrainFaultIsLast | src/Engine.cpp:82-88 | A failed drain failed in `Update`, and the failing Update is the last call made. |
| GameLoop.FrameFaultIsLast | src/Engine.cpp:79-91 | A failed frame failed in Update or Render, and that call is the last one made. |
| GameLoop.LoopFaultIsLast | src/Engine.cpp:79-91 | A failed loop stopped right after the Update or Render call whose error it reports. |
| GameLoop.LoopExtensionAppend | src/Engine.cpp:79-91 | Appending loop calls to a trace that holds only loop calls after `t0` keeps that property. |
| GameLoop.LoopExtensionTransitive | src/Engine.cpp:79-91 | Extending a trace by loop calls twice is one extension by loop calls. |
| GameLoop.PollBeforeUpdateAppend | src/Engine.cpp:86-90 | Appending a poll followed by an Update, or appending a Render, keeps every Update directly after a poll. |
| GameLoop.DrainOrder | src/Engine.cpp:82-88 | In the inner loop every Update comes directly after an event poll, and the drain adds no script load and no Init call. |
| GameLoop.FrameOrder | src/Engine.cpp:79-91 | The ordering property above holds for one outer iteration. |
| GameLoop.LoopOrder | src/Engine.cpp:79-91 | The ordering property above holds for the whole loop. |
| GameLoop.RunGuards | src/Engine.cpp:49-72 | Without `init`, `run` fails with `NotInitialized` and changes nothing. A failing script load is reported and stops before Init. A failing Init is reported and stops before any Update or Render. Otherwise the result is the loop started after Init from an empty accumulator with the window open, the trace begins with the load and Init, exactly once each, and every later call is a loop call with every Update directly after a poll. |
| GameLoop.InvokeKeepsRegistry | src/Engine.cpp:258-277 | A protected entry-point call, whether it fails or not, keeps the registry invariant, and the registries only grow. |
| GameLoop.DrainKeepsRegistry | src/Engine.cpp:82-88 | The same holds for the inner loop. |
| GameLoop.LoopKeepsRegistry | src/Engine.cpp:79-91 | The same holds for the outer loop. |
| GameLoop.RunKeepsRegistry | src/Engine.cpp:49-92 | However `run` ends, every sprite's texture is still registered, and nothing registered before it was removed or replaced. |
| GameLoop.ShiftedAdd | src/Engine.cpp:129-133 | Moving by (dx, dy) a times and then b times equals moving a + b times. |
| GameLoop.ClearDisplayKeepsRegistry | src/Engine.cpp:159-167 | A Render that only clears and presents never fails and leaves the registries alone. |
| GameLoop.DrainMoves | src/Engine.cpp:82-88 | With a script whose Update moves a registered sprite by (dx, dy), a drain never fails and moves the sprite once per Update made. |
| GameLoop.LoopMoves | src/Engine.cpp:79-91 | The same for the outer loop, when Render only clears and presents. |
| GameLoop.RunMovesSprite | src/Engine.cpp:49-92 | A whole run of a script whose Init loads "t" and creates "s", whose Update moves "s" by (1,0) and whose Render presents never fails. "s" ends at (u, 0) for the u Updates made, and u = floor(S / timestep) for the time S of the frames rendered. |
| EngineClass.Engine.constructor | src/Engine.cpp:29-36 | A new engine is not initialized, has an empty registry and a closed window, and all counters are zero. |
| EngineClass.Engine.Init | src/Engine.cpp:40-47 | Sets the initialized flag and changes nothing else. |
| EngineClass.Engine.LoadTexture | src/Engine.cpp:94-112 | The new fields and the outcome are those of `HostApi.LoadTexture`. The registry invariant is kept, and the loop fields are untouched. |
| EngineClass.Engine.CreateSprite | src/Engine.cpp:114-127 | The same, with `HostApi.CreateSprite`. |
| EngineClass.Engine.MoveSprite | src/Engine.cpp:129-133 | The same, with `HostApi.MoveSprite`. |
| EngineClass.Engine.SetSpritePosition | src/Engine.cpp:135-139 | The same, with `HostApi.SetSpritePosition`. |
| EngineClass.Engine.SetSpriteRect | src/Engine.cpp:141-150 | The same, with `HostApi.SetSpriteRect`. |
| EngineClass.Engine.DrawSprite | src/Engine.cpp:152-157 | The same, with `HostApi.DrawSprite`. |
| EngineClass.Engine.WindowClear | src/Engine.cpp:159-162 | Empties the current frame's draw list and changes nothing else. |
| EngineClass.Engine.WindowDisplay | src/Engine.cpp:164-167 | Presents the current frame and changes nothing else. |
| EngineClass.Engine.Call | src/Engine.cpp:186-205 | Dispatches a script call to the host operation registered under its name, with the state and outcome `Apply` gives. |
| EngineClass.Engine.InvokeEntry | src/Engine.cpp:258-277 | Runs one entry-point invocation call by call, and stops at the first failure, as `Invoke` does. |
| EngineClass.Engine.HandleEvents | src/Engine.cpp:241-256 | Counts one poll and closes the window if that poll sees a close request. |
| EngineClass.Engine.Update | src/Engine.cpp:258-267 | Calls the script's Update once, counts it, and reports a failure as `ScriptFailed(UpdateEntry, cause)`. |
| EngineClass.Engine.Render | src/Engine.cpp:269-277 | Calls the script's Render once, counts it, and reports a failure as `ScriptFailed(RenderEntry, cause)`. |
| EngineClass.Engine.DrainUpdates | src/Engine.cpp:82-88 | The inner `while` loop ends in the state and status `Drain` gives, and the registry invariant holds throughout. |
| EngineClass.Engine.MainLoop | src/Engine.cpp:76-91 | The outer `while` loop, starting from a zero accumulator, ends in the state and status `Loop` gives. |
| EngineClass.Engine.Run | src/Engine.cpp:49-92 | `run` ends in the state and status `RunEngine` gives, so every `GameLoop` lemma above applies to it. |

## Left out

- `HAPI_randInt` (src/Engine.cpp:170-174): uses a global random engine and floating-point truncation; randomness is outside the model.
- `PrintCpp` (src/Engine.cpp:201-204): writes to standard output; I/O is outside the model.
- Window creation (`initWindow`, 1024×768) and SFML's rendering internals: the window is modelled only as open/closed, a list of draws since the last clear, and the presented frames.
- The Lua VM: parsing, globals and the sol2 protected-call machinery are abstract. A script is given by the host calls each invocation makes and whether it then raises. A missing or non-callable entry point is such a raising invocation.
- The script file path (`../Scripts/main.lua`) and main.cpp's reporting of the exception to standard error.
- Real time: `sf::Clock::restart` is replaced by an input sequence of microsecond deltas. When that sequence runs out, the model stops observing the still-running loop and ends with status `Running`.
- Floating point: sprite coordinates and origins are reals, so float rounding of moves and of `width / 2.f` is not modelled.
- `sf::Time` counts microseconds in an `Int64`; overflow of the accumulator is not modelled (`nat`).
- `Resources.NewSprite`: the initial texture rectangle is left empty. SFML actually sets it to the whole texture rectangle, and texture sizes are not modelled.
- Host calls made from the script's top level, before `initWindow`, that touch the window (`DrawSprite`, `ClearWindow`, `DisplayOnWindow`) would dereference a null window in the source. The model lets them act on the abstract window.
- The `sf::Time` argument of `update` is ignored by the source and is not modelled.
