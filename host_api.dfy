/**
 * The host operations a script can call (LoadTexture, CreateSprite, MoveSprite,
 * SetSpritePosition, SetSpriteRect, DrawSprite, ClearWindow, DisplayOnWindow),
 * each as a function from the host state before the call to the state after it
 * and an outcome.  A raised exception is a `Fail` outcome; the state returned
 * with it is whatever the operation had changed before raising.
 */
module HostApi {
  import opened Resources

  /** One submission of a sprite to the window, with the sprite as it was drawn. */
  datatype DrawCall = DrawCall(spriteId: string, sprite: Sprite)

  /**
   * The state host operations act on: the registries, the draws submitted since
   * the window was last cleared, and the frames presented so far.
   */
  datatype Host = Host(reg: Registry, frame: seq<DrawCall>, presented: seq<seq<DrawCall>>)

  datatype Outcome = Pass | Fail(error: Error)

  datatype Step = Step(host: Host, outcome: Outcome)

  const EmptyHost := Host(EmptyRegistry, [], [])

  /** Replaces the registered sprite `spriteId` (a helper for the sprite setters). */
  function PutSprite(h: Host, spriteId: string, s: Sprite): (h': Host)
  {
    h.(reg := h.reg.(sprites := h.reg.sprites[spriteId := s]))
  }

  /** Decode the image, then insert it; `image` is what the decoder returned for `path`. */
  function LoadTexture(h: Host, textureId: string, path: string, image: Option<Texture>): (st: Step)
    ensures st.outcome.Fail? ==> st.host == h
    ensures st.outcome.Pass? ==> textureId in st.host.reg.textures && st.host.reg.sprites == h.reg.sprites
  {
    if image.None? then
      Step(h, Fail(TextureLoadFailed(path)))
    else if textureId in h.reg.textures then
      Step(h, Fail(TextureInsertFailed(textureId)))
    else
      Step(h.(reg := h.reg.(textures := h.reg.textures[textureId := image.value])), Pass)
  }

  /** Look the texture up (failing if absent), then insert a new sprite bound to it. */
  function CreateSprite(h: Host, spriteId: string, textureId: string): (st: Step)
    ensures st.outcome.Fail? ==> st.host == h
    ensures st.outcome.Pass? ==>
      spriteId in st.host.reg.sprites && st.host.reg.sprites[spriteId].textureId in h.reg.textures
  {
    match GetTexture(h.reg, textureId)
    case Err(e) => Step(h, Fail(e))
    case Ok(_) =>
      if spriteId in h.reg.sprites then
        Step(h, Fail(SpriteInsertFailed(spriteId)))
      else
        Step(PutSprite(h, spriteId, NewSprite(textureId)), Pass)
  }

  /** Relative move of a sprite's position. */
  function MoveSprite(h: Host, spriteId: string, dx: real, dy: real): (st: Step)
    ensures st.outcome.Pass? <==> spriteId in h.reg.sprites
    ensures st.outcome.Fail? ==> st == Step(h, Fail(SpriteNotFound(spriteId)))
    ensures st.host.reg.sprites.Keys == h.reg.sprites.Keys && st.host.reg.textures == h.reg.textures
  {
    match GetSprite(h.reg, spriteId)
    case Err(e) => Step(h, Fail(e))
    case Ok(s) =>
      Step(PutSprite(h, spriteId, s.(position := Vec2(s.position.x + dx, s.position.y + dy))), Pass)
  }

  /** Absolute placement of a sprite. */
  function SetSpritePosition(h: Host, spriteId: string, x: real, y: real): (st: Step)
    ensures st.outcome.Pass? <==> spriteId in h.reg.sprites
    ensures st.outcome.Fail? ==> st == Step(h, Fail(SpriteNotFound(spriteId)))
    ensures st.host.reg.sprites.Keys == h.reg.sprites.Keys && st.host.reg.textures == h.reg.textures
  {
    match GetSprite(h.reg, spriteId)
    case Err(e) => Step(h, Fail(e))
    case Ok(s) => Step(PutSprite(h, spriteId, s.(position := Vec2(x, y))), Pass)
  }

  /** Sets the texture rectangle and recentres the origin on half its size. */
  function SetSpriteRect(h: Host, spriteId: string, left: int, top: int, width: int, height: int): (st: Step)
    ensures st.outcome.Pass? <==> spriteId in h.reg.sprites
    ensures st.outcome.Fail? ==> st == Step(h, Fail(SpriteNotFound(spriteId)))
    ensures st.host.reg.sprites.Keys == h.reg.sprites.Keys && st.host.reg.textures == h.reg.textures
  {
    match GetSprite(h.reg, spriteId)
    case Err(e) => Step(h, Fail(e))
    case Ok(s) =>
      var s' := s.(rect := IntRect(left, top, width, height),
                   origin := Vec2(width as real / 2.0, height as real / 2.0));
      Step(PutSprite(h, spriteId, s'), Pass)
  }

  /** Places the sprite at (x, y), then submits it to the window. */
  function DrawSprite(h: Host, spriteId: string, x: real, y: real): (st: Step)
    ensures st.outcome.Pass? <==> spriteId in h.reg.sprites
    ensures st.outcome.Fail? ==> st == Step(h, Fail(SpriteNotFound(spriteId)))
    ensures st.host.reg.sprites.Keys == h.reg.sprites.Keys && st.host.reg.textures == h.reg.textures
  {
    match GetSprite(h.reg, spriteId)
    case Err(e) => Step(h, Fail(e))
    case Ok(s) =>
      var s' := s.(position := Vec2(x, y));
      Step(PutSprite(h, spriteId, s').(frame := h.frame + [DrawCall(spriteId, s')]), Pass)
  }

  /** Clearing the window discards what was drawn on it. */
  function ClearWindow(h: Host): (r: Host)
    ensures r.frame == [] && r.reg == h.reg && r.presented == h.presented
  {
    h.(frame := [])
  }

  /** Presenting the window shows what was drawn since the last clear. */
  function DisplayOnWindow(h: Host): (r: Host)
    ensures |r.presented| == |h.presented| + 1 && r.presented[|h.presented|] == h.frame
    ensures r.presented[..|h.presented|] == h.presented && r.reg == h.reg && r.frame == h.frame
  {
    h.(presented := h.presented + [h.frame])
  }

  /** A call a script makes into the host, with its arguments. */
  datatype HostCall =
    | LoadTextureCall(textureId: string, path: string, image: Option<Texture>)
    | CreateSpriteCall(spriteId: string, textureId: string)
    | MoveSpriteCall(spriteId: string, dx: real, dy: real)
    | SetSpritePositionCall(spriteId: string, x: real, y: real)
    | SetSpriteRectCall(spriteId: string, left: int, top: int, width: int, height: int)
    | DrawSpriteCall(spriteId: string, x: real, y: real)
    | ClearWindowCall
    | DisplayOnWindowCall

  /** Dispatch of a script call to the host operation registered under its name. */
  function Apply(h: Host, c: HostCall): (st: Step)
    ensures st.outcome.Fail? ==> st.host == h
  {
    match c
    case LoadTextureCall(t, p, img) => LoadTexture(h, t, p, img)
    case CreateSpriteCall(s, t) => CreateSprite(h, s, t)
    case MoveSpriteCall(s, dx, dy) => MoveSprite(h, s, dx, dy)
    case SetSpritePositionCall(s, x, y) => SetSpritePosition(h, s, x, y)
    case SetSpriteRectCall(s, l, t, w, ht) => SetSpriteRect(h, s, l, t, w, ht)
    case DrawSpriteCall(s, x, y) => DrawSprite(h, s, x, y)
    case ClearWindowCall => Step(ClearWindow(h), Pass)
    case DisplayOnWindowCall => Step(DisplayOnWindow(h), Pass)
  }

  /**
   * A run of host calls made by one script invocation: the first failing call
   * raises and aborts the rest; the calls before it keep their effects.
   */
  function Exec(h: Host, calls: seq<HostCall>): (st: Step)
    ensures calls == [] ==> st == Step(h, Pass)
    ensures calls != [] && Apply(h, calls[0]).outcome.Fail? ==> st == Apply(h, calls[0])
    ensures st.outcome.Fail? ==> calls != []
    decreases |calls|
  {
    if calls == [] then Step(h, Pass)
    else
      var st := Apply(h, calls[0]);
      if st.outcome.Fail? then st else Exec(st.host, calls[1..])
  }

  // ---------------------------------------------------------------------------
  // Registry operations

  /**
   * LoadTexture succeeds exactly when the image decoded and the id is new; the
   * failure says which of the two went wrong (decoding is tried first), and a
   * failure leaves the whole host state as it was.
   */
  lemma LoadTextureContract(h: Host, textureId: string, path: string, image: Option<Texture>)
    ensures var st := LoadTexture(h, textureId, path, image);
      && (st.outcome.Pass? <==> image.Some? && textureId !in h.reg.textures)
      && (image.None? ==> st.outcome == Fail(TextureLoadFailed(path)))
      && (image.Some? && textureId in h.reg.textures ==> st.outcome == Fail(TextureInsertFailed(textureId)))
      && (st.outcome.Fail? ==> st.host == h)
      && (st.outcome.Pass? ==>
            st.host == h.(reg := h.reg.(textures := h.reg.textures[textureId := image.value])))
  {
  }

  /** A duplicate texture id never overwrites: the original entry is still there. */
  lemma LoadTextureKeepsOriginal(h: Host, textureId: string, path: string, image: Option<Texture>)
    requires textureId in h.reg.textures
    ensures var st := LoadTexture(h, textureId, path, image);
      st.outcome.Fail? && st.host.reg.textures[textureId] == h.reg.textures[textureId]
  {
  }

  /**
   * CreateSprite succeeds exactly when the texture is registered and the sprite
   * id is new. An unknown texture fails the lookup before anything else (even
   * when the sprite id is also taken), a taken sprite id keeps the original
   * sprite, and no failure changes anything.
   */
  lemma CreateSpriteContract(h: Host, spriteId: string, textureId: string)
    ensures var st := CreateSprite(h, spriteId, textureId);
      && (st.outcome.Pass? <==> textureId in h.reg.textures && spriteId !in h.reg.sprites)
      && (textureId !in h.reg.textures ==> st.outcome == Fail(TextureNotFound(textureId)))
      && (textureId in h.reg.textures && spriteId in h.reg.sprites ==>
            st.outcome == Fail(SpriteInsertFailed(spriteId)))
      && (st.outcome.Fail? ==> st.host == h)
      && (st.outcome.Pass? ==> st.host == PutSprite(h, spriteId, NewSprite(textureId)))
  {
  }

  // ---------------------------------------------------------------------------
  // Sprite transforms

  /**
   * Every sprite operation resolves the id through GetSprite first, so on an
   * unknown id move, set-position, set-rect and draw all fail with the same
   * error and change nothing.
   */
  lemma UnknownSpriteFailsAlike(h: Host, spriteId: string, x: real, y: real,
                                left: int, top: int, width: int, height: int)
    requires spriteId !in h.reg.sprites
    ensures MoveSprite(h, spriteId, x, y) == Step(h, Fail(SpriteNotFound(spriteId)))
    ensures SetSpritePosition(h, spriteId, x, y) == Step(h, Fail(SpriteNotFound(spriteId)))
    ensures SetSpriteRect(h, spriteId, left, top, width, height) == Step(h, Fail(SpriteNotFound(spriteId)))
    ensures DrawSprite(h, spriteId, x, y) == Step(h, Fail(SpriteNotFound(spriteId)))
  {
  }

  /**
   * Move adds (dx, dy) to the position and touches nothing else: not the
   * sprite's texture, rectangle or origin, not the other sprites, not the
   * textures and not the window.
   */
  lemma MoveSpriteContract(h: Host, spriteId: string, dx: real, dy: real)
    requires spriteId in h.reg.sprites
    ensures var st := MoveSprite(h, spriteId, dx, dy); var s := h.reg.sprites[spriteId];
      && st.outcome == Pass
      && spriteId in st.host.reg.sprites
      && st.host.reg.sprites[spriteId].position == Vec2(s.position.x + dx, s.position.y + dy)
      && st.host.reg.sprites[spriteId].(position := s.position) == s
      && st.host.reg.sprites.Keys == h.reg.sprites.Keys
      && (forall other :: other in h.reg.sprites && other != spriteId ==>
            st.host.reg.sprites[other] == h.reg.sprites[other])
      && st.host.reg.textures == h.reg.textures
      && st.host.frame == h.frame && st.host.presented == h.presented
  {
  }

  /** Set-position overwrites the position, whatever it was, and nothing else. */
  lemma SetSpritePositionContract(h: Host, spriteId: string, x: real, y: real)
    requires spriteId in h.reg.sprites
    ensures var st := SetSpritePosition(h, spriteId, x, y); var s := h.reg.sprites[spriteId];
      && st.outcome == Pass
      && st.host == PutSprite(h, spriteId, s.(position := Vec2(x, y)))
  {
  }

  /** Setting the position (10, 10) and then moving by (3, -2) leaves the sprite at (13, 8). */
  lemma SetThenMove(h: Host, spriteId: string)
    requires spriteId in h.reg.sprites
    ensures var st := MoveSprite(SetSpritePosition(h, spriteId, 10.0, 10.0).host, spriteId, 3.0, -2.0);
      st.outcome == Pass && st.host.reg.sprites[spriteId].position == Vec2(13.0, 8.0)
  {
  }

  /** Set then move ends at (x + dx, y + dy); the reverse order ends at (x, y): order matters. */
  lemma MoveAndSetOrder(h: Host, spriteId: string, x: real, y: real, dx: real, dy: real)
    requires spriteId in h.reg.sprites
    ensures MoveSprite(SetSpritePosition(h, spriteId, x, y).host, spriteId, dx, dy).host.reg.sprites[spriteId].position
            == Vec2(x + dx, y + dy)
    ensures SetSpritePosition(MoveSprite(h, spriteId, dx, dy).host, spriteId, x, y).host
            == SetSpritePosition(h, spriteId, x, y).host
  {
  }

  /** The calls of a script part that moves a sprite n times by (dx, dy). */
  function Moves(spriteId: string, dx: real, dy: real, n: nat): (calls: seq<HostCall>)
    ensures |calls| == n
    ensures forall i :: 0 <= i < n ==> calls[i] == MoveSpriteCall(spriteId, dx, dy)
  {
    if n == 0 then [] else Moves(spriteId, dx, dy, n - 1) + [MoveSpriteCall(spriteId, dx, dy)]
  }

  /** n moves by (dx, dy) add up to one move by (n dx, n dy). */
  lemma {:induction false} MovesAccumulate(h: Host, spriteId: string, dx: real, dy: real, n: nat)
    requires spriteId in h.reg.sprites
    ensures var st := Exec(h, Moves(spriteId, dx, dy, n)); var s := h.reg.sprites[spriteId];
      && st.outcome == Pass
      && st.host == PutSprite(h, spriteId, s.(position := Vec2(s.position.x + n as real * dx,
                                                              s.position.y + n as real * dy)))
  {
    var s := h.reg.sprites[spriteId];
    if n == 0 {
      assert PutSprite(h, spriteId, s) == h;
    } else {
      var k: nat := n - 1;
      var c := MoveSpriteCall(spriteId, dx, dy);
      MovesAccumulate(h, spriteId, dx, dy, k);
      ExecAppend(h, Moves(spriteId, dx, dy, k), [c]);
      assert Moves(spriteId, dx, dy, n) == Moves(spriteId, dx, dy, k) + [c];
      var p := Vec2(s.position.x + k as real * dx, s.position.y + k as real * dy);
      MoveAfterPut(h, spriteId, s.(position := p), dx, dy);
      assert (k as real + 1.0) * dx == k as real * dx + dx;
      assert (k as real + 1.0) * dy == k as real * dy + dy;
      assert n as real == k as real + 1.0;
      var q := Vec2(p.x + dx, p.y + dy);
      assert q == Vec2(s.position.x + n as real * dx, s.position.y + n as real * dy);
      assert PutSprite(PutSprite(h, spriteId, s.(position := p)), spriteId, s.(position := p).(position := q))
          == PutSprite(h, spriteId, s.(position := q));
    }
  }

  /** Moving a sprite just stored is storing it moved. */
  lemma MoveAfterPut(h: Host, spriteId: string, t: Sprite, dx: real, dy: real)
    ensures var q := t.(position := Vec2(t.position.x + dx, t.position.y + dy));
      Exec(PutSprite(h, spriteId, t), [MoveSpriteCall(spriteId, dx, dy)]) == Step(PutSprite(h, spriteId, q), Pass)
  {
    var mid := PutSprite(h, spriteId, t);
    assert Exec(mid, [MoveSpriteCall(spriteId, dx, dy)]) == MoveSprite(mid, spriteId, dx, dy);
  }

  /**
   * The origin is half the width and height of the most recent rectangle:
   * a second SetSpriteRect wipes out every trace of the first, and the
   * position is never touched.
   */
  lemma SetSpriteRectContract(h: Host, spriteId: string, left: int, top: int, width: int, height: int)
    requires spriteId in h.reg.sprites
    ensures var st := SetSpriteRect(h, spriteId, left, top, width, height); var s := h.reg.sprites[spriteId];
      && st.outcome == Pass
      && st.host.reg.sprites[spriteId].rect == IntRect(left, top, width, height)
      && 2.0 * st.host.reg.sprites[spriteId].origin.x == width as real
      && 2.0 * st.host.reg.sprites[spriteId].origin.y == height as real
      && st.host.reg.sprites[spriteId].position == s.position
      && st.host.reg.sprites[spriteId].textureId == s.textureId
      && st.host.reg.sprites.Keys == h.reg.sprites.Keys
      && (forall other :: other in h.reg.sprites && other != spriteId ==>
            st.host.reg.sprites[other] == h.reg.sprites[other])
      && st.host.reg.textures == h.reg.textures
      && st.host.frame == h.frame && st.host.presented == h.presented
  {
  }

  lemma SetSpriteRectLatestWins(h: Host, spriteId: string, l1: int, t1: int, w1: int, h1: int,
                                l2: int, t2: int, w2: int, h2: int)
    ensures SetSpriteRect(SetSpriteRect(h, spriteId, l1, t1, w1, h1).host, spriteId, l2, t2, w2, h2)
            == SetSpriteRect(h, spriteId, l2, t2, w2, h2)
  {
  }

  /** The rectangle (0, 0, 40, 60) puts the origin at (20, 30). */
  lemma SetSpriteRectExample(h: Host, spriteId: string)
    requires spriteId in h.reg.sprites
    ensures SetSpriteRect(h, spriteId, 0, 0, 40, 60).host.reg.sprites[spriteId].origin == Vec2(20.0, 30.0)
  {
  }

  /**
   * Draw places the sprite at (x, y) and then submits exactly one draw of it,
   * as placed, to the current frame.
   */
  lemma DrawSpriteContract(h: Host, spriteId: string, x: real, y: real)
    requires spriteId in h.reg.sprites
    ensures var st := DrawSprite(h, spriteId, x, y); var s' := h.reg.sprites[spriteId].(position := Vec2(x, y));
      && st.outcome == Pass
      && st.host.reg == PutSprite(h, spriteId, s').reg
      && st.host.frame == h.frame + [DrawCall(spriteId, s')]
      && st.host.presented == h.presented
  {
  }

  // ---------------------------------------------------------------------------
  // Sequences of calls

  /** Running two runs of calls back to back is running their concatenation. */
  lemma {:induction false} ExecAppend(h: Host, a: seq<HostCall>, b: seq<HostCall>)
    ensures Exec(h, a + b) ==
      (var st := Exec(h, a); if st.outcome.Fail? then st else Exec(st.host, b))
    decreases |a|
  {
    if a == [] {
      assert a + b == b;
    } else {
      assert (a + b)[0] == a[0];
      assert (a + b)[1..] == a[1..] + b;
      var st := Apply(h, a[0]);
      if st.outcome.Pass? {
        ExecAppend(st.host, a[1..], b);
      }
    }
  }

  /** One host call keeps the registry invariant and only grows the registry. */
  lemma ApplyKeepsRegistry(h: Host, c: HostCall)
    ensures SpritesReferenceTextures(h.reg) ==> SpritesReferenceTextures(Apply(h, c).host.reg)
    ensures Grows(h.reg, Apply(h, c).host.reg)
  {
  }

  /**
   * Whatever a script calls, and wherever it fails, every sprite's texture stays
   * registered, no key disappears, no texture is replaced and no sprite is
   * rebound to another texture.
   */
  lemma {:induction false} ExecKeepsRegistry(h: Host, calls: seq<HostCall>)
    ensures SpritesReferenceTextures(h.reg) ==> SpritesReferenceTextures(Exec(h, calls).host.reg)
    ensures Grows(h.reg, Exec(h, calls).host.reg)
    decreases |calls|
  {
    if calls != [] {
      var st := Apply(h, calls[0]);
      ApplyKeepsRegistry(h, calls[0]);
      if st.outcome.Pass? {
        ExecKeepsRegistry(st.host, calls[1..]);
        GrowsTransitive(h.reg, st.host.reg, Exec(st.host, calls[1..]).host.reg);
      }
    }
  }

  /**
   * One displayed frame: clearing, drawing a sprite and presenting shows exactly
   * that one draw, with the sprite at the drawn position.
   */
  lemma ClearDrawDisplay(h: Host, spriteId: string, x: real, y: real)
    requires spriteId in h.reg.sprites
    ensures var d := DrawSprite(ClearWindow(h), spriteId, x, y);
      && d.outcome == Pass
      && DisplayOnWindow(d.host).presented
         == h.presented + [[DrawCall(spriteId, h.reg.sprites[spriteId].(position := Vec2(x, y)))]]
  {
    var c := DrawCall(spriteId, h.reg.sprites[spriteId].(position := Vec2(x, y)));
    assert DrawSprite(ClearWindow(h), spriteId, x, y).host.frame == [] + [c];
    assert [] + [c] == [c];
  }

  /**
   * A sequence of host calls: load texture "t", create sprite "s" on it, move
   * "s" n times by (1, 0), then draw "s" at its own x: the draw is at (n, 0).
   */
  lemma {:induction false} MovingSpriteScenario(tex: Texture, n: nat)
    ensures var init := Exec(EmptyHost, [LoadTextureCall("t", "x.png", Some(tex)), CreateSpriteCall("s", "t")]);
      var moved := Exec(init.host, Moves("s", 1.0, 0.0, n));
      && init.outcome == Pass && moved.outcome == Pass
      && "s" in moved.host.reg.sprites
      && moved.host.reg.sprites["s"].position == Vec2(n as real, 0.0)
      && var drawn := DrawSprite(moved.host, "s", moved.host.reg.sprites["s"].position.x, 0.0);
         && drawn.outcome == Pass
         && drawn.host.frame == [DrawCall("s", Sprite("t", Vec2(n as real, 0.0), IntRect(0, 0, 0, 0), Vec2(0.0, 0.0)))]
  {
    var init := Exec(EmptyHost, [LoadTextureCall("t", "x.png", Some(tex)), CreateSpriteCall("s", "t")]);
    var h1 := LoadTexture(EmptyHost, "t", "x.png", Some(tex)).host;
    assert Exec(h1, [CreateSpriteCall("s", "t")]) == Exec(CreateSprite(h1, "s", "t").host, []);
    assert init.host == CreateSprite(h1, "s", "t").host;
    assert init.host.reg.sprites["s"] == NewSprite("t");
    MovesAccumulate(init.host, "s", 1.0, 0.0, n);
  }
}
