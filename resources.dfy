/**
 * The resource registry of the engine: textures and sprites keyed by string
 * identifiers, and the fail-fast lookups every host operation goes through.
 */
module Resources {

  datatype Option<T> = None | Some(value: T)

  /** A 2D position or origin; SFML's float coordinates are idealised as reals. */
  datatype Vec2 = Vec2(x: real, y: real)

  /** An integer rectangle of texture pixels (sf::IntRect). */
  datatype IntRect = IntRect(left: int, top: int, width: int, height: int)

  /** A decoded image owned by the rendering backend; only its identity matters here. */
  datatype Texture = Texture(handle: nat)

  /** A drawable instance bound to a registered texture, with its transform state. */
  datatype Sprite = Sprite(textureId: string, position: Vec2, rect: IntRect, origin: Vec2)

  /** The exceptions the host operations raise, one constructor per message. */
  datatype Error =
    | TextureLoadFailed(path: string)          // the image at `path` could not be decoded
    | TextureInsertFailed(textureId: string)   // the texture id is already registered
    | SpriteInsertFailed(spriteId: string)     // the sprite id is already registered
    | TextureNotFound(textureId: string)       // lookup of an unknown texture id
    | SpriteNotFound(spriteId: string)         // lookup of an unknown sprite id
    | ScriptRaised                             // an error raised by the script itself

  datatype Result<T> = Ok(value: T) | Err(error: Error)

  /** The two registries of the engine: texture id -> texture, sprite id -> sprite. */
  datatype Registry = Registry(textures: map<string, Texture>, sprites: map<string, Sprite>)

  /** Both registries start empty. */
  const EmptyRegistry := Registry(map[], map[])

  /** A fresh sprite: positioned at (0,0), origin at its top-left corner, no rectangle chosen yet. */
  function NewSprite(textureId: string): (s: Sprite)
    ensures s.textureId == textureId
    ensures s.position == Vec2(0.0, 0.0) && s.origin == Vec2(0.0, 0.0)
  {
    Sprite(textureId, Vec2(0.0, 0.0), IntRect(0, 0, 0, 0), Vec2(0.0, 0.0))
  }

  /**
   * Lookup of a texture: succeeds exactly when the id is registered, with the
   * registered texture, and otherwise fails naming the id.  The mutable and the
   * read-only overloads of the engine share this one contract.
   */
  function GetTexture(r: Registry, textureId: string): (res: Result<Texture>)
    ensures res.Ok? <==> textureId in r.textures
    ensures res.Ok? ==> res.value == r.textures[textureId]
    ensures res.Err? ==> res.error == TextureNotFound(textureId)
  {
    if textureId in r.textures then Ok(r.textures[textureId]) else Err(TextureNotFound(textureId))
  }

  /** Lookup of a sprite, with the same fail-fast contract as GetTexture. */
  function GetSprite(r: Registry, spriteId: string): (res: Result<Sprite>)
    ensures res.Ok? <==> spriteId in r.sprites
    ensures res.Ok? ==> res.value == r.sprites[spriteId]
    ensures res.Err? ==> res.error == SpriteNotFound(spriteId)
  {
    if spriteId in r.sprites then Ok(r.sprites[spriteId]) else Err(SpriteNotFound(spriteId))
  }

  /** The registry invariant: every registered sprite's texture is registered. */
  predicate SpritesReferenceTextures(r: Registry)
  {
    forall id :: id in r.sprites ==> r.sprites[id].textureId in r.textures
  }

  /**
   * `r'` is a possible later state of `r`: no key was removed, no texture was
   * replaced, and no sprite was rebound to another texture.
   */
  ghost predicate Grows(r: Registry, r': Registry)
  {
    && r.textures.Keys <= r'.textures.Keys
    && r.sprites.Keys <= r'.sprites.Keys
    && (forall id :: id in r.textures ==> r'.textures[id] == r.textures[id])
    && (forall id :: id in r.sprites ==> r'.sprites[id].textureId == r.sprites[id].textureId)
  }

  lemma GrowsTransitive(r1: Registry, r2: Registry, r3: Registry)
    requires Grows(r1, r2) && Grows(r2, r3)
    ensures Grows(r1, r3)
  {
  }
}
