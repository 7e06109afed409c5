/** The block and texture registry: texture ids are handed out in order and
    every texture must share the size of the first one; block ids are chosen by
    the caller and the first registration of an id wins. */
module Blocks {

  /** The six faces of a cube, in the order of the source's enum. */
  datatype BlockFace = LEFT | RIGHT | TOP | BOTTOM | FRONT | BACK

  /** The integer value of each enum member: FRONT is 4 and BACK is 5, which
      is the reverse of the position order used by the rotation table. */
  function Ordinal(f: BlockFace): (n: nat)
    ensures n < 6
  {
    match f
    case LEFT => 0
    case RIGHT => 1
    case TOP => 2
    case BOTTOM => 3
    case FRONT => 4
    case BACK => 5
  }

  /** `new BlockFace()` in C# is the member whose value is 0. */
  const DefaultFace: BlockFace := LEFT

  lemma OrdinalInjective(f: BlockFace, g: BlockFace)
    requires Ordinal(f) == Ordinal(g)
    ensures f == g
  {
  }

  /** A texture image; only its size matters to the registry. */
  class Texture2D {
    const width: int
    const height: int

    constructor (width: int, height: int)
      ensures this.width == width && this.height == height
    {
      this.width, this.height := width, height;
    }
  }

  /** A registered block type. Its per-face UV quads come from the texture
      atlas, which is not part of this model. */
  class Block {
    constructor ()
    {
    }
  }

  class BlockRegistry {
    var blocks: map<int, Block>
    var textures: map<int, Texture2D>
    /** `textureDimension`: (0, 0) until the first texture fixes it. */
    var dimX: int
    var dimY: int

    /** Texture ids are exactly 0 .. |textures| - 1. */
    ghost predicate Valid()
      reads this
    {
      forall i :: i in textures <==> 0 <= i < |textures|
    }

    constructor ()
      ensures Valid()
      ensures blocks == map[] && textures == map[] && dimX == 0 && dimY == 0
    {
      blocks, textures := map[], map[];
      dimX, dimY := 0, 0;
    }

    /** The first call (while the size is still zero) fixes the accepted size;
        a texture of another size is rejected with -1 and not stored; an
        accepted texture gets the next consecutive id. */
    method AddTexture(texture: Texture2D) returns (id: int)
      requires Valid()
      modifies this
      ensures Valid()
      ensures (dimX, dimY) ==
              if old(dimX) == 0 && old(dimY) == 0 then (texture.width, texture.height)
              else (old(dimX), old(dimY))
      ensures texture.width == dimX && texture.height == dimY ==>
                id == old(|textures|) && textures == old(textures)[id := texture]
      ensures !(texture.width == dimX && texture.height == dimY) ==>
                id == -1 && textures == old(textures)
      ensures id == -1 || id !in old(textures)
      ensures blocks == old(blocks)
    {
      if dimX == 0 && dimY == 0 {
        dimX, dimY := texture.width, texture.height;
      }
      if texture.width != dimX || texture.height != dimY {
        return -1;
      }
      id := |textures|;
      assert id !in textures;
      textures := textures[id := texture];
      assert |textures| == id + 1;
    }

    /** The texture stored under `textureId`; the dictionary lookup throws on
        an unknown id. */
    function GetTextureById(textureId: int): (t: Texture2D)
      requires textureId in textures
      reads this
      ensures t == textures[textureId]
    {
      textures[textureId]
    }

    /** A new id gets a fresh block, which is returned; an id already in use
        yields null and keeps the original block. */
    method RegisterBlock(blockId: int) returns (b: Block?)
      modifies this
      ensures blockId in old(blocks) ==> b == null && blocks == old(blocks)
      ensures blockId !in old(blocks) ==>
                b != null && fresh(b) && blocks == old(blocks)[blockId := b]
      ensures textures == old(textures) && dimX == old(dimX) && dimY == old(dimY)
    {
      if blockId in blocks {
        return null;
      }
      b := new Block();
      blocks := blocks[blockId := b];
    }

    /** The registered block, or null for an id never registered. */
    function GetBlock(blockId: int): (b: Block?)
      reads this
      ensures b == null <==> blockId !in blocks
      ensures b != null ==> b == blocks[blockId]
    {
      if blockId !in blocks then null else blocks[blockId]
    }
  }
}
