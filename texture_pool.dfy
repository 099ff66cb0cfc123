/** CTexturePool: a path-keyed memo cache of loaded textures. The image
    loader (png_load_SOIL) is a parameter; a ghost log records every path it
    was asked to load. */
module TexturePool {

  datatype TextureData = TextureData(id: nat, width: int, height: int)

  /** The record getTextureData reports for a path that was never loaded. */
  const NO_TEXTURE: TextureData := TextureData(0, 0, 0)

  /** getTexture on a pool: the cached record, or the loader's record, which is then cached. */
  function Lookup(pool: map<string, TextureData>, path: string, loaded: TextureData): (r: (TextureData, map<string, TextureData>))
    ensures path in pool ==> r.0 == pool[path] && r.1 == pool
    ensures path !in pool ==> r.0 == loaded
    ensures path in r.1 && r.1[path] == r.0
    ensures pool.Keys <= r.1.Keys && forall p :: p in pool ==> r.1[p] == pool[p]
    ensures forall p :: p in r.1 && p != path ==> p in pool
  {
    if path in pool then (pool[path], pool) else (loaded, pool[path := loaded])
  }

  /** Asking twice is asking once: the second lookup hits the cache, returns
      the same record and leaves the pool as the first one left it. */
  lemma LookupTwice(pool: map<string, TextureData>, path: string, loaded1: TextureData, loaded2: TextureData)
    ensures var first := Lookup(pool, path, loaded1);
      var second := Lookup(first.1, path, loaded2);
      second.0 == first.0 && second.1 == first.1
  {
  }

  /** A lookup of another path leaves this path's entry (or absence) as it was. */
  lemma LookupKeepsOthers(pool: map<string, TextureData>, path: string, other: string, loaded: TextureData)
    requires other != path
    ensures var r := Lookup(pool, path, loaded);
      (other in r.1 <==> other in pool) && (other in pool ==> r.1[other] == pool[other])
  {
  }

  class CTexturePool {
    var pool: map<string, TextureData>
    /** The paths handed to the loader, in order. */
    ghost var loads: seq<string>

    constructor ()
      ensures pool == map[] && loads == []
    {
      pool := map[];
      loads := [];
    }

    /** getTexture: a cached path is answered from the cache without loading;
        otherwise the loader runs once and its record is cached and returned. */
    method GetTexture(path: string, mipmap: bool, load: (string, bool) -> TextureData) returns (td: TextureData)
      modifies this
      ensures (td, pool) == Lookup(old(pool), path, load(path, mipmap))
      ensures path in old(pool) ==> loads == old(loads)
      ensures path !in old(pool) ==> loads == old(loads) + [path]
    {
      if path in pool {
        return pool[path];
      }
      td := load(path, mipmap);
      loads := loads + [path];
      pool := pool[path := td];
    }

    /** getTextureData: the cached record, or all zeros; the pool is not touched. */
    function GetTextureData(path: string): (td: TextureData)
      reads this
      ensures path in pool ==> td == pool[path]
      ensures path !in pool ==> td == NO_TEXTURE
    {
      if path in pool then pool[path] else NO_TEXTURE
    }

    /** cleanup: every texture is released and the pool is empty. */
    method Cleanup()
      modifies this`pool
      ensures pool == map[]
    {
      pool := map[];
    }
  }
}
