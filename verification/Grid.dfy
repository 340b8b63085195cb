/** The tile grid: a layered map flattened into one row-major vector, and the queries on it. */
module Grid {
  import opened Prelude

  const WORD := 0x1_0000_0000

  /** What a layer has laid at a place: nothing, or a tile, which may have a property of its own. */
  datatype Cell = Bare | Laid(interesting: Option<string>)

  datatype Layer = Layer(name: string, solid: string, at: (nat, nat) -> Cell)

  /** The parsed map file. Property strings are empty when the property is missing. */
  datatype Tmx = Tmx(width: nat, height: nat, tileWidth: nat, tileHeight: nat, layers: seq<Layer>)

  datatype MapTile = MapTile(isSolid: bool, isInteresting: bool, isSpawn: bool)

  const SPAWN_LAYER := "__playerSpawn"

  // --- What the layers say about a place ---

  predicate SolidBy(l: Layer, x: nat, y: nat) {
    l.at(x, y).Laid? && l.solid != ""
  }

  predicate InterestingBy(l: Layer, x: nat, y: nat) {
    l.at(x, y).Laid? && l.at(x, y).interesting.Some? && l.at(x, y).interesting.value != ""
  }

  predicate SpawnBy(l: Layer, x: nat, y: nat) {
    l.at(x, y).Laid? && l.name == SPAWN_LAYER
  }

  ghost predicate Solid(t: Tmx, x: nat, y: nat) {
    exists l :: l in t.layers && SolidBy(l, x, y)
  }

  ghost predicate Interesting(t: Tmx, x: nat, y: nat) {
    exists l :: l in t.layers && InterestingBy(l, x, y)
  }

  ghost predicate Spawn(t: Tmx, x: nat, y: nat) {
    exists l :: l in t.layers && SpawnBy(l, x, y)
  }

  /** A stored tile agrees with the layers. */
  ghost predicate Agrees(t: Tmx, x: nat, y: nat, tile: MapTile) {
    (tile.isSolid <==> Solid(t, x, y)) && (tile.isInteresting <==> Interesting(t, x, y)) && !tile.isSpawn
  }

  // --- Row-major order ---

  function Place(w: nat, x: nat, y: nat): nat {
    x + w * y
  }

  /** `(x', y')` comes before `(x, y)` row by row. */
  predicate Earlier(x': nat, y': nat, x: nat, y: nat) {
    y' < y || (y' == y && x' < x)
  }

  lemma {:induction false} RowsBelow(w: nat, a: nat, b: nat)
    requires a <= b
    ensures w * a <= w * b
  {
    if a < b {
      RowsBelow(w, a, b - 1);
      assert w * b == w * (b - 1) + w;
    }
  }

  lemma PlaceOrder(w: nat, x': nat, y': nat, x: nat, y: nat)
    requires x' < w && x < w
    ensures Earlier(x', y', x, y) <==> Place(w, x', y') < Place(w, x, y)
    ensures Place(w, x', y') == Place(w, x, y) ==> x' == x && y' == y
  {
    RowGap(w, x', y', x, y);
    RowGap(w, x, y, x', y');
  }

  lemma RowGap(w: nat, x': nat, y': nat, x: nat, y: nat)
    requires x' < w && x < w
    ensures y' < y ==> Place(w, x', y') < Place(w, x, y)
  {
    if y' < y {
      RowsBelow(w, y' + 1, y);
      assert w * (y' + 1) == w * y' + w;
    }
  }

  lemma PlaceBound(w: nat, h: nat, x: nat, y: nat)
    requires x < w && y < h
    ensures Place(w, x, y) < w * h
  {
    RowsBelow(w, y + 1, h);
    assert w * (y + 1) == w * y + w;
  }

  /** Every index of the vector is the place of exactly one tile. */
  lemma PlaceIsOnto(w: nat, h: nat, k: nat)
    requires k < w * h
    ensures w > 0 && k % w < w && k / w < h && Place(w, k % w, k / w) == k
    ensures forall x: nat, y: nat :: x < w && y < h && Place(w, x, y) == k ==> x == k % w && y == k / w
  {
    var y := k / w;
    assert k == w * y + k % w;
    if h <= y {
      RowsBelow(w, h, y);
    }
    forall x: nat, y: nat | x < w && y < h && Place(w, x, y) == k
      ensures x == k % w && y == k / w
    {
      PlaceOrder(w, x, y, k % w, k / w);
    }
  }

  /** `resolveTileLoc`: both operations are done on 32-bit unsigned numbers. */
  function ResolveTileLoc(w: nat, x: nat, y: nat): nat {
    (x + (w * y) % WORD) % WORD
  }

  /** The 32-bit computation finds every tile of the map if and only if the map has at most 2^32 tiles. */
  lemma ResolvesIff(w: nat, h: nat)
    ensures (forall x: nat, y: nat :: x < w && y < h ==> ResolveTileLoc(w, x, y) == Place(w, x, y)) <==> w * h <= WORD
  {
    if w * h <= WORD {
      forall x: nat, y: nat | x < w && y < h
        ensures ResolveTileLoc(w, x, y) == Place(w, x, y)
      {
        PlaceBound(w, h, x, y);
      }
    } else {
      PlaceIsOnto(w, h, WORD);
      assert ResolveTileLoc(w, WORD % w, WORD / w) < WORD == Place(w, WORD % w, WORD / w);
    }
  }

  // --- The map object ---

  /** The first `n` tiles in row-major order are stored. */
  ghost predicate TilesStored(t: Tmx, tiles: seq<MapTile>, n: nat) {
    && |tiles| == n
    && forall x: nat, y: nat :: x < t.width && y < t.height && Place(t.width, x, y) < n ==>
         Agrees(t, x, y, tiles[Place(t.width, x, y)])
  }

  /** The last spawn tile among those placed before `n`; none if there is no spawn tile among them. */
  ghost predicate LastSpawn(t: Tmx, spawn: Option<(nat, nat)>, n: nat) {
    && (spawn.Some? ==>
          && spawn.value.0 < t.width && spawn.value.1 < t.height && Spawn(t, spawn.value.0, spawn.value.1)
          && Place(t.width, spawn.value.0, spawn.value.1) < n)
    && forall x: nat, y: nat :: x < t.width && y < t.height && Place(t.width, x, y) < n && Spawn(t, x, y) ==>
         spawn.Some? && Place(t.width, x, y) <= Place(t.width, spawn.value.0, spawn.value.1)
  }

  lemma StoreOne(t: Tmx, tiles: seq<MapTile>, x: nat, y: nat, tile: MapTile)
    requires x < t.width && TilesStored(t, tiles, Place(t.width, x, y)) && Agrees(t, x, y, tile)
    ensures TilesStored(t, tiles + [tile], Place(t.width, x, y) + 1)
  {
    hide Agrees;
    forall x': nat, y': nat | x' < t.width && y' < t.height && Place(t.width, x', y') < Place(t.width, x, y) + 1
      ensures Agrees(t, x', y', (tiles + [tile])[Place(t.width, x', y')])
    {
      PlaceOrder(t.width, x', y', x, y);
    }
  }

  lemma SpawnOne(t: Tmx, before: Option<(nat, nat)>, x: nat, y: nat)
    requires x < t.width && y < t.height && LastSpawn(t, before, Place(t.width, x, y))
    ensures LastSpawn(t, if Spawn(t, x, y) then Some((x, y)) else before, Place(t.width, x, y) + 1)
  {
    hide Spawn;
    forall x': nat, y': nat | x' < t.width && y' < t.height && Place(t.width, x', y') == Place(t.width, x, y)
      ensures x' == x && y' == y
    {
      PlaceOrder(t.width, x', y', x, y);
    }
  }

  class GameMap {
    const tmx: Tmx
    var tiles: seq<MapTile>
    var spawnPoint: Option<(nat, nat)>  // `None`: not written by `parseTiles`

    /** `tiles` holds one entry per place, each agreeing with the layers, and the spawn point is the last one laid. */
    ghost predicate Parsed()
      reads this
    {
      TilesStored(tmx, tiles, tmx.width * tmx.height) && LastSpawn(tmx, spawnPoint, tmx.width * tmx.height)
    }

    constructor (t: Tmx)
      ensures tmx == t && Parsed()
    {
      tmx, tiles, spawnPoint := t, [], None;
      new;
      ParseTiles();
    }

    /** What the layers say about one place: the innermost loop. */
    method ParseTile(x: nat, y: nat)
      modifies this
      ensures exists tile :: Agrees(tmx, x, y, tile) && tiles == old(tiles) + [tile]
      ensures spawnPoint == if Spawn(tmx, x, y) then Some((x, y)) else old(spawnPoint)
    {
      var solid, interesting := false, false;
      var n := 0;
      while n < |tmx.layers|
        invariant 0 <= n <= |tmx.layers| && tiles == old(tiles)
        invariant solid <==> exists k :: 0 <= k < n && SolidBy(tmx.layers[k], x, y)
        invariant interesting <==> exists k :: 0 <= k < n && InterestingBy(tmx.layers[k], x, y)
        invariant spawnPoint == if exists k :: 0 <= k < n && SpawnBy(tmx.layers[k], x, y)
                                then Some((x, y)) else old(spawnPoint)
      {
        var layer := tmx.layers[n];
        if layer.at(x, y).Laid? {
          if layer.solid != "" {
            solid := true;
          }
          var property := layer.at(x, y).interesting;
          if property.Some? && property.value != "" {
            interesting := true;
          }
          if layer.name == SPAWN_LAYER {
            spawnPoint := Some((x, y));
          }
        }
        n := n + 1;
      }
      var tile := MapTile(solid, interesting, false);
      assert Agrees(tmx, x, y, tile);
      tiles := tiles + [tile];
    }

    method ParseTiles()
      requires tiles == [] && spawnPoint.None?
      modifies this
      ensures Parsed()
    {
      var w, h := tmx.width, tmx.height;
      var y := 0;
      while y < h
        invariant 0 <= y <= h && TilesStored(tmx, tiles, w * y) && LastSpawn(tmx, spawnPoint, w * y)
      {
        var x := 0;
        assert w * y == Place(w, 0, y);
        while x < w
          invariant 0 <= x <= w && TilesStored(tmx, tiles, Place(w, x, y)) && LastSpawn(tmx, spawnPoint, Place(w, x, y))
        {
          hide TilesStored, LastSpawn, Agrees, Spawn;
          ghost var laid, spawn := tiles, spawnPoint;
          ParseTile(x, y);
          ghost var tile :| Agrees(tmx, x, y, tile) && tiles == laid + [tile];
          StoreOne(tmx, laid, x, y, tile);
          SpawnOne(tmx, spawn, x, y);
          x := x + 1;
        }
        assert Place(w, w, y) == w * (y + 1);
        y := y + 1;
      }
    }

    /** A place of the map is looked up correctly, wrap-around included, on any map of at most 2^32 tiles. */
    method GetTile(x: nat, y: nat) returns (tile: MapTile)
      requires Parsed() && x < tmx.width && y < tmx.height && tmx.width * tmx.height <= WORD
      ensures tile.isSolid <==> Solid(tmx, x, y)
      ensures tile.isInteresting <==> Interesting(tmx, x, y)
      ensures !tile.isSpawn
    {
      hide Solid, Interesting, Spawn, LastSpawn;
      ResolvesIff(tmx.width, tmx.height);
      PlaceBound(tmx.width, tmx.height, x, y);
      tile := tiles[ResolveTileLoc(tmx.width, x, y)];
    }
  }

  /** What counts: any non-empty property, on the layer for solid and on the tile for interesting; one layer's name. */
  lemma LayersSay(solid: string, interesting: string, x: nat, y: nat)
    ensures var bare, plain := (i: nat, j: nat) => Bare, (i: nat, j: nat) => Laid(None);
            var tagged := (i: nat, j: nat) => Laid(Some(interesting));
            && !SolidBy(Layer("walls", solid, bare), x, y) && (SolidBy(Layer("walls", solid, plain), x, y) <==> solid != "")
            && !InterestingBy(Layer("walls", solid, bare), x, y) && !InterestingBy(Layer("walls", solid, plain), x, y)
            && (InterestingBy(Layer("walls", solid, tagged), x, y) <==> interesting != "")
            && !SpawnBy(Layer("__playerSpawn", solid, bare), x, y) && SpawnBy(Layer("__playerSpawn", solid, plain), x, y)
            && !SpawnBy(Layer("playerSpawn", solid, plain), x, y)
  {
  }

  /** The vector is determined by the layers: two parsed maps of the same file hold the same tiles. */
  lemma ParsedIsUnique(t: Tmx, a: seq<MapTile>, b: seq<MapTile>)
    requires TilesStored(t, a, t.width * t.height) && TilesStored(t, b, t.width * t.height)
    ensures a == b
  {
    hide Solid, Interesting;
    forall k | 0 <= k < |a|
      ensures a[k] == b[k]
    {
      PlaceIsOnto(t.width, t.height, k);
      var x, y := k % t.width, k / t.width;
      assert Agrees(t, x, y, a[Place(t.width, x, y)]) && Agrees(t, x, y, b[Place(t.width, x, y)]);
    }
  }

  /** So is the spawn point. */
  lemma SpawnIsUnique(t: Tmx, a: Option<(nat, nat)>, b: Option<(nat, nat)>, n: nat)
    requires LastSpawn(t, a, n) && LastSpawn(t, b, n)
    ensures a == b
  {
    hide Spawn;
    if a.Some? && b.Some? {
      PlaceOrder(t.width, a.value.0, a.value.1, b.value.0, b.value.1);
    }
  }
}
