/** Moving entities over the grid: the key presses, the queue of moves, and the map they are checked against. */
module Movement {
  import opened Prelude
  import opened Grid

  type Entity = nat

  /** Positions are whole multiples of the tile size, so integers stand for the source's floats. */
  datatype Pos = Pos(x: int, y: int)

  datatype Move = Move(entity: Entity, dx: int, dy: int)

  datatype MoveKey = KeyW | KeyA | KeyS | KeyD | Pad1 | Pad2 | Pad3 | Pad4 | Pad6 | Pad7 | Pad8 | Pad9 | Space

  // --- One move ---

  function Destination(t: Tmx, p: Pos, m: Move): Pos {
    Pos(p.x + m.dx * t.tileWidth, p.y + m.dy * t.tileHeight)
  }

  /** The lookup at a coordinate is of a tile of the map. */
  predicate InRange(t: Tmx, p: Pos) {
    && t.tileWidth > 0 && t.tileHeight > 0 && p.x >= 0 && p.y >= 0
    && p.x / t.tileWidth < t.width && p.y / t.tileHeight < t.height
  }

  ghost predicate SolidAtCoord(t: Tmx, p: Pos)
    requires InRange(t, p)
  {
    Solid(t, p.x / t.tileWidth, p.y / t.tileHeight)
  }

  /** The positions after one move; `None` when the entity has no position or the lookup leaves the map. */
  ghost function MoveOne(t: Tmx, positions: map<Entity, Pos>, m: Move): Option<map<Entity, Pos>> {
    if m.entity !in positions then None
    else
      var d := Destination(t, positions[m.entity], m);
      if !InRange(t, d) then None
      else Some(if SolidAtCoord(t, d) then positions else positions[m.entity := d])
  }

  /** The positions after a queue of moves. */
  ghost function MoveAll(t: Tmx, positions: map<Entity, Pos>, moves: seq<Move>): Option<map<Entity, Pos>> {
    if moves == [] then Some(positions)
    else
      var before := MoveAll(t, positions, moves[..|moves| - 1]);
      if before.None? then None else MoveOne(t, before.value, moves[|moves| - 1])
  }

  class MovementSystem {
    const world: GameMap
    const networked: bool
    var positions: map<Entity, Pos>
    var moves: seq<Move>
    var queuedPackets: seq<Move>

    constructor (world: GameMap, networked: bool)
      ensures this.world == world && this.networked == networked && positions == map[] && moves == [] && queuedPackets == []
    {
      this.world, this.networked, positions, moves, queuedPackets := world, networked, map[], [], [];
    }

    method AddMove(m: Move)
      modifies this`moves
      ensures moves == old(moves) + [m]
    {
      moves := moves + [m];
    }

    method IsSolidAtCoord(p: Pos) returns (solid: bool)
      requires world.Parsed() && world.tmx.width * world.tmx.height <= WORD && InRange(world.tmx, p)
      ensures solid <==> SolidAtCoord(world.tmx, p)
    {
      var tile := world.GetTile(p.x / world.tmx.tileWidth, p.y / world.tmx.tileHeight);
      solid := tile.isSolid;
    }

    /**
     * `update`: every queued move is tried in turn, and the queue is emptied. A packet goes out for every
     * move, also for those that were blocked.
     */
    method Update()
      requires world.Parsed() && world.tmx.width * world.tmx.height <= WORD
      requires MoveAll(world.tmx, positions, moves).Some?
      modifies this
      ensures Some(positions) == old(MoveAll(world.tmx, positions, moves))
      ensures queuedPackets == old(queuedPackets) + if networked then old(moves) else []
      ensures moves == []
    {
      hide InRange, SolidAtCoord, Destination;
      ghost var start, packets := positions, queuedPackets;
      var n := 0;
      while n < |moves|
        invariant 0 <= n <= |moves| && moves == old(moves)
        invariant Some(positions) == MoveAll(world.tmx, start, moves[..n])
        invariant queuedPackets == packets + if networked then moves[..n] else []
      {
        var move := moves[n];
        PrefixDefined(world.tmx, start, moves, n + 1);
        assert moves[..n + 1][..n] == moves[..n];
        MoveReads(world.tmx, positions, move);
        var destination := Target(move);
        var blocked := IsSolidAtCoord(destination);
        if !blocked {
          positions := positions[move.entity := destination];
        }
        if networked {
          queuedPackets := queuedPackets + [move];
        }
        n := n + 1;
      }
      assert moves[..n] == moves;
      moves := [];
    }

    function Target(m: Move): Pos
      requires m.entity in positions
      reads this
    {
      Destination(world.tmx, positions[m.entity], m)
    }

    /** `InputSystem::processEntity`: the first pressed key in the source's order queues at most one move. */
    method ProcessEntity(pressed: set<MoveKey>, entity: Entity)
      modifies this`moves
      ensures moves == old(moves) + KeyQueue(pressed, entity)
    {
      if KeyW in pressed || Pad8 in pressed {
        AddMove(Move(entity, 0, -1));
      } else if KeyA in pressed || Pad4 in pressed {
        AddMove(Move(entity, -1, 0));
      } else if KeyS in pressed || Pad2 in pressed {
        AddMove(Move(entity, 0, 1));
      } else if KeyD in pressed || Pad6 in pressed {
        AddMove(Move(entity, 1, 0));
      } else if Pad7 in pressed {
        AddMove(Move(entity, -1, -1));
      } else if Pad9 in pressed {
        AddMove(Move(entity, 1, -1));
      } else if Pad1 in pressed {
        AddMove(Move(entity, -1, 1));
      } else if Pad3 in pressed {
        AddMove(Move(entity, 1, 1));
      }
    }

    /** A frame: the key presses, then `update`. Each key takes the entity the way it says. */
    method PlayFrame(pressed: set<MoveKey>, entity: Entity, ghost x: int, ghost y: int)
      requires world.Parsed() && world.tmx.width * world.tmx.height <= WORD && moves == []
      requires world.tmx.tileWidth > 0 && world.tmx.tileHeight > 0
      requires entity in positions && positions[entity] == AtTile(world.tmx, x, y)
      requires MoveAll(world.tmx, positions, KeyQueue(pressed, entity)).Some?
      modifies this
      ensures Stepped(world.tmx, old(positions), positions, pressed, entity, x, y) && moves == []
    {
      KeysLead(world.tmx, positions, pressed, entity, x, y);
      hide MoveAll, KeyQueue, Stepped;
      ProcessEntity(pressed, entity);
      assert moves == KeyQueue(pressed, entity);
      Update();
    }
  }

  /** What a frame's key presses ask for: at most one step to one of the eight neighbouring tiles. */
  function KeyMove(pressed: set<MoveKey>): (r: Option<(int, int)>)
    ensures r.Some? ==> -1 <= r.value.0 <= 1 && -1 <= r.value.1 <= 1 && r.value != (0, 0)
    ensures r.None? <==> forall k :: k in pressed ==> k.Space?
  {
    if KeyW in pressed || Pad8 in pressed then Some((0, -1))
    else if KeyA in pressed || Pad4 in pressed then Some((-1, 0))
    else if KeyS in pressed || Pad2 in pressed then Some((0, 1))
    else if KeyD in pressed || Pad6 in pressed then Some((1, 0))
    else if Pad7 in pressed then Some((-1, -1))
    else if Pad9 in pressed then Some((1, -1))
    else if Pad1 in pressed then Some((-1, 1))
    else if Pad3 in pressed then Some((1, 1))
    else None
  }

  function KeyQueue(pressed: set<MoveKey>, e: Entity): seq<Move> {
    var r := KeyMove(pressed);
    if r.None? then [] else [Move(e, r.value.0, r.value.1)]
  }

  /** Everything the key presses of a sequence of frames ever queue. */
  function Typed(frames: seq<set<MoveKey>>, e: Entity): seq<Move> {
    if frames == [] then [] else Typed(frames[..|frames| - 1], e) + KeyQueue(frames[|frames| - 1], e)
  }

  lemma {:induction false} PrefixDefined(t: Tmx, positions: map<Entity, Pos>, moves: seq<Move>, n: nat)
    requires n <= |moves| && MoveAll(t, positions, moves).Some?
    ensures MoveAll(t, positions, moves[..n]).Some?
  {
    if n < |moves| {
      PrefixDefined(t, positions, moves[..|moves| - 1], n);
      assert moves[..|moves| - 1][..n] == moves[..n];
    } else {
      assert moves[..n] == moves;
    }
  }

  lemma MoveReads(t: Tmx, positions: map<Entity, Pos>, m: Move)
    requires MoveOne(t, positions, m).Some?
    ensures m.entity in positions && InRange(t, Destination(t, positions[m.entity], m))
  {
  }

  // --- Staying on walkable tiles ---

  /** Whole tiles from the origin, on a tile of the map that is not solid. */
  ghost predicate Walkable(t: Tmx, p: Pos) {
    InRange(t, p) && p.x % t.tileWidth == 0 && p.y % t.tileHeight == 0 && !SolidAtCoord(t, p)
  }

  ghost predicate AllWalkable(t: Tmx, positions: map<Entity, Pos>) {
    forall e :: e in positions ==> Walkable(t, positions[e])
  }

  /** Moves of entities on the map, of at most one tile along each axis. */
  predicate UnitMoves(positions: map<Entity, Pos>, moves: seq<Move>) {
    forall k :: 0 <= k < |moves| ==> moves[k].entity in positions && -1 <= moves[k].dx <= 1 && -1 <= moves[k].dy <= 1
  }

  predicate OnBorder(t: Tmx, x: nat, y: nat) {
    x < t.width && y < t.height && (x == 0 || x == t.width - 1 || y == 0 || y == t.height - 1)
  }

  ghost predicate BorderSolid(t: Tmx) {
    forall x: nat, y: nat :: OnBorder(t, x, y) ==> Solid(t, x, y)
  }

  function AtTile(t: Tmx, x: int, y: int): Pos {
    Pos(x * t.tileWidth, y * t.tileHeight)
  }

  lemma WholeTiles(size: nat, n: nat)
    requires size > 0
    ensures n * size / size == n && n * size % size == 0
  {
    var p := n * size;
    assert size * n == p == size * (p / size) + p % size;
    PlaceOrder(size, 0, n, p % size, p / size);
  }

  lemma SignOfTiles(size: nat, n: int)
    requires size > 0
    ensures n * size >= 0 <==> n >= 0
    ensures n * size == 0 <==> n == 0
  {
    if n > 0 {
      RowsBelow(size, 1, n);
      assert size * n == n * size;
    } else if n < 0 {
      RowsBelow(size, 1, -n);
      assert size * -n == -(n * size);
    }
  }

  lemma TileOf(size: nat, p: int)
    requires size > 0 && p % size == 0
    ensures p == p / size * size
  {
  }

  lemma CoordOfTile(t: Tmx, x: int, y: int)
    requires t.tileWidth > 0 && t.tileHeight > 0
    ensures InRange(t, AtTile(t, x, y)) <==> 0 <= x < t.width && 0 <= y < t.height
    ensures InRange(t, AtTile(t, x, y)) ==> (SolidAtCoord(t, AtTile(t, x, y)) <==> Solid(t, x, y))
    ensures Walkable(t, AtTile(t, x, y)) <==> 0 <= x < t.width && 0 <= y < t.height && !Solid(t, x, y)
  {
    hide Solid;
    SignOfTiles(t.tileWidth, x);
    SignOfTiles(t.tileHeight, y);
    if x >= 0 && y >= 0 {
      WholeTiles(t.tileWidth, x);
      WholeTiles(t.tileHeight, y);
    }
  }

  /** A walkable position is that of a tile which is not solid. */
  lemma WalkableTile(t: Tmx, p: Pos) returns (x: nat, y: nat)
    requires Walkable(t, p)
    ensures x < t.width && y < t.height && !Solid(t, x, y) && p == AtTile(t, x, y)
  {
    x, y := p.x / t.tileWidth, p.y / t.tileHeight;
    TileOf(t.tileWidth, p.x);
    TileOf(t.tileHeight, p.y);
  }

  lemma NextTile(t: Tmx, x: int, y: int, m: Move)
    ensures Destination(t, AtTile(t, x, y), m) == AtTile(t, x + m.dx, y + m.dy)
  {
    assert (x + m.dx) * t.tileWidth == x * t.tileWidth + m.dx * t.tileWidth;
    assert (y + m.dy) * t.tileHeight == y * t.tileHeight + m.dy * t.tileHeight;
  }

  lemma OneStaysWalkable(t: Tmx, positions: map<Entity, Pos>, m: Move)
    requires BorderSolid(t) && AllWalkable(t, positions) && UnitMoves(positions, [m])
    ensures var r := MoveOne(t, positions, m); r.Some? && AllWalkable(t, r.value) && r.value.Keys == positions.Keys
  {
    hide Walkable, Solid, InRange;
    assert [m][0] == m;
    var p := positions[m.entity];
    var x, y := WalkableTile(t, p);
    assert !OnBorder(t, x, y);
    HasArea(t, p);
    NextTile(t, x, y, m);
    CoordOfTile(t, x + m.dx, y + m.dy);
  }

  lemma HasArea(t: Tmx, p: Pos)
    requires Walkable(t, p)
    ensures t.tileWidth > 0 && t.tileHeight > 0
  {
  }

  /** On a map with a solid border, every queue of unit moves is harmless from every walkable start. */
  lemma {:induction false} AllStayWalkable(t: Tmx, positions: map<Entity, Pos>, moves: seq<Move>)
    requires BorderSolid(t) && AllWalkable(t, positions) && UnitMoves(positions, moves)
    ensures var r := MoveAll(t, positions, moves); r.Some? && AllWalkable(t, r.value) && r.value.Keys == positions.Keys
  {
    hide BorderSolid, Walkable, MoveOne;
    if moves != [] {
      var n := |moves| - 1;
      AllStayWalkable(t, positions, moves[..n]);
      OneStaysWalkable(t, MoveAll(t, positions, moves[..n]).value, moves[n]);
    }
  }

  // --- Where the keys lead ---

  /** The entity is on tile `(x, y)` if that is free, and has stayed where it was if that is solid. */
  ghost predicate Arrived(t: Tmx, before: map<Entity, Pos>, after: map<Entity, Pos>, e: Entity, x: int, y: int) {
    0 <= x < t.width && 0 <= y < t.height ==> after == if Solid(t, x, y) then before else before[e := AtTile(t, x, y)]
  }

  /**
   * From tile `(x, y)`, rows counted downwards: W or 8 leads up, A or 4 left, S or 2 down, D or 6 right, and the
   * corner keys of the pad to the corners. Of several keys the first in this order is taken.
   */
  ghost predicate Stepped(
    t: Tmx, before: map<Entity, Pos>, after: map<Entity, Pos>, pressed: set<MoveKey>, e: Entity, x: int, y: int) {
    var up, left := KeyW in pressed || Pad8 in pressed, KeyA in pressed || Pad4 in pressed;
    var down, right := KeyS in pressed || Pad2 in pressed, KeyD in pressed || Pad6 in pressed;
    var straight := up || left || down || right;
    && (up ==> Arrived(t, before, after, e, x, y - 1))
    && (left && !up ==> Arrived(t, before, after, e, x - 1, y))
    && (down && !up && !left ==> Arrived(t, before, after, e, x, y + 1))
    && (right && !up && !left && !down ==> Arrived(t, before, after, e, x + 1, y))
    && (Pad7 in pressed && !straight ==> Arrived(t, before, after, e, x - 1, y - 1))
    && (Pad9 in pressed && !straight && Pad7 !in pressed ==> Arrived(t, before, after, e, x + 1, y - 1))
    && (Pad1 in pressed && !straight && Pad7 !in pressed && Pad9 !in pressed ==> Arrived(t, before, after, e, x - 1, y + 1))
    && (Pad3 in pressed && !straight && Pad7 !in pressed && Pad9 !in pressed && Pad1 !in pressed ==>
          Arrived(t, before, after, e, x + 1, y + 1))
    && (pressed <= {Space} ==> after == before)
  }

  lemma StepArrives(t: Tmx, positions: map<Entity, Pos>, m: Move, x: int, y: int)
    requires t.tileWidth > 0 && t.tileHeight > 0 && m.entity in positions && positions[m.entity] == AtTile(t, x, y)
    ensures var r := MoveAll(t, positions, [m]);
            && (r.Some? <==> 0 <= x + m.dx < t.width && 0 <= y + m.dy < t.height)
            && (r.Some? ==> Arrived(t, positions, r.value, m.entity, x + m.dx, y + m.dy))
  {
    hide Solid, InRange;
    NextTile(t, x, y, m);
    CoordOfTile(t, x + m.dx, y + m.dy);
    assert MoveAll(t, positions, [m][..0]) == Some(positions);
  }

  /** Every key, and every combination of keys, leads the way it says. */
  lemma KeysLead(t: Tmx, positions: map<Entity, Pos>, pressed: set<MoveKey>, e: Entity, x: int, y: int)
    requires t.tileWidth > 0 && t.tileHeight > 0 && e in positions && positions[e] == AtTile(t, x, y)
    ensures var r := MoveAll(t, positions, KeyQueue(pressed, e)); r.Some? ==> Stepped(t, positions, r.value, pressed, e, x, y)
  {
    hide MoveAll, Solid;
    var m := KeyMove(pressed);
    if m.Some? {
      StepArrives(t, positions, Move(e, m.value.0, m.value.1), x, y);
    } else {
      NoMoves(t, positions);
    }
    hide Arrived;
  }

  lemma NoMoves(t: Tmx, positions: map<Entity, Pos>)
    ensures MoveAll(t, positions, []) == Some(positions)
  {
  }

  /** The player of a changed world stands on its spawn tile, and can stand there exactly when that is free. */
  lemma SpawnStands(t: Tmx, spawn: (nat, nat), player: Entity)
    requires t.tileWidth > 0 && t.tileHeight > 0
    ensures var start := ChangeToWorld(t, spawn, player);
            && start.Keys == {player}
            && start[player] == Pos(spawn.0 * t.tileWidth, spawn.1 * t.tileHeight)
            && (AllWalkable(t, start) <==> spawn.0 < t.width && spawn.1 < t.height && !Solid(t, spawn.0, spawn.1))
  {
    hide Solid, Walkable;
    CoordOfTile(t, spawn.0, spawn.1);
    assert ChangeToWorld(t, spawn, player)[player] == AtTile(t, spawn.0, spawn.1);
  }

  lemma {:induction false} TypedUnits(positions: map<Entity, Pos>, frames: seq<set<MoveKey>>, e: Entity)
    requires e in positions
    ensures UnitMoves(positions, Typed(frames, e))
  {
    if frames != [] {
      TypedUnits(positions, frames[..|frames| - 1], e);
    }
  }

  /** Whatever is typed, however long: the entities stay on walkable tiles and every lookup is of a tile of the map. */
  lemma TypingIsSafe(t: Tmx, positions: map<Entity, Pos>, frames: seq<set<MoveKey>>, e: Entity)
    requires BorderSolid(t) && AllWalkable(t, positions) && e in positions
    ensures var r := MoveAll(t, positions, Typed(frames, e));
            r.Some? && AllWalkable(t, r.value) && r.value.Keys == positions.Keys
  {
    hide Typed, BorderSolid, AllWalkable, MoveAll;
    TypedUnits(positions, frames, e);
    AllStayWalkable(t, positions, Typed(frames, e));
  }

  /** It does not matter how the moves are spread over calls of `update`. */
  lemma {:induction false} BatchesCompose(t: Tmx, positions: map<Entity, Pos>, a: seq<Move>, b: seq<Move>)
    ensures MoveAll(t, positions, a + b)
            == var r := MoveAll(t, positions, a); if r.None? then None else MoveAll(t, r.value, b)
  {
    hide MoveOne;
    if b == [] {
      assert a + b == a;
    } else {
      var n := |b| - 1;
      BatchesCompose(t, positions, a, b[..n]);
      assert (a + b)[..|a + b| - 1] == a + b[..n];
    }
  }

  /** Walkable on such a map means strictly inside the border. */
  lemma WalkableIsInside(t: Tmx, p: Pos) returns (x: nat, y: nat)
    requires BorderSolid(t) && Walkable(t, p)
    ensures p == AtTile(t, x, y) && 0 < x < t.width - 1 && 0 < y < t.height - 1 && !Solid(t, x, y)
  {
    x, y := WalkableTile(t, p);
    assert !OnBorder(t, x, y);
  }

  /** No start and no queue makes `update` look outside the map. */
  ghost predicate NeverLeaves(t: Tmx) {
    forall positions: map<Entity, Pos>, moves: seq<Move> ::
      AllWalkable(t, positions) && UnitMoves(positions, moves) ==> MoveAll(t, positions, moves).Some?
  }

  /** A gap in the border lets one step leave the map. */
  lemma GapLeaks(t: Tmx, x: nat, y: nat)
    requires t.tileWidth > 0 && t.tileHeight > 0 && OnBorder(t, x, y) && !Solid(t, x, y)
    ensures !NeverLeaves(t)
  {
    hide Solid, InRange, Walkable;
    var dx := if x == 0 then -1 else if x == t.width - 1 then 1 else 0;
    var dy := if y == 0 then -1 else if y == t.height - 1 then 1 else 0;
    var m, start := Move(0, dx, dy), map[0 := AtTile(t, x, y)];
    CoordOfTile(t, x, y);
    CoordOfTile(t, x + dx, y + dy);
    NextTile(t, x, y, m);
    assert MoveAll(t, start, [m][..0]) == Some(start);
    assert MoveAll(t, start, [m]).None?;
    assert AllWalkable(t, start) && UnitMoves(start, [m]);
  }

  /** The border ring is solid exactly when no queue of unit moves, from any walkable start, leaves the map. */
  lemma SafeIffBordered(t: Tmx)
    requires t.tileWidth > 0 && t.tileHeight > 0
    ensures NeverLeaves(t) <==> BorderSolid(t)
  {
    hide MoveAll, AllWalkable, UnitMoves, Solid;
    if BorderSolid(t) {
      forall positions: map<Entity, Pos>, moves: seq<Move> | AllWalkable(t, positions) && UnitMoves(positions, moves)
        ensures MoveAll(t, positions, moves).Some?
      {
        AllStayWalkable(t, positions, moves);
      }
    } else {
      hide NeverLeaves;
      var x: nat, y: nat :| OnBorder(t, x, y) && !Solid(t, x, y);
      GapLeaks(t, x, y);
    }
  }

  // --- Changing worlds ---

  /** `changeToWorld`: one player, on the spawn point of the new map. The movement system is not told. */
  function ChangeToWorld(t: Tmx, spawn: (nat, nat), player: Entity): map<Entity, Pos> {
    map[player := AtTile(t, spawn.0, spawn.1)]
  }

  /** The movement system holds the map `used` while the map on screen is `seen`; their tiles have one size. */
  predicate SameTiles(seen: Tmx, used: Tmx) {
    used.tileWidth == seen.tileWidth > 0 && used.tileHeight == seen.tileHeight > 0
  }

  /** The step from `(x, y)` is looked up inside `used`, and is blocked there or ends on a free tile of `seen`. */
  ghost predicate StepObeys(seen: Tmx, used: Tmx, x: nat, y: nat, dx: int, dy: int) {
    && 0 <= x + dx < used.width && 0 <= y + dy < used.height
    && (Solid(used, x + dx, y + dy)
        || (x + dx < seen.width && y + dy < seen.height && !Solid(seen, x + dx, y + dy)))
  }

  /** Every step to a neighbour, or none, from every free tile of `seen`. */
  ghost predicate StepsObey(seen: Tmx, used: Tmx) {
    forall x: nat, y: nat, dx: int, dy: int ::
      x < seen.width && y < seen.height && !Solid(seen, x, y) && -1 <= dx <= 1 && -1 <= dy <= 1 ==>
        StepObeys(seen, used, x, y, dx, dy)
  }

  /** Whatever the moves, entities that start on walkable tiles of the map on screen stay on such tiles. */
  ghost predicate SafeOnScreen(seen: Tmx, used: Tmx) {
    forall positions: map<Entity, Pos>, moves: seq<Move> ::
      AllWalkable(seen, positions) && UnitMoves(positions, moves) ==>
        var r := MoveAll(used, positions, moves); r.Some? && AllWalkable(seen, r.value)
  }

  lemma OneObeys(seen: Tmx, used: Tmx, positions: map<Entity, Pos>, m: Move)
    requires SameTiles(seen, used) && StepsObey(seen, used)
    requires AllWalkable(seen, positions) && UnitMoves(positions, [m])
    ensures var r := MoveOne(used, positions, m); r.Some? && AllWalkable(seen, r.value) && r.value.Keys == positions.Keys
  {
    hide Walkable, Solid, InRange;
    assert [m][0] == m;
    var x, y := WalkableTile(seen, positions[m.entity]);
    assert StepObeys(seen, used, x, y, m.dx, m.dy);
    NextTile(used, x, y, m);
    CoordOfTile(used, x + m.dx, y + m.dy);
    CoordOfTile(seen, x + m.dx, y + m.dy);
  }

  lemma {:induction false} AllObey(seen: Tmx, used: Tmx, positions: map<Entity, Pos>, moves: seq<Move>)
    requires SameTiles(seen, used) && StepsObey(seen, used)
    requires AllWalkable(seen, positions) && UnitMoves(positions, moves)
    ensures var r := MoveAll(used, positions, moves);
            r.Some? && AllWalkable(seen, r.value) && r.value.Keys == positions.Keys
  {
    hide StepsObey, Walkable, MoveOne;
    if moves != [] {
      var n := |moves| - 1;
      AllObey(seen, used, positions, moves[..n]);
      OneObeys(seen, used, MoveAll(used, positions, moves[..n]).value, moves[n]);
    }
  }

  /** One disobedient step is a start and a queue that leave the free tiles of the map on screen. */
  lemma StepStrays(seen: Tmx, used: Tmx, x: nat, y: nat, dx: int, dy: int)
    requires SameTiles(seen, used) && x < seen.width && y < seen.height && !Solid(seen, x, y)
    requires -1 <= dx <= 1 && -1 <= dy <= 1 && !StepObeys(seen, used, x, y, dx, dy)
    ensures !SafeOnScreen(seen, used)
  {
    hide Solid, InRange, Walkable;
    var m, start := Move(0, dx, dy), map[0 := AtTile(seen, x, y)];
    CoordOfTile(seen, x, y);
    CoordOfTile(used, x + dx, y + dy);
    CoordOfTile(seen, x + dx, y + dy);
    NextTile(used, x, y, m);
    assert MoveAll(used, start, [m][..0]) == Some(start);
    var r := MoveAll(used, start, [m]);
    assert r.Some? ==> r.value[0] == AtTile(seen, x + dx, y + dy) && !Walkable(seen, r.value[0]);
    assert AllWalkable(seen, start) && UnitMoves(start, [m]);
  }

  /**
   * Checking moves against another map than the one on screen is harmless exactly when, from every free tile
   * of the map on screen, each step is looked up inside the other map, and is blocked there or ends on a free
   * tile of the map on screen.
   */
  lemma SafeOnScreenIff(seen: Tmx, used: Tmx)
    requires SameTiles(seen, used)
    ensures SafeOnScreen(seen, used) <==> StepsObey(seen, used)
  {
    hide MoveAll, AllWalkable, UnitMoves, Solid;
    if StepsObey(seen, used) {
      forall positions: map<Entity, Pos>, moves: seq<Move> | AllWalkable(seen, positions) && UnitMoves(positions, moves)
        ensures var r := MoveAll(used, positions, moves); r.Some? && AllWalkable(seen, r.value)
      {
        AllObey(seen, used, positions, moves);
      }
    } else {
      hide SafeOnScreen;
      var x: nat, y: nat, dx: int, dy: int :|
        x < seen.width && y < seen.height && !Solid(seen, x, y) && -1 <= dx <= 1 && -1 <= dy <= 1
        && !StepObeys(seen, used, x, y, dx, dy);
      StepStrays(seen, used, x, y, dx, dy);
    }
  }

  /** On a map checked against itself the condition is the solid border. */
  lemma OwnMapObeys(t: Tmx)
    requires t.tileWidth > 0 && t.tileHeight > 0
    ensures StepsObey(t, t) <==> BorderSolid(t)
  {
    if StepsObey(t, t) {
      ObeyingIsBordered(t);
    }
    if BorderSolid(t) {
      BorderedObeys(t);
    }
  }

  lemma ObeyingIsBordered(t: Tmx)
    requires StepsObey(t, t)
    ensures BorderSolid(t)
  {
    hide Solid;
    forall x: nat, y: nat | OnBorder(t, x, y)
      ensures Solid(t, x, y)
    {
      var dx := if x == 0 then -1 else if x == t.width - 1 then 1 else 0;
      var dy := if y == 0 then -1 else if y == t.height - 1 then 1 else 0;
      assert !StepObeys(t, t, x, y, dx, dy);
    }
  }

  lemma BorderedObeys(t: Tmx)
    requires BorderSolid(t)
    ensures StepsObey(t, t)
  {
    hide Solid;
    forall x: nat, y: nat, dx: int, dy: int |
      x < t.width && y < t.height && !Solid(t, x, y) && -1 <= dx <= 1 && -1 <= dy <= 1
      ensures StepObeys(t, t, x, y, dx, dy)
    {
      assert !OnBorder(t, x, y);
    }
  }

  const WALL := Layer("walls", "yes", (x: nat, y: nat) => if 0 < x < 4 && 0 < y < 4 then Bare else Laid(None))
  const BLOCK := Layer("block", "yes", (x: nat, y: nat) => if x == 3 && y == 2 then Laid(None) else Bare)
  const SPAWNS := Layer(SPAWN_LAYER, "", (x: nat, y: nat) => if x == 2 && y == 2 then Laid(None) else Bare)

  /** A walled room of five by five tiles, and the same room with a block inside. */
  const OUTDOOR := Tmx(5, 5, 32, 32, [WALL, SPAWNS])
  const INDOOR := Tmx(5, 5, 32, 32, [WALL, SPAWNS, BLOCK])

  lemma BothWalled()
    ensures BorderSolid(OUTDOOR) && BorderSolid(INDOOR)
  {
    forall x: nat, y: nat | OnBorder(OUTDOOR, x, y)
      ensures Solid(OUTDOOR, x, y) && Solid(INDOOR, x, y)
    {
      assert OUTDOOR.layers[0] == WALL == INDOOR.layers[0] && SolidBy(WALL, x, y);
    }
  }

  lemma BlockIsNew()
    ensures Solid(INDOOR, 3, 2) && !Solid(OUTDOOR, 3, 2) && !Solid(INDOOR, 2, 2)
  {
    assert INDOOR.layers[2] == BLOCK && SolidBy(BLOCK, 3, 2);
  }

  lemma OneSpawn()
    ensures LastSpawn(INDOOR, Some((2, 2)), 25)
  {
    assert INDOOR.layers[1] == SPAWNS && SpawnBy(SPAWNS, 2, 2);
  }

  /**
   * After the change of world one key press walks the player onto a solid tile: the move is still checked
   * against the first map.
   */
  lemma WalksThroughWalls()
    ensures BorderSolid(OUTDOOR) && BorderSolid(INDOOR) && LastSpawn(INDOOR, Some((2, 2)), 25)
    ensures var start := ChangeToWorld(INDOOR, (2, 2), 0);
            && AllWalkable(INDOOR, start)
            && var r := MoveAll(OUTDOOR, start, KeyQueue({KeyD}, 0));
               r.Some? && r.value[0] == AtTile(INDOOR, 3, 2) && Solid(INDOOR, 3, 2)
    ensures !SafeOnScreen(INDOOR, OUTDOOR)
  {
    BothWalled();
    OneSpawn();
    BlockIsNew();
    hide Solid, LastSpawn, BorderSolid;
    StepStrays(INDOOR, OUTDOOR, 2, 2, 1, 0);
    hide SafeOnScreen;
    var start, m := ChangeToWorld(INDOOR, (2, 2), 0), Move(0, 1, 0);
    assert MoveAll(OUTDOOR, start, [m][..0]) == Some(start);
  }
}
