/** The state of one running game (`GameState`): the original gameMap, which it
    never modifies, a live copy of it, the undo quota left, a one-slot
    checkpoint and the `init` flag. `Game` is that state as a value;
    `MoveEntity` and `Undone` say what `move` and `undo` do to it. */
module GameStates {
  import opened Wrappers
  import opened Int32
  import opened Entities
  import opened GameMaps

  /** A checkpoint record: the board and the quota at the moment it was taken. */
  datatype Saved = Saved(board: Board, quota: Option<int>)

  datatype Game = Game(live: Board, quota: Option<int>, saved: Option<Saved>, init: bool)

  /** `move(from, to)` on values: `to` receives what stood at `from`, `from`
      is emptied, and a moved player's index entry follows it. */
  function MoveEntity(b: Board, from: Position, to: Position): (r: Board)
    requires InBounds(b.cells, from) && InBounds(b.cells, to) && At(b.cells, from) != Unset
    ensures |r.cells| == |b.cells| && forall y :: 0 <= y < |b.cells| ==> |r.cells[y]| == |b.cells[y]|
    ensures At(r.cells, from) == Empty
    ensures from != to ==> At(r.cells, to) == At(b.cells, from)
    ensures forall q :: InBounds(b.cells, q) && q != from && q != to ==> At(r.cells, q) == At(b.cells, q)
    ensures forall k :: k in b.players && (!At(b.cells, from).Player? || k != PlayerKey(At(b.cells, from).id)) ==>
              k in r.players && r.players[k] == b.players[k]
    ensures At(b.cells, from).Player? ==> r.players == b.players[PlayerKey(At(b.cells, from).id) := to]
    ensures !At(b.cells, from).Player? ==> r.players == b.players
  {
    var e := At(b.cells, from);
    var players := if e.Player? then b.players[PlayerKey(e.id) := to] else b.players;
    Board(Put(Put(b.cells, to, e), from, Empty), players)
  }

  /** The player index agrees with the cells: every key sits on a cell that
      holds the player with that key. */
  ghost predicate IndexAgrees(b: Board) {
    forall k :: k in b.players ==>
      && InBounds(b.cells, b.players[k])
      && At(b.cells, b.players[k]).Player?
      && PlayerKey(At(b.cells, b.players[k]).id) == k
  }

  /** Moving an entity into an empty cell keeps the index in step with the
      cells, whether the entity is a player (its key follows) or not. */
  lemma MoveKeepsIndex(b: Board, from: Position, to: Position)
    requires IndexAgrees(b) && InBounds(b.cells, from) && InBounds(b.cells, to)
    requires At(b.cells, from) != Unset && At(b.cells, to) == Empty
    ensures IndexAgrees(MoveEntity(b, from, to))
  {
    var r := MoveEntity(b, from, to);
    var e := At(b.cells, from);
    forall k | k in r.players
      ensures InBounds(r.cells, r.players[k]) && At(r.cells, r.players[k]).Player?
        && PlayerKey(At(r.cells, r.players[k]).id) == k
    {
      if !(e.Player? && k == PlayerKey(e.id)) {
        var p := b.players[k];
        assert p != to;
        assert p != from;
      }
    }
  }

  /** `checkpoint()` on values: the slot now holds the live board and quota. */
  function Checkpointed(g: Game): (r: Game)
    ensures r.live == g.live && r.quota == g.quota && r.init == g.init
    ensures r.saved.Some? && r.saved.value.board == g.live && r.saved.value.quota == g.quota
  {
    g.(saved := Some(Saved(g.live, g.quota)))
  }

  /** The checkpoint is stale when every cell that holds a box now held a box
      in the checkpoint too. */
  predicate Stale(live: Grid, saved: Grid) {
    forall p :: p in BoxPositions(live) ==> IsBoxAt(saved, p)
  }

  /** `undo()` on values, with its one level of recursion. */
  function Undone(orig: Board, g: Game): (r: Game)
    requires g.quota.Some? && InRange(g.quota.value)
    ensures r.saved == None && r.quota.Some? && InRange(r.quota.value)
    ensures r.live == orig || (g.saved.Some? && r.live == g.saved.value.board)
    decreases if g.saved.Some? then 1 else 0
  {
    match g.saved
    case None =>
      g.(live := orig, quota := if g.init then g.quota else Some(Decrement(g.quota.value)))
    case Some(ck) =>
      if !Stale(g.live.cells, ck.board.cells) then
        g.(live := ck.board,
           quota := if g.quota.Some? && g.quota.value > 1 then Some(g.quota.value - 1) else g.quota,
           saved := None)
      else
        Undone(orig, g.(init := false, saved := None))
  }

  /** `undo()` in closed form: it always empties the checkpoint slot; it
      restores the checkpoint when that is not stale and the original map
      otherwise; the quota drops only on a reset with `init` cleared (with
      Java's wrap-around) or, on a restore, from above 1; `init` is cleared
      exactly when a stale checkpoint is skipped. */
  lemma UndoneClosedForm(orig: Board, g: Game)
    requires g.quota.Some? && InRange(g.quota.value)
    ensures var r := Undone(orig, g);
      var restores := g.saved.Some? && !Stale(g.live.cells, g.saved.value.board.cells);
      var q := g.quota.value;
      && r.saved == None
      && r.live == (if restores then g.saved.value.board else orig)
      && r.init == (g.init && (g.saved.None? || restores))
      && r.quota == Some(if restores then (if q > 1 then q - 1 else q)
                         else if g.init && g.saved.None? then q
                         else Decrement(q))
  {
    if g.saved.Some? && Stale(g.live.cells, g.saved.value.board.cells) {
      assert Undone(orig, g) == Undone(orig, g.(init := false, saved := None));
    }
  }

  /** With no checkpoint, resetting to the original map is free as long as
      `init` is set. Only skipping a stale checkpoint clears `init`, and
      `ProcessKeepsCheckpointUseful` shows that play never makes one. */
  lemma ResetFreeWhileInit(orig: Board, g: Game)
    requires g.quota.Some? && InRange(g.quota.value)
    requires g.saved.None? && g.init
    ensures Undone(orig, g) == g.(live := orig)
  {
  }

  /** `undo()` never raises the quota and lowers it by at most one. */
  lemma UndoneQuotaBounds(orig: Board, g: Game)
    requires g.quota.Some? && InRange(g.quota.value) && g.quota.value > MinValue
    ensures var r := Undone(orig, g);
      r.quota.Some? && g.quota.value - 1 <= r.quota.value <= g.quota.value
  {
    UndoneClosedForm(orig, g);
  }

  /** The boards play can run on stay playable through `undo()`. */
  ghost predicate WellFormed(orig: Board, g: Game) {
    && Playable(orig) && Playable(g.live)
    && g.quota.Some? && InRange(g.quota.value)
    && (g.saved.Some? ==> Playable(g.saved.value.board))
  }

  lemma UndonePreservesWellFormed(orig: Board, g: Game)
    requires WellFormed(orig, g)
    ensures WellFormed(orig, Undone(orig, g))
  {
    UndoneClosedForm(orig, g);
  }

  /** No destination without a box. */
  ghost predicate IsWon(destinations: set<Position>, g: Grid) {
    forall d :: d in destinations ==> IsBoxAt(g, d)
  }

  /** Won exactly when the destinations are among the box positions, so
      trivially won with no destinations. */
  lemma WonIffDestinationsCovered(destinations: set<Position>, g: Grid)
    ensures IsWon(destinations, g) <==> destinations <= BoxPositions(g)
    ensures IsWon({}, g)
  {
  }

  /** Taking the box off any destination loses the game. */
  lemma RemovingBoxLoses(destinations: set<Position>, g: Grid, d: Position)
    requires d in destinations && InBounds(g, d)
    ensures !IsWon(destinations, Put(g, d, Empty))
  {
    assert !IsBoxAt(Put(g, d, Empty), d);
  }

  class GameState {
    const gameMap: GameMap
    var undoQuota: Option<int>
    var checkpoint: GameState?
    var state: GameMap
    var init: bool
    ghost var Repr: set<object>

    ghost predicate Valid()
      reads this, Repr
    {
      && this in Repr && gameMap in Repr && gameMap.grid in Repr && state in Repr && state.grid in Repr
      && gameMap.Valid() && state.Valid()
      && state != gameMap && state.grid != gameMap.grid
      && state.width == gameMap.width && state.height == gameMap.height
      && undoQuota.Some? && InRange(undoQuota.value)
      && (checkpoint != null ==>
            && checkpoint in Repr && checkpoint != this
            && checkpoint.state in Repr && checkpoint.state.grid in Repr
            && checkpoint.state.Valid()
            && checkpoint.state != state && checkpoint.state.grid != state.grid
            && checkpoint.state.width == gameMap.width && checkpoint.state.height == gameMap.height
            && checkpoint.checkpoint == null)
    }

    /** The state as a value. */
    ghost function Abs(): Game
      reads this, Repr
      requires Valid()
    {
      Game(state.Snap(), undoQuota,
           if checkpoint == null then None else Some(Saved(checkpoint.state.Snap(), checkpoint.undoQuota)),
           init)
    }

    /** Valid, with boards that play can run on. */
    ghost predicate Ready()
      reads this, Repr
    {
      Valid() && WellFormed(gameMap.Snap(), Abs())
    }

    /** `new GameState(map)`: the quota is the map's undo limit, the live map
        a fresh copy of `map`, no checkpoint, `init` set. */
    constructor (gameMap: GameMap)
      requires gameMap.Valid()
      ensures Valid() && this.gameMap == gameMap
      ensures fresh(state) && fresh(state.grid) && Repr == {this, gameMap, gameMap.grid, state, state.grid}
      ensures Abs() == Game(gameMap.Snap(), Some(gameMap.undoLimit), None, true)
    {
      this.gameMap := gameMap;
      undoQuota := gameMap.GetUndoLimit();
      state := new GameMap.Copy(gameMap);
      checkpoint := null;
      init := true;
      new;
      Repr := {this, gameMap, gameMap.grid, state, state.grid};
    }

    /** `getPlayerPositionById(id)`: the index entry `(char)('A' + id)`. */
    function GetPlayerPositionById(id: int): (r: Option<Position>)
      reads this, Repr
      requires Valid()
      ensures r.Some? <==> PlayerKey(id) in state.players
      ensures r.Some? ==> r.value == state.players[PlayerKey(id)]
    {
      if PlayerKey(id) in state.players then Some(state.players[PlayerKey(id)]) else None
    }

    /** `getAllPlayerPositions()`. */
    function GetAllPlayerPositions(): (r: set<Position>)
      reads this, Repr
      requires Valid()
      ensures forall p :: p in r <==> exists k :: k in state.players && state.players[k] == p
    {
      state.players.Values
    }

    /** `getEntity(p)`: the live map's cell. */
    function GetEntity(p: Position): (r: Entity)
      reads this, Repr
      requires Valid() && InBounds(state.cells, p)
      ensures r == At(state.cells, p)
    {
      state.GetEntity(p)
    }

    /** `getDestinations()`: those of the original gameMap. */
    function GetDestinations(): (r: set<Position>)
      reads this
      ensures r == gameMap.destinations
    {
      gameMap.GetDestinations()
    }

    function GetUndoQuota(): (r: Option<int>)
      reads this, Repr
      requires Valid()
      ensures r == Abs().quota && r.Some?
    {
      undoQuota
    }

    function GetMapMaxWidth(): (r: int)
      reads this, Repr
      requires Valid()
      ensures r == gameMap.width == state.width
    {
      gameMap.GetMaxWidth()
    }

    function GetMapMaxHeight(): (r: int)
      reads this, Repr
      requires Valid()
      ensures r == gameMap.height == state.height == |state.cells|
    {
      gameMap.GetMaxHeight()
    }

    /** `isWin()`: looks for a destination of the original map that does not
        hold a box in the live map (`state`). */
    method IsWin() returns (won: bool)
      requires Valid()
      requires forall d :: d in gameMap.destinations ==> 0 <= d.x < gameMap.width && 0 <= d.y < gameMap.height
      ensures won == IsWon(gameMap.destinations, state.cells)
    {
      var rest := gameMap.GetDestinations();
      while rest != {}
        invariant rest <= gameMap.destinations
        invariant forall d :: d in gameMap.destinations - rest ==> IsBoxAt(state.cells, d)
        decreases rest
      {
        var d :| d in rest;
        if !state.GetEntity(d).Box? {
          assert !IsBoxAt(state.cells, d);
          return false;
        }
        rest := rest - {d};
      }
      won := true;
    }

    /** `move(from, to)`: only the live map changes, as `MoveEntity` says. */
    method Move(from: Position, to: Position)
      requires Valid() && InBounds(state.cells, from) && InBounds(state.cells, to)
      requires At(state.cells, from) != Unset
      modifies state, state.grid
      ensures Valid() && Repr == old(Repr) && state == old(state)
      ensures Abs() == old(Abs()).(live := MoveEntity(old(Abs()).live, from, to))
    {
      var e := state.GetEntity(from);
      if e.Player? {
        state.players := state.players[PlayerKey(e.id) := to];
      }
      state.PutEntity(to, state.GetEntity(from));
      state.PutEntity(from, Empty);
    }

    /** `checkpoint()`: replaces the slot by a fresh record of a deep copy of
        the live map and the current quota; that record's own slot is empty,
        so there is never more than one checkpoint. */
    method Checkpoint()
      requires Valid()
      modifies this
      ensures Valid() && fresh(Repr - old(Repr))
      ensures state == old(state) && checkpoint != null && fresh(checkpoint) && checkpoint.checkpoint == null
      ensures fresh(checkpoint.state) && fresh(checkpoint.state.grid)
      ensures Abs() == Checkpointed(old(Abs()))
    {
      var copy := new GameMap.Copy(state);
      var ck := new GameState(copy);
      ck.undoQuota := undoQuota;
      ck.init := false;
      checkpoint := ck;
      Repr := {this, gameMap, gameMap.grid, state, state.grid, ck, ck.state, ck.state.grid};
    }

    /** The scan of `undo()`: true when some cell holding a box now holds
        none in the checkpoint, that is when the checkpoint is not stale. */
    method CheckpointDiffers() returns (differs: bool)
      requires Valid() && checkpoint != null
      ensures differs == !Stale(state.cells, checkpoint.state.cells)
    {
      var boxes := state.GetBoxPositions();
      var rest := boxes;
      while rest != {}
        invariant rest <= boxes
        invariant forall p :: p in boxes - rest ==> IsBoxAt(checkpoint.state.cells, p)
        decreases rest
      {
        var p :| p in rest;
        if !checkpoint.state.GetEntity(p).Box? {
          assert p in BoxPositions(state.cells) && !IsBoxAt(checkpoint.state.cells, p);
          return true;
        }
        rest := rest - {p};
      }
      differs := false;
    }

    /** The branch of `undo()` without a checkpoint: back to a fresh copy of
        the original map, paying one unit unless `init` is still set. */
    method ResetToOriginal()
      requires Valid() && checkpoint == null
      modifies this
      ensures Valid() && fresh(Repr - old(Repr))
      ensures Abs() == Undone(gameMap.Snap(), old(Abs()))
    {
      state := new GameMap.Copy(gameMap);
      if !init {
        undoQuota := Some(Decrement(undoQuota.value));
      }
      Repr := {this, gameMap, gameMap.grid, state, state.grid};
    }

    /** The branch of `undo()` that restores a checkpoint that is not stale:
        a fresh copy of its map, one unit paid only from above 1, and the slot
        takes the checkpoint's own, empty, slot. */
    method RestoreCheckpoint()
      requires Valid() && checkpoint != null && !Stale(state.cells, checkpoint.state.cells)
      modifies this
      ensures Valid() && fresh(Repr - old(Repr))
      ensures Abs() == Undone(gameMap.Snap(), old(Abs()))
    {
      state := new GameMap.Copy(checkpoint.state);
      if undoQuota.Some? && undoQuota.value > 1 {
        undoQuota := Some(undoQuota.value - 1);
      }
      checkpoint := checkpoint.checkpoint;
      Repr := {this, gameMap, gameMap.grid, state, state.grid};
    }

    /** `undo()`: as `Undone` says. A checkpoint the live box positions show
        to be stale is dropped, `init` cleared and the call repeated once,
        now without a checkpoint. */
    method Undo()
      requires Valid()
      modifies this
      ensures Valid() && fresh(Repr - old(Repr))
      ensures Abs() == Undone(gameMap.Snap(), old(Abs()))
      decreases if checkpoint == null then 0 else 1
    {
      if checkpoint == null {
        ResetToOriginal();
      } else {
        var differs := CheckpointDiffers();
        if differs {
          RestoreCheckpoint();
        } else {
          init := false;
          checkpoint := checkpoint.checkpoint;
          Repr := {this, gameMap, gameMap.grid, state, state.grid};
          Undo();
        }
      }
    }
  }
}
