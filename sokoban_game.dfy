/** The base game (`AbstractSokobanGame`): resolves one action against the
    game state, and says when the game should stop. `Process` is the resolver
    on values; `SokobanGame.ProcessAction` runs it on the mutable state. */
module SokobanGames {
  import opened Wrappers
  import opened Entities
  import opened Actions
  import opened GameMaps
  import opened GameStates

  /** From an interior cell, one step stays on the board. */
  lemma StepFromInterior(g: Grid, p: Position, d: Direction)
    requires Rectangular(g) && Interior(g, p)
    ensures InBounds(g, Step(p, d))
  {
  }

  /** `processAction(a)` on values: the game afterwards and the result. */
  function Process(orig: Board, g: Game, a: Action): (r: (Game, ActionResult))
    requires WellFormed(orig, g)
    ensures r.1.action == a
    ensures r.1.Failed? ==> r.0 == g
    ensures r.0.quota.Some?
  {
    match a
    case Exit(_) => (g, Success(a))
    case Undo(_) =>
      if g.quota.None? || g.quota.value > 0 then (Undone(orig, g), Success(a))
      else (g, Failed(a, UndoQuotaRunOut))
    case InvalidInput(_, _) => (g, Failed(a, InvalidInputMessage))
    case Move(d, id) =>
      if id > 1 || PlayerKey(id) !in g.live.players then (g, Failed(a, PlayerNotFound))
      else
        var cur := g.live.players[PlayerKey(id)];
        var next := Step(cur, d);
        assert InBounds(g.live.cells, next) by { StepFromInterior(g.live.cells, cur, d); }
        match At(g.live.cells, next)
        case Player(_) => (g, Failed(a, HitPlayer))
        case Wall => (g, Failed(a, HitWall))
        case Empty => (g.(live := MoveEntity(g.live, cur, next)), Success(a))
        case Box(_) =>
          var beyond := Step(next, d);
          assert InBounds(g.live.cells, beyond) && beyond != cur by {
            NotWallIsInterior(g.live.cells, next);
            StepFromInterior(g.live.cells, next, d);
            StepTwiceMovesOn(cur, d);
          }
          if At(g.live.cells, beyond) == Empty then
            var pushed := MoveEntity(g.live, next, beyond);
            (Checkpointed(g).(live := MoveEntity(pushed, cur, next)), Success(a))
          else (g, Failed(a, PushBlocked))
        case Unset => assert false; (g, Failed(a, PushBlocked))
  }

  /** A move is resolved against the initiator's indexed position. */
  ghost predicate Locates(g: Game, id: int) {
    id <= 1 && PlayerKey(id) in g.live.players
  }

  /** Moving a set entity from an interior cell to an interior cell keeps a
      board playable. */
  lemma MovePreservesPlayable(b: Board, from: Position, to: Position)
    requires Playable(b) && Interior(b.cells, from) && Interior(b.cells, to)
    ensures Playable(MoveEntity(b, from, to))
  {
    var r := MoveEntity(b, from, to);
    forall p | InBounds(r.cells, p)
      ensures At(r.cells, p) != Unset && (OnBorder(r.cells, p) ==> At(r.cells, p) == Wall)
    {
      assert InBounds(b.cells, p);
    }
    forall k | k in r.players
      ensures Interior(r.cells, r.players[k])
    {
      if !At(b.cells, from).Player? || k != PlayerKey(At(b.cells, from).id) {
        assert k in b.players;
      }
    }
  }

  /** Processing any action keeps the game well formed. */
  lemma ProcessPreservesWellFormed(orig: Board, g: Game, a: Action)
    requires WellFormed(orig, g)
    ensures WellFormed(orig, Process(orig, g, a).0)
  {
    match a
    case Undo(_) => UndonePreservesWellFormed(orig, g);
    case Move(d, id) =>
      if Locates(g, id) {
        var cur := g.live.players[PlayerKey(id)];
        var next := Step(cur, d);
        StepFromInterior(g.live.cells, cur, d);
        if At(g.live.cells, next).Empty? {
          NotWallIsInterior(g.live.cells, next);
          MovePreservesPlayable(g.live, cur, next);
        } else if At(g.live.cells, next).Box? {
          NotWallIsInterior(g.live.cells, next);
          var beyond := Step(next, d);
          StepFromInterior(g.live.cells, next, d);
          StepTwiceMovesOn(cur, d);
          if At(g.live.cells, beyond) == Empty {
            NotWallIsInterior(g.live.cells, beyond);
            MovePreservesPlayable(g.live, next, beyond);
            MovePreservesPlayable(MoveEntity(g.live, next, beyond), cur, next);
          }
        }
      }
    case _ =>
  }

  /** The player index stays in step with the cells, on the live board and
      on the checkpoint, through every action. */
  ghost predicate IndexesAgree(orig: Board, g: Game) {
    IndexAgrees(orig) && IndexAgrees(g.live) && (g.saved.Some? ==> IndexAgrees(g.saved.value.board))
  }

  lemma ProcessKeepsIndex(orig: Board, g: Game, a: Action)
    requires WellFormed(orig, g) && IndexesAgree(orig, g)
    ensures IndexesAgree(orig, Process(orig, g, a).0)
  {
    match a
    case Undo(_) => UndoneClosedForm(orig, g);
    case Move(d, id) =>
      if Locates(g, id) {
        var cur := g.live.players[PlayerKey(id)];
        var next := Step(cur, d);
        StepFromInterior(g.live.cells, cur, d);
        if At(g.live.cells, next).Empty? {
          MoveKeepsIndex(g.live, cur, next);
        } else if At(g.live.cells, next).Box? {
          NotWallIsInterior(g.live.cells, next);
          var beyond := Step(next, d);
          StepFromInterior(g.live.cells, next, d);
          StepTwiceMovesOn(cur, d);
          if At(g.live.cells, beyond) == Empty {
            MoveKeepsIndex(g.live, next, beyond);
            MoveKeepsIndex(MoveEntity(g.live, next, beyond), cur, next);
          }
        }
      }
    case _ =>
  }

  /** Every failure leaves the game exactly as it was, and so does Exit. */
  lemma FailureChangesNothing(orig: Board, g: Game, a: Action)
    requires WellFormed(orig, g)
    ensures Process(orig, g, a).1.Failed? || a.Exit? ==> Process(orig, g, a).0 == g
    ensures Process(orig, g, a).1.action == a
    ensures a.Exit? ==> Process(orig, g, a).1.Success?
    ensures a.InvalidInput? ==> Process(orig, g, a).1 == Failed(a, InvalidInputMessage)
  {
  }

  /** Undo runs exactly when the quota is absent or positive, and is refused
      with the quota message otherwise; so a limit of -1 never allows undo. */
  lemma UndoGate(orig: Board, g: Game, initiator: int)
    requires WellFormed(orig, g)
    ensures var (r, res) := Process(orig, g, Undo(initiator));
      && (res.Success? <==> g.quota.value > 0)
      && (res.Success? ==> r == Undone(orig, g))
      && (res.Failed? ==> r == g && res.reason == UndoQuotaRunOut)
  {
  }

  /** An initiator above 1, or one without an index entry, is not found. */
  lemma MissingPlayerFails(orig: Board, g: Game, d: Direction, id: int)
    requires WellFormed(orig, g) && !Locates(g, id)
    ensures Process(orig, g, Move(d, id)) == (g, Failed(Move(d, id), PlayerNotFound))
  {
  }

  /** Walking into a player or a wall fails and changes nothing. */
  lemma BlockedMoveFails(orig: Board, g: Game, d: Direction, id: int)
    requires WellFormed(orig, g) && Locates(g, id)
    requires var next := Step(g.live.players[PlayerKey(id)], d);
      InBounds(g.live.cells, next) && (At(g.live.cells, next).Player? || At(g.live.cells, next) == Wall)
    ensures var next := Step(g.live.players[PlayerKey(id)], d);
      var (r, res) := Process(orig, g, Move(d, id));
      && r == g
      && (At(g.live.cells, next).Player? ==> res == Failed(Move(d, id), HitPlayer))
      && (At(g.live.cells, next) == Wall ==> res == Failed(Move(d, id), HitWall))
  {
  }

  /** Walking into an empty cell moves the player one step: the player's cell
      empties, the target holds what the player's cell held, the index
      follows a moved player, and the quota and checkpoint stay. */
  lemma MoveIntoEmpty(orig: Board, g: Game, d: Direction, id: int)
    requires WellFormed(orig, g) && Locates(g, id)
    requires var next := Step(g.live.players[PlayerKey(id)], d);
      InBounds(g.live.cells, next) && At(g.live.cells, next) == Empty
    ensures var cur := g.live.players[PlayerKey(id)];
      var next := Step(cur, d);
      var (r, res) := Process(orig, g, Move(d, id));
      && res == Success(Move(d, id))
      && r.quota == g.quota && r.saved == g.saved && r.init == g.init
      && InBounds(r.live.cells, cur) && At(r.live.cells, cur) == Empty
      && InBounds(r.live.cells, next) && At(r.live.cells, next) == At(g.live.cells, cur)
      && (forall q :: InBounds(g.live.cells, q) && q != cur && q != next ==> At(r.live.cells, q) == At(g.live.cells, q))
      && (At(g.live.cells, cur) == Player(id) ==> r.live.players == g.live.players[PlayerKey(id) := next])
  {
    StepFromInterior(g.live.cells, g.live.players[PlayerKey(id)], d);
  }

  /** A box with an empty cell beyond it (the same offset again) is pushed:
      the checkpoint holds the board and quota from before the push, the box
      stands beyond, the player's former cell's content takes the box's old
      cell, the player's cell empties, and nothing else moves. The box's
      owner is never looked at. */
  ghost predicate CanPush(g: Game, d: Direction, id: int) {
    && Locates(g, id)
    && var cur := g.live.players[PlayerKey(id)];
    && InBounds(g.live.cells, Step(cur, d)) && At(g.live.cells, Step(cur, d)).Box?
    && InBounds(g.live.cells, Step(Step(cur, d), d)) && At(g.live.cells, Step(Step(cur, d), d)) == Empty
  }

  lemma PushMovesBox(orig: Board, g: Game, d: Direction, id: int)
    requires WellFormed(orig, g) && CanPush(g, d, id)
    ensures var cur := g.live.players[PlayerKey(id)];
      var next := Step(cur, d);
      var beyond := Step(next, d);
      var (r, res) := Process(orig, g, Move(d, id));
      && res == Success(Move(d, id))
      && r.saved == Some(Saved(g.live, g.quota)) && r.quota == g.quota && r.init == g.init
      && InBounds(r.live.cells, beyond) && At(r.live.cells, beyond) == At(g.live.cells, next)
      && At(r.live.cells, next) == At(g.live.cells, cur)
      && At(r.live.cells, cur) == Empty
      && (forall q :: InBounds(g.live.cells, q) && q != cur && q != next && q != beyond ==>
            At(r.live.cells, q) == At(g.live.cells, q))
      && (At(g.live.cells, cur) == Player(id) ==> r.live.players == g.live.players[PlayerKey(id) := next])
  {
    var cur := g.live.players[PlayerKey(id)];
    StepTwiceMovesOn(cur, d);
  }

  /** A box with anything but an empty cell beyond it stays put, and the
      move fails with the push message. */
  lemma PushBlockedFails(orig: Board, g: Game, d: Direction, id: int)
    requires WellFormed(orig, g) && Locates(g, id)
    requires var next := Step(g.live.players[PlayerKey(id)], d);
      && InBounds(g.live.cells, next) && At(g.live.cells, next).Box?
      && InBounds(g.live.cells, Step(next, d)) && At(g.live.cells, Step(next, d)) != Empty
    ensures Process(orig, g, Move(d, id)) == (g, Failed(Move(d, id), PushBlocked))
  {
  }

  /** Pushing a box and then undoing restores the board from before the push
      and empties the checkpoint slot; the quota pays one unit only when it
      was above 1 (a quota of 1 is never used up this way). */
  lemma PushThenUndo(orig: Board, g: Game, d: Direction, id: int, initiator: int)
    requires WellFormed(orig, g) && CanPush(g, d, id) && g.quota.value > 0
    ensures var g1 := Process(orig, g, Move(d, id)).0;
      assert WellFormed(orig, g1) by { ProcessPreservesWellFormed(orig, g, Move(d, id)); }
      var (g2, res) := Process(orig, g1, Undo(initiator));
      && res.Success?
      && g2.live == g.live
      && g2.saved == None && g2.init == g.init
      && g2.quota == Some(if g.quota.value > 1 then g.quota.value - 1 else g.quota.value)
  {
    var cur := g.live.players[PlayerKey(id)];
    var beyond := Step(Step(cur, d), d);
    PushMovesBox(orig, g, d, id);
    ProcessPreservesWellFormed(orig, g, Move(d, id));
    var g1 := Process(orig, g, Move(d, id)).0;
    assert beyond in BoxPositions(g1.live.cells) && !IsBoxAt(g.live.cells, beyond);
    assert !Stale(g1.live.cells, g1.saved.value.board.cells);
  }

  /** After two pushes in a row, one undo takes back only the second: the
      board is the one between the pushes, not the one before both. */
  lemma UndoRevertsOnlyLastPush(orig: Board, g: Game, d1: Direction, id1: int, d2: Direction, id2: int)
    requires WellFormed(orig, g) && CanPush(g, d1, id1) && g.quota.value > 0
    requires assert WellFormed(orig, Process(orig, g, Move(d1, id1)).0) by {
        ProcessPreservesWellFormed(orig, g, Move(d1, id1));
      }
      CanPush(Process(orig, g, Move(d1, id1)).0, d2, id2)
    ensures var g1 := Process(orig, g, Move(d1, id1)).0;
      assert WellFormed(orig, g1) by { ProcessPreservesWellFormed(orig, g, Move(d1, id1)); }
      assert WellFormed(orig, Process(orig, g1, Move(d2, id2)).0) by {
        ProcessPreservesWellFormed(orig, g1, Move(d2, id2));
      }
      var g2 := Process(orig, g1, Move(d2, id2)).0;
      Undone(orig, g2).live == g1.live && g1.live != g.live
  {
    ProcessPreservesWellFormed(orig, g, Move(d1, id1));
    var g1 := Process(orig, g, Move(d1, id1)).0;
    PushMovesBox(orig, g, d1, id1);
    PushThenUndo(orig, g1, d2, id2, -1);
    var beyond := Step(Step(g.live.players[PlayerKey(id1)], d1), d1);
    assert At(g1.live.cells, beyond) != At(g.live.cells, beyond);
  }

  /** No action raises the quota, a non-negative quota stays non-negative,
      and a quota of -1 stays -1 for good. */
  lemma QuotaNeverRises(orig: Board, g: Game, a: Action)
    requires WellFormed(orig, g)
    ensures var r := Process(orig, g, a).0;
      && r.quota.Some? && r.quota.value <= g.quota.value
      && (g.quota.value >= 0 ==> r.quota.value >= 0)
      && (g.quota == Some(-1) ==> r.quota == Some(-1))
  {
    if a.Undo? && g.quota.value > 0 {
      UndoneClosedForm(orig, g);
    }
  }

  /** The checkpoint, if any, is not stale: some box stands where the
      checkpoint had none. */
  ghost predicate CheckpointUseful(g: Game) {
    g.saved.Some? ==> !Stale(g.live.cells, g.saved.value.board.cells)
  }

  /** Through `processAction` a checkpoint is never stale: every push leaves
      its box on a cell that was empty when the checkpoint was taken, and
      walking moves no box. So `init` is never cleared during play, a reset
      to the original map is always free, and a quota of at least 1 never
      falls below 1. */
  lemma ProcessKeepsCheckpointUseful(orig: Board, g: Game, a: Action)
    requires WellFormed(orig, g) && IndexesAgree(orig, g) && CheckpointUseful(g)
    ensures var r := Process(orig, g, a).0;
      && CheckpointUseful(r)
      && (g.init ==> r.init)
      && (g.init && g.quota.value >= 1 ==> r.quota.value >= 1)
  {
    match a
    case Undo(_) =>
      if g.quota.value > 0 {
        UndoneClosedForm(orig, g);
      }
    case Move(d, id) =>
      if Locates(g, id) {
        var cur := g.live.players[PlayerKey(id)];
        var next := Step(cur, d);
        StepFromInterior(g.live.cells, cur, d);
        if At(g.live.cells, next).Empty? {
          var r := MoveEntity(g.live, cur, next);
          assert At(g.live.cells, cur).Player?;
          assert BoxPositions(r.cells) == BoxPositions(g.live.cells) by {
            forall p ensures p in BoxPositions(r.cells) <==> p in BoxPositions(g.live.cells) {
              if InBounds(g.live.cells, p) && p != cur && p != next {}
            }
          }
        } else if At(g.live.cells, next).Box? {
          NotWallIsInterior(g.live.cells, next);
          var beyond := Step(next, d);
          StepFromInterior(g.live.cells, next, d);
          StepTwiceMovesOn(cur, d);
          if At(g.live.cells, beyond) == Empty {
            PushMovesBox(orig, g, d, id);
            var r := Process(orig, g, Move(d, id)).0;
            assert beyond in BoxPositions(r.live.cells);
            assert !IsBoxAt(g.live.cells, beyond);
          }
        }
      }
    case _ =>
  }

  /** Row 1 of the walled level `#.Aa@.#`: player A, its box, then the
      destination. */
  function ExampleBoard(): Board {
    var wall := seq(7, _ => Wall);
    Board([wall, [Wall, Empty, Player(0), Box(0), Empty, Empty, Wall], wall],
          map[PlayerKey(0) := Position(2, 1)])
  }

  lemma ExampleIsPlayable()
    ensures Playable(ExampleBoard())
  {
    var g := ExampleBoard().cells;
    forall p | InBounds(g, p)
      ensures At(g, p) != Unset && (OnBorder(g, p) ==> At(g, p) == Wall)
    {
      assert p.y == 0 || p.y == 1 || p.y == 2;
    }
  }

  /** With undo limit 3: moving A right pushes the box onto the destination
      and wins; undoing then brings back the layout before the push, which
      has not won, and leaves a quota of 2. */
  lemma ExamplePushWinsAndUndoTakesItBack()
    ensures var orig := ExampleBoard();
      var g := Game(orig, Some(3), None, true);
      var destinations := {Position(4, 1)};
      assert WellFormed(orig, g) by { ExampleIsPlayable(); }
      var g1 := Process(orig, g, Move(Right, 0)).0;
      assert WellFormed(orig, g1) by { ProcessPreservesWellFormed(orig, g, Move(Right, 0)); }
      var (g2, res) := Process(orig, g1, Undo(-1));
      && !IsWon(destinations, g.live.cells)
      && IsWon(destinations, g1.live.cells)
      && res.Success? && g2.live == orig && g2.quota == Some(2)
      && !IsWon(destinations, g2.live.cells)
  {
    var orig := ExampleBoard();
    var g := Game(orig, Some(3), None, true);
    ExampleIsPlayable();
    assert CanPush(g, Right, 0);
    PushMovesBox(orig, g, Right, 0);
    PushThenUndo(orig, g, Right, 0, -1);
    assert !IsBoxAt(orig.cells, Position(4, 1));
  }

  class SokobanGame {
    const state: GameState
    var requestExit: bool

    ghost predicate Valid()
      reads this, state, state.Repr
    {
      state.Ready()
    }

    constructor (gameState: GameState)
      requires gameState.Ready()
      ensures Valid() && state == gameState && !requestExit
    {
      state := gameState;
      requestExit := false;
    }

    /** `shouldStop()`: the game is won or an exit was requested. */
    method ShouldStop() returns (stop: bool)
      requires Valid()
      requires forall d :: d in state.gameMap.destinations ==>
                 0 <= d.x < state.gameMap.width && 0 <= d.y < state.gameMap.height
      ensures stop == (IsWon(state.gameMap.destinations, state.state.cells) || requestExit)
    {
      var won := state.IsWin();
      stop := won || requestExit;
    }

    /** `processAction(action)`: the state and result `Process` gives. */
    method ProcessAction(action: Action) returns (result: ActionResult)
      requires Valid()
      modifies state.Repr
      ensures Valid() && fresh(state.Repr - old(state.Repr))
      ensures unchanged(state.gameMap, state.gameMap.grid)
      ensures (state.Abs(), result) == Process(state.gameMap.Snap(), old(state.Abs()), action)
    {
      ghost var orig := state.gameMap.Snap();
      ghost var g := state.Abs();
      ProcessPreservesWellFormed(orig, g, action);
      match action
      case Exit(_) =>
        result := Success(action);
      case Undo(_) =>
        var quota := state.GetUndoQuota();
        if quota.None? || quota.value > 0 {
          state.Undo();
          result := Success(action);
        } else {
          result := Failed(action, UndoQuotaRunOut);
        }
      case Move(d, id) =>
        result := ProcessMove(d, id);
      case InvalidInput(_, _) =>
        result := Failed(action, InvalidInputMessage);
    }

    /** The Move case of `processAction`, resolved against the initiator's
        indexed position. */
    method ProcessMove(d: Direction, id: int) returns (result: ActionResult)
      requires Valid()
      modifies state.Repr
      ensures Valid() && fresh(state.Repr - old(state.Repr))
      ensures unchanged(state.gameMap, state.gameMap.grid)
      ensures (state.Abs(), result) == Process(state.gameMap.Snap(), old(state.Abs()), Move(d, id))
    {
      ghost var orig := state.gameMap.Snap();
      ghost var g := state.Abs();
      ProcessPreservesWellFormed(orig, g, Move(d, id));
      var found := state.GetPlayerPositionById(id);
      if id > 1 || found.None? {
        return Failed(Move(d, id), PlayerNotFound);
      }
      var cur := found.value;
      var next := Step(cur, d);
      StepFromInterior(g.live.cells, cur, d);
      var target := state.GetEntity(next);
      match target {
        case Player(_) =>
          result := Failed(Move(d, id), HitPlayer);
        case Wall =>
          result := Failed(Move(d, id), HitWall);
        case Empty =>
          state.Move(cur, next);
          result := Success(Move(d, id));
        case Box(_) =>
          NotWallIsInterior(g.live.cells, next);
          var beyond := Step(next, d);
          StepFromInterior(g.live.cells, next, d);
          StepTwiceMovesOn(cur, d);
          var behind := state.GetEntity(beyond);
          if behind.Empty? {
            Push(cur, next, beyond);
            result := Success(Move(d, id));
          } else {
            result := Failed(Move(d, id), PushBlocked);
          }
        case Unset =>
          assert false;
      }
    }

    /** The push of `processAction`: checkpoint, move the box on, then the
        player into the box's old cell. */
    method Push(cur: Position, next: Position, beyond: Position)
      requires state.Valid()
      requires InBounds(state.state.cells, cur) && InBounds(state.state.cells, next) && InBounds(state.state.cells, beyond)
      requires cur != next && next != beyond && cur != beyond
      requires At(state.state.cells, cur) != Unset && At(state.state.cells, next).Box?
      requires At(state.state.cells, beyond) == Empty
      modifies state.Repr
      ensures state.Valid() && fresh(state.Repr - old(state.Repr))
      ensures unchanged(state.gameMap, state.gameMap.grid)
      ensures state.Abs() == Checkpointed(old(state.Abs())).(live :=
                MoveEntity(MoveEntity(old(state.Abs()).live, next, beyond), cur, next))
    {
      state.Checkpoint();
      state.Move(next, beyond);
      state.Move(cur, next);
    }
  }
}
