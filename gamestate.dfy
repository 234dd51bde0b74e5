/** The authoritative game state of index.js and its four room handlers:
    `onRoomStart` (the constructor), `onPlayerJoin`, `onPlayerMove` and
    `onPlayerQuit`. The handlers mutate the state document in place, so
    the state is a class whose board is an 8 by 8 `array2`.

    `onPlayerMove` trusts the move it is given: it applies any in-bounds
    relocation without asking the move generator. The lemmas at the end
    say what such a move does when it was one the generator offered. */
module GameState {
  import opened Wrappers
  import opened Board
  import opened MoveGen

  datatype Status = PreGame | InGame | EndGame

  /** The source's `Move` enumeration. */
  datatype MoveType = Jump | Regular

  /** `moveDetails`: `{}` before any move and after a turn switch. */
  datatype MoveDetails = NoDetails | Details(moveType: MoveType, pieceLocation: Loc)

  /** A player as the room platform hands it over. */
  datatype Player = Player(id: string, username: string)

  /** The move a client submits: a turn switch, or a relocation of the
      piece on `currentLoc` to `nextLoc`, capturing `capture` if present. */
  datatype MoveRequest = SwitchTurn | PieceMove(currentLoc: Loc, nextLoc: Loc, capture: Option<Loc>)

  /** The errors the handlers throw. NoPlayerAtTurnIndex is the TypeError of
      reading `.id` of `players[plrToMoveIndex]` when there is no such player. */
  datatype GameError = GameAlreadyStarted | GameNotInProgress | NotPlayersTurn(username: string) | NoPlayerAtTurnIndex

  /** The result of `onPlayerQuit`: whether it returns the state, and the
      room flags it sets. */
  datatype QuitResult = QuitResult(stateReturned: bool, joinable: bool, finished: bool)

  /** How a move ends: the game goes on, a player has won (the winner is
      absent when the player list has no such entry), or the handler throws. */
  datatype Ending = StillPlaying | Won(winner: Option<Player>) | Crashed

  const E: Cell := None
  const M1: Cell := Some(Man(0))
  const M2: Cell := Some(Man(1))

  /** The opening position written out by `onRoomStart`. */
  function InitialBoard(): Board {
    [
      [E, M2, E, M2, E, M2, E, M2],
      [M2, E, M2, E, M2, E, M2, E],
      [E, M2, E, M2, E, M2, E, M2],
      [E, E, E, E, E, E, E, E],
      [E, E, E, E, E, E, E, E],
      [M1, E, M1, E, M1, E, M1, E],
      [E, M1, E, M1, E, M1, E, M1],
      [M1, E, M1, E, M1, E, M1, E]
    ]
  }

  /** The opening position holds player 1's men on the odd squares of rows
      0 to 2, player 0's men on the odd squares of rows 5 to 7, and nothing else. */
  lemma InitialLayout()
    ensures forall r, c :: 0 <= r < Size && 0 <= c < Size ==>
      InitialBoard()[r][c] ==
        if (r + c) % 2 == 1 && r < 3 then Some(Man(1))
        else if (r + c) % 2 == 1 && r >= 5 then Some(Man(0))
        else None
  {
  }

  /** Each side starts with twelve pieces, matching the opening counters. */
  lemma InitialCounts()
    ensures Count(InitialBoard(), 0) == 12 && Count(InitialBoard(), 1) == 12
  {
    var b := InitialBoard();
    RowCount8(b[0], 0); RowCount8(b[0], 1);
    RowCount8(b[1], 0); RowCount8(b[1], 1);
    RowCount8(b[2], 0); RowCount8(b[2], 1);
    RowCount8(b[3], 0); RowCount8(b[3], 1);
    RowCount8(b[4], 0); RowCount8(b[4], 1);
    RowCount8(b[5], 0); RowCount8(b[5], 1);
    RowCount8(b[6], 0); RowCount8(b[6], 1);
    RowCount8(b[7], 0); RowCount8(b[7], 1);
    RowsCount8(b, 0);
    RowsCount8(b, 1);
  }

  /** `getPlrMark`: the mark of `player` is player 0's ('1' or '11') exactly
      when its id is that of the first player in the list, and a king
      exactly when asked for one. */
  function PlrMark(player: Player, players: seq<Player>, king: bool): (m: Piece)
    requires |players| >= 1
    ensures m.owner == 0 <==> player.id == players[0].id
    ensures m.King? <==> king
  {
    if player.id == players[0].id then (if king then King(0) else Man(0))
    else (if king then King(1) else Man(1))
  }

  /** The piece `onPlayerMove` writes on the destination: a king when the
      origin held a king of either player, or when the mover reaches the far
      row (row 0 for player 0, row 7 for player 1). A king stays a king. */
  function MovedPiece(player: Player, players: seq<Player>, origin: Cell, mover: PlayerIndex, nextRow: int): (m: Piece)
    requires |players| >= 1
    ensures m.King? <==> (origin == Some(King(0)) || origin == Some(King(1))
                          || (mover == 0 && nextRow == 0) || (mover == 1 && nextRow == 7))
    ensures m.owner == 0 <==> player.id == players[0].id
  {
    var isKing := origin == Some(King(0)) || origin == Some(King(1));
    var shouldMakeKing := (mover == 0 && nextRow == 0) || (mover == 1 && nextRow == 7);
    PlrMark(player, players, isKing || shouldMakeKing)
  }

  /** The board after a relocation, written in the source's order: clear the
      origin, clear the captured square, write the mark on the destination.
      The destination ends up holding the mark; the origin and the captured
      square end up empty unless one of them is the destination; every
      other square is unchanged. */
  function ApplyMove(b: Board, currentLoc: Loc, nextLoc: Loc, capture: Option<Loc>, mark: Piece): (r: Board)
    requires InBounds(currentLoc) && InBounds(nextLoc)
    requires capture.Some? ==> InBounds(capture.value)
    ensures At(r, nextLoc) == Some(mark)
    ensures forall m :: InBounds(m) && m != nextLoc ==>
      At(r, m) == if m == currentLoc || capture == Some(m) then None else At(b, m)
  {
    var cleared := Set(b, currentLoc, None);
    var captured := if capture.Some? then Set(cleared, capture.value, None) else cleared;
    Set(captured, nextLoc, Some(mark))
  }

  /** A player's counter after a move by `mover`: it drops by one when the
      move captured and the counter is the opponent's. */
  function CounterAfterMove(counter: int, counterOwner: PlayerIndex, mover: PlayerIndex, captured: bool): int {
    if captured && mover != counterOwner then counter - 1 else counter
  }

  /** `players[i]`, which is `undefined` past the end of the list. */
  function PlayerAt(players: seq<Player>, i: nat): (r: Option<Player>)
    ensures r.Some? <==> i < |players|
    ensures r.Some? ==> r.value == players[i]
  {
    if i < |players| then Some(players[i]) else None
  }

  /** The end-of-move check of index.js:168-178 as written: it refers to
      `plrs`, which is not defined, so once a counter reaches zero it throws
      (after having set the status to EndGame) instead of naming a winner. */
  function EndCheckAsWritten(plrOneCounter: int, plrTwoCounter: int): (e: Ending)
    ensures e.StillPlaying? <==> plrOneCounter != 0 && plrTwoCounter != 0
    ensures !e.Won?
  {
    if plrOneCounter == 0 then Crashed
    else if plrTwoCounter == 0 then Crashed
    else StillPlaying
  }

  /** The end-of-move check as intended: when player 0's counter is zero the
      second player wins; otherwise when player 1's counter is zero the first
      player wins; otherwise the game goes on. It never throws. */
  function EndCheck(plrOneCounter: int, plrTwoCounter: int, players: seq<Player>): (e: Ending)
    ensures !e.Crashed?
    ensures e.StillPlaying? <==> plrOneCounter != 0 && plrTwoCounter != 0
    ensures plrOneCounter == 0 && |players| >= 2 ==> e == Won(Some(players[1]))
    ensures plrOneCounter != 0 && plrTwoCounter == 0 && |players| >= 1 ==> e == Won(Some(players[0]))
  {
    if plrOneCounter == 0 then Won(PlayerAt(players, 1))
    else if plrTwoCounter == 0 then Won(PlayerAt(players, 0))
    else StillPlaying
  }

  /** The defect and its correction: whenever a counter is zero after a move
      in a room of at least two players, the code as written throws, while the
      intended check names the winner: the second player when player 0 has
      no pieces left, otherwise the first player. */
  lemma EndCheckDefect(plrOneCounter: int, plrTwoCounter: int, players: seq<Player>)
    requires |players| >= 2
    requires plrOneCounter == 0 || plrTwoCounter == 0
    ensures EndCheckAsWritten(plrOneCounter, plrTwoCounter) == Crashed
    ensures plrOneCounter == 0 ==> EndCheck(plrOneCounter, plrTwoCounter, players) == Won(Some(players[1]))
    ensures plrOneCounter != 0 ==> EndCheck(plrOneCounter, plrTwoCounter, players) == Won(Some(players[0]))
  {
  }

  /** `players[plrToMoveIndex].id === player.id`, with the index present and
      naming an existing player. */
  predicate HoldsTurn(players: seq<Player>, plrToMoveIndex: Option<PlayerIndex>, player: Player) {
    plrToMoveIndex.Some? && plrToMoveIndex.value < |players| && players[plrToMoveIndex.value].id == player.id
  }

  /** The coordinates `onPlayerMove` indexes the board with are on the board. */
  predicate MoveInBounds(move: MoveRequest) {
    move.PieceMove? ==>
      InBounds(move.currentLoc) && InBounds(move.nextLoc)
      && (move.capture.Some? ==> InBounds(move.capture.value))
  }

  /** What an offered option guarantees about the squares a relocation
      touches: the destination is an empty square other than the origin, and
      a captured square is a third square holding an opponent piece. */
  lemma OfferedGeometry(b: Board, p: PlayerIndex, from: Loc, o: MoveOption)
    requires InBounds(from) && PossibleMoves(b, p, from).Ok?
    requires o in PossibleMoves(b, p, from).value.possibleMoves
    ensures InBounds(o.dest) && o.dest != from && At(b, o.dest).None? && OwnedBy(At(b, from), p)
    ensures o.capture.Some? ==>
      InBounds(o.capture.value) && o.capture.value != from && o.capture.value != o.dest
      && OwnedBy(At(b, o.capture.value), Opponent(p))
  {
    assert IsAllowedJump(b, p, from, o) || IsAllowedStep(b, p, from, o);
    if IsJumpOption(b, p, from, true, o) {
      JumpGeometry(b, p, from, true, o);
    } else if IsJumpOption(b, p, from, false, o) {
      JumpGeometry(b, p, from, false, o);
    } else if IsStepOption(b, from, true, o) {
      StepGeometry(b, from, true, o);
    } else {
      StepGeometry(b, from, false, o);
    }
  }

  lemma JumpGeometry(b: Board, p: PlayerIndex, from: Loc, upward: bool, o: MoveOption)
    requires InBounds(from) && IsJumpOption(b, p, from, upward, o)
    ensures InBounds(o.dest) && o.dest != from && At(b, o.dest).None?
    ensures o.capture.Some? && InBounds(o.capture.value) && o.capture.value != from
      && o.capture.value != o.dest && OwnedBy(At(b, o.capture.value), Opponent(p))
  {
  }

  lemma StepGeometry(b: Board, from: Loc, upward: bool, o: MoveOption)
    requires InBounds(from) && IsStepOption(b, from, upward, o)
    ensures InBounds(o.dest) && o.dest != from && At(b, o.dest).None? && o.capture.None?
  {
  }

  /** Counting for a relocation of a piece of player p onto an empty square,
      optionally over a piece of the opponent, with a mark of player p. */
  lemma RelocationCounts(b: Board, p: PlayerIndex, from: Loc, dest: Loc, capture: Option<Loc>, mark: Piece)
    requires InBounds(from) && InBounds(dest) && dest != from && At(b, dest).None? && OwnedBy(At(b, from), p)
    requires capture.Some? ==>
      InBounds(capture.value) && capture.value != from && capture.value != dest
      && OwnedBy(At(b, capture.value), Opponent(p))
    requires mark.owner == p
    ensures Count(ApplyMove(b, from, dest, capture, mark), p) == Count(b, p)
    ensures Count(ApplyMove(b, from, dest, capture, mark), Opponent(p))
            == Count(b, Opponent(p)) - (if capture.Some? then 1 else 0)
  {
    var q := Opponent(p);
    var cleared := Set(b, from, None);
    CountSet(b, from, None, p);
    CountSet(b, from, None, q);
    var captured := cleared;
    if capture.Some? {
      var cap := capture.value;
      assert At(cleared, cap) == At(b, cap);
      captured := Set(cleared, cap, None);
      CountSet(cleared, cap, None, p);
      CountSet(cleared, cap, None, q);
    }
    assert At(captured, dest) == None;
    CountSet(captured, dest, Some(mark), p);
    CountSet(captured, dest, Some(mark), q);
  }

  /** Applying a move the generator offered to player p, with a mark of
      player p: a jump removes exactly one opponent piece, a regular step
      removes none, and player p keeps all of its pieces. */
  lemma GeneratedMoveCounts(b: Board, p: PlayerIndex, from: Loc, o: MoveOption, mark: Piece)
    requires InBounds(from) && PossibleMoves(b, p, from).Ok?
    requires o in PossibleMoves(b, p, from).value.possibleMoves
    requires mark.owner == p
    ensures InBounds(o.dest) && (o.capture.Some? ==> InBounds(o.capture.value))
    ensures Count(ApplyMove(b, from, o.dest, o.capture, mark), p) == Count(b, p)
    ensures Count(ApplyMove(b, from, o.dest, o.capture, mark), Opponent(p))
            == Count(b, Opponent(p)) - (if o.capture.Some? then 1 else 0)
  {
    OfferedGeometry(b, p, from, o);
    RelocationCounts(b, p, from, o.dest, o.capture, mark);
  }

  /** When the two players have distinct ids, the mark `onPlayerMove` writes
      for the player holding the turn belongs to the player at `plrToMoveIndex`. */
  lemma MarkOwnerIsMover(player: Player, players: seq<Player>, p: PlayerIndex, origin: Cell, nextRow: int)
    requires |players| == 2 && players[0].id != players[1].id
    requires HoldsTurn(players, Some(p), player)
    ensures MovedPiece(player, players, origin, p, nextRow).owner == p
  {
  }

  /** If the counters equal the pieces on the board before a move that the
      generator offered to the player holding the turn, `onPlayerMove` keeps
      them equal afterwards: they never go negative along generated moves. */
  lemma GeneratedMoveKeepsCounters(b: Board, players: seq<Player>, player: Player, p: PlayerIndex,
                                   from: Loc, o: MoveOption, plrOneCounter: int, plrTwoCounter: int)
    requires |players| == 2 && players[0].id != players[1].id
    requires HoldsTurn(players, Some(p), player)
    requires InBounds(from) && PossibleMoves(b, p, from).Ok?
    requires o in PossibleMoves(b, p, from).value.possibleMoves
    requires plrOneCounter == Count(b, 0) && plrTwoCounter == Count(b, 1)
    ensures InBounds(o.dest) && (o.capture.Some? ==> InBounds(o.capture.value))
    ensures var after := ApplyMove(b, from, o.dest, o.capture, MovedPiece(player, players, At(b, from), p, o.dest.x));
      CounterAfterMove(plrOneCounter, 0, p, o.capture.Some?) == Count(after, 0)
      && CounterAfterMove(plrTwoCounter, 1, p, o.capture.Some?) == Count(after, 1)
      && CounterAfterMove(plrOneCounter, 0, p, o.capture.Some?) >= 0
      && CounterAfterMove(plrTwoCounter, 1, p, o.capture.Some?) >= 0
  {
    var mark := MovedPiece(player, players, At(b, from), p, o.dest.x);
    MarkOwnerIsMover(player, players, p, At(b, from), o.dest.x);
    GeneratedMoveCounts(b, p, from, o, mark);
    if p == 0 {
      assert Opponent(p) == 1;
    } else {
      assert Opponent(p) == 0;
    }
  }

  /** A generated move of player p that lands on the far row (row 0 for
      player 0, row 7 for player 1) leaves the mover's king there, so from
      then on the piece is offered backward moves as well as forward ones. */
  lemma PromotedPieceMovesBothWays(b: Board, players: seq<Player>, player: Player, p: PlayerIndex,
                                   from: Loc, o: MoveOption)
    requires |players| == 2 && players[0].id != players[1].id
    requires HoldsTurn(players, Some(p), player)
    requires InBounds(from) && PossibleMoves(b, p, from).Ok?
    requires o in PossibleMoves(b, p, from).value.possibleMoves
    requires (p == 0 && o.dest.x == 0) || (p == 1 && o.dest.x == 7)
    ensures InBounds(o.dest)
    ensures var after := ApplyMove(b, from, o.dest, o.capture, MovedPiece(player, players, At(b, from), p, o.dest.x));
      IsMoverKing(after, p, o.dest)
      && PossibleMoves(after, p, o.dest).Ok?
      && forall o2 :: IsStepOption(after, o.dest, !ForwardIsUpward(p), o2)
                      ==> o2 in PossibleMoves(after, p, o.dest).value.possibleMoves
  {
    MarkOwnerIsMover(player, players, p, At(b, from), o.dest.x);
  }

  /** The state document of one room. */
  class Game {
    var board: array2<Cell>
    var status: Status
    var plrToMoveIndex: Option<PlayerIndex>
    var plrOneCounter: int
    var plrTwoCounter: int
    var moveDetails: MoveDetails
    var winner: Option<Player>

    ghost predicate Valid()
      reads this`board
    {
      board.Length0 == Size && board.Length1 == Size
    }

    /** The board as a value. */
    ghost function Cells(): Board
      reads this`board, board
      requires Valid()
    {
      var a := board;
      seq(Size, (r: int) requires 0 <= r < Size reads a =>
        seq(Size, (c: int) requires 0 <= c < Size reads a => a[r, c]))
    }

    /** `onRoomStart`: the opening position before anyone has moved. */
    constructor ()
      ensures Valid() && fresh(board)
      ensures status == PreGame && Cells() == InitialBoard()
      ensures plrToMoveIndex == None && plrOneCounter == 12 && plrTwoCounter == 12
      ensures moveDetails == NoDetails && winner == None
    {
      var init := InitialBoard();
      board := new Cell[Size, Size]((r: nat, c: nat) requires r < Size && c < Size => init[r][c]);
      status := PreGame;
      plrToMoveIndex := None;
      moveDetails := NoDetails;
      plrOneCounter := 12;
      plrTwoCounter := 12;
      winner := None;
      new;
      assert Cells() == init by {
        forall r | 0 <= r < Size ensures Cells()[r] == init[r] { }
      }
    }

    /** `onPlayerJoin`: throws outside PreGame; starts the game with player 0
      to move once the list holds exactly two players, and otherwise leaves
      the state as it is. The flag returned is `joinable`. */
    method OnPlayerJoin(players: seq<Player>) returns (r: Result<bool, GameError>)
      requires Valid()
      modifies this
      ensures Valid() && board == old(board)
      ensures old(status) != PreGame ==> r == Err(GameAlreadyStarted) && unchanged(this)
      ensures old(status) == PreGame && |players| == 2 ==>
        r == Ok(false) && status == InGame && plrToMoveIndex == Some(0)
        && plrOneCounter == old(plrOneCounter) && plrTwoCounter == old(plrTwoCounter)
        && moveDetails == old(moveDetails) && winner == old(winner)
      ensures old(status) == PreGame && |players| != 2 ==> r == Ok(true) && unchanged(this)
    {
      if status != PreGame {
        return Err(GameAlreadyStarted);
      }
      if |players| == 2 {
        status := InGame;
        plrToMoveIndex := Some(0);
        return Ok(false);
      }
      return Ok(true);
    }

    /** `onPlayerMove`. It throws, changing nothing, outside InGame or when
      `player` is not the one at `plrToMoveIndex`. A turn switch flips the
      index and clears the move details. Any other move is applied without
      checking it against the move generator: the origin is emptied, the
      captured square (if any) is emptied and the opponent's counter drops,
      the mover's mark (promoted as `MovedPiece` says) is written on the
      destination, and the game ends when a counter is zero. The flag
      returned is `finished`. */
    method OnPlayerMove(player: Player, players: seq<Player>, move: MoveRequest) returns (r: Result<bool, GameError>)
      requires Valid() && MoveInBounds(move)
      modifies this, board
      ensures Valid() && board == old(board)
      ensures old(status) != InGame ==> r == Err(GameNotInProgress)
      ensures old(status) == InGame && !HoldsTurn(players, old(plrToMoveIndex), player) ==>
        r == (if old(plrToMoveIndex).Some? && old(plrToMoveIndex).value < |players|
              then Err(NotPlayersTurn(player.username)) else Err(NoPlayerAtTurnIndex))
      ensures r.Err? <==> !(old(status) == InGame && HoldsTurn(players, old(plrToMoveIndex), player))
      ensures r.Err? ==> unchanged(this) && Cells() == old(Cells())
      ensures r.Ok? && move.SwitchTurn? ==>
        r == Ok(false) && plrToMoveIndex == Some(Opponent(old(plrToMoveIndex).value))
        && moveDetails == NoDetails && Cells() == old(Cells())
        && status == old(status) && winner == old(winner)
        && plrOneCounter == old(plrOneCounter) && plrTwoCounter == old(plrTwoCounter)
      ensures r.Ok? && move.PieceMove? ==>
        var mover := old(plrToMoveIndex).value;
        var captured := move.capture.Some?;
        Cells() == ApplyMove(old(Cells()), move.currentLoc, move.nextLoc, move.capture,
                             MovedPiece(player, players, old(At(Cells(), move.currentLoc)), mover, move.nextLoc.x))
        && plrOneCounter == CounterAfterMove(old(plrOneCounter), 0, mover, captured)
        && plrTwoCounter == CounterAfterMove(old(plrTwoCounter), 1, mover, captured)
        && moveDetails == Details(if captured then Jump else Regular, move.nextLoc)
        && plrToMoveIndex == old(plrToMoveIndex)
        && match EndCheck(plrOneCounter, plrTwoCounter, players)
           case Won(w) => r == Ok(true) && status == EndGame && winner == w
           case _ => r == Ok(false) && status == InGame && winner == old(winner)
    {
      if status != InGame {
        return Err(GameNotInProgress);
      }
      if plrToMoveIndex.None? || plrToMoveIndex.value >= |players| {
        return Err(NoPlayerAtTurnIndex);
      }
      var mover := plrToMoveIndex.value;
      if players[mover].id != player.id {
        return Err(NotPlayersTurn(player.username));
      }
      match move
      case SwitchTurn =>
        moveDetails := NoDetails;
        plrToMoveIndex := Some(if mover == 0 then 1 else 0);
        return Ok(false);
      case PieceMove(currentLoc, nextLoc, capture) =>
        var finished := MovePiece(player, players, mover, currentLoc, nextLoc, capture);
        return Ok(finished);
    }

    /** The relocation branch of `onPlayerMove`, for the player whose turn it is. */
    method MovePiece(player: Player, players: seq<Player>, mover: PlayerIndex,
                     currentLoc: Loc, nextLoc: Loc, capture: Option<Loc>) returns (finished: bool)
      requires Valid() && |players| >= 1 && status == InGame
      requires InBounds(currentLoc) && InBounds(nextLoc) && (capture.Some? ==> InBounds(capture.value))
      modifies this, board
      ensures Valid() && board == old(board)
      ensures Cells() == ApplyMove(old(Cells()), currentLoc, nextLoc, capture,
                                   MovedPiece(player, players, old(At(Cells(), currentLoc)), mover, nextLoc.x))
      ensures plrOneCounter == CounterAfterMove(old(plrOneCounter), 0, mover, capture.Some?)
      ensures plrTwoCounter == CounterAfterMove(old(plrTwoCounter), 1, mover, capture.Some?)
      ensures moveDetails == Details(if capture.Some? then Jump else Regular, nextLoc)
      ensures plrToMoveIndex == old(plrToMoveIndex)
      ensures match EndCheck(plrOneCounter, plrTwoCounter, players)
              case Won(w) => finished && status == EndGame && winner == w
              case _ => !finished && status == InGame && winner == old(winner)
    {
      var origin := board[currentLoc.x, currentLoc.y];
      var moveType := Regular;
      WriteCell(currentLoc, None);
      if capture.Some? {
        WriteCell(capture.value, None);
        moveType := Jump;
        if mover == 0 {
          plrTwoCounter := plrTwoCounter - 1;
        } else {
          plrOneCounter := plrOneCounter - 1;
        }
      }
      var plrMark := MovedPiece(player, players, origin, mover, nextLoc.x);
      WriteCell(nextLoc, Some(plrMark));
      moveDetails := Details(moveType, nextLoc);
      var ending := EndCheck(plrOneCounter, plrTwoCounter, players);
      if ending.Won? {
        status := EndGame;
        winner := ending.winner;
        return true;
      }
      return false;
    }

    /** `board[x][y] = v`. */
    method WriteCell(l: Loc, v: Cell)
      requires Valid() && InBounds(l)
      modifies board
      ensures Cells() == Set(old(Cells()), l, v)
    {
      ghost var before := Cells();
      board[l.x, l.y] := v;
      forall i | 0 <= i < Size ensures Cells()[i] == Set(before, l, v)[i] {
        assert forall j :: 0 <= j < Size ==> Cells()[i][j] == At(Set(before, l, v), Loc(i, j));
      }
    }

    /** `onPlayerQuit`: the game always ends, unjoinable and finished. With
      exactly one player left, that player wins and the state is returned;
      otherwise no winner is recorded and the result carries no state. */
    method OnPlayerQuit(players: seq<Player>) returns (r: QuitResult)
      requires Valid()
      modifies this
      ensures Valid() && board == old(board)
      ensures status == EndGame && !r.joinable && r.finished
      ensures r.stateReturned <==> |players| == 1
      ensures winner == if |players| == 1 then Some(players[0]) else old(winner)
      ensures plrToMoveIndex == old(plrToMoveIndex) && moveDetails == old(moveDetails)
      ensures plrOneCounter == old(plrOneCounter) && plrTwoCounter == old(plrTwoCounter)
    {
      status := EndGame;
      if |players| == 1 {
        winner := Some(players[0]);
        return QuitResult(true, false, true);
      }
      return QuitResult(false, false, true);
    }
  }
}
