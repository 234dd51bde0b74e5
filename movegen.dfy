/** The client-side move generator of frontend/src/App.jsx: for the piece
    on a selected square it lists the capturing jumps and the regular
    diagonal steps, as seen by the player whose turn it is.

    Every generator reads the board and `plrToMoveIndex`, which the source
    takes from the enclosing component and which are explicit parameters
    here. None of them changes anything: the source builds a local list
    with at most two `push` calls per helper and concatenates lists. */
module MoveGen {
  import opened Wrappers
  import opened Board

  /** A destination the piece may move to, with the square it captures. */
  datatype MoveOption = MoveOption(dest: Loc, capture: Option<Loc>)

  /** What the client highlights: the options and the selected piece. */
  datatype MoveInfo = MoveInfo(possibleMoves: seq<MoveOption>, selectedPieceInfo: Loc)

  /** What happens after a jump: the turn passes, or the jumping piece
      is offered its further jumps. */
  datatype FollowUp = SwitchPlayer | Offer(info: MoveInfo)

  const IllegalMoveLocation := "Illegal move/location"

  /** Rows per step in a direction: upward decreases the row index. */
  function RowStep(upward: bool): int {
    if upward then -1 else 1
  }

  /** A man's direction of travel: player 0 ('1') moves upward toward
      row 0, player 1 ('2') downward toward row 7. */
  function ForwardIsUpward(p: PlayerIndex): bool {
    p == 0
  }

  /** The selected square holds the mover's own king. A king of the other
      player is not recognised as one ('11' for player 0, '22' for player 1). */
  predicate IsMoverKing(b: Board, p: PlayerIndex, from: Loc)
    requires InBounds(from)
  {
    At(b, from) == Some(King(p))
  }

  /** o is a capturing jump from `from` in direction `upward`: it lands two
      rows and two columns away, inside the board, on an empty square, and
      captures the square in between, which holds a piece of the opponent
      of player p. */
  predicate IsJumpOption(b: Board, p: PlayerIndex, from: Loc, upward: bool, o: MoveOption)
    requires InBounds(from)
  {
    var dr := RowStep(upward);
    InBounds(o.dest)
    && o.dest.x == from.x + 2 * dr
    && (o.dest.y == from.y - 2 || o.dest.y == from.y + 2)
    && At(b, o.dest).None?
    && o.capture == Some(Loc(from.x + dr, (from.y + o.dest.y) / 2))
    && OwnedBy(At(b, o.capture.value), Opponent(p))
  }

  /** o is a regular step from `from` in direction `upward`: one row and one
      column away, inside the board, onto an empty square, capturing nothing. */
  predicate IsStepOption(b: Board, from: Loc, upward: bool, o: MoveOption)
  {
    InBounds(o.dest)
    && o.dest.x == from.x + RowStep(upward)
    && (o.dest.y == from.y - 1 || o.dest.y == from.y + 1)
    && At(b, o.dest).None?
    && o.capture.None?
  }

  /** A jump in the mover's forward direction, or in either direction when
      the piece is the mover's king. */
  predicate IsAllowedJump(b: Board, p: PlayerIndex, from: Loc, o: MoveOption)
    requires InBounds(from)
  {
    IsJumpOption(b, p, from, ForwardIsUpward(p), o)
    || (IsMoverKing(b, p, from) && IsJumpOption(b, p, from, !ForwardIsUpward(p), o))
  }

  /** A step in the mover's forward direction, or in either direction when
      the piece is the mover's king. */
  predicate IsAllowedStep(b: Board, p: PlayerIndex, from: Loc, o: MoveOption)
    requires InBounds(from)
  {
    IsStepOption(b, from, ForwardIsUpward(p), o)
    || (IsMoverKing(b, p, from) && IsStepOption(b, from, !ForwardIsUpward(p), o))
  }

  /** o leads in the mover's forward direction. */
  predicate IsAhead(from: Loc, p: PlayerIndex, o: MoveOption) {
    if ForwardIsUpward(p) then o.dest.x < from.x else o.dest.x > from.x
  }

  /** The order in which options of one kind are listed: backward options
      (a king's) before forward ones, and by increasing column within a row. */
  predicate ListedBefore(from: Loc, p: PlayerIndex, o1: MoveOption, o2: MoveOption) {
    (!IsAhead(from, p, o1) && IsAhead(from, p, o2))
    || (IsAhead(from, p, o1) == IsAhead(from, p, o2) && o1.dest.y < o2.dest.y)
  }

  /** `getJumpCondition`: the square holds a man or king of the opponent
      of the player to move. */
  function JumpCondition(b: Board, p: PlayerIndex, l: Loc): (r: bool)
    requires InBounds(l)
    ensures r <==> OwnedBy(At(b, l), Opponent(p))
  {
    if p == 0 then At(b, l) == Some(Man(1)) || At(b, l) == Some(King(1))
    else At(b, l) == Some(Man(0)) || At(b, l) == Some(King(0))
  }

  /** `determinePossibleJumpMovesHelper`: the jumps in one direction, the
      left landing square before the right one. */
  function JumpMovesHelper(b: Board, p: PlayerIndex, from: Loc, upward: bool): (moves: seq<MoveOption>)
    requires InBounds(from)
    ensures |moves| <= 2
    ensures forall o :: o in moves <==> IsJumpOption(b, p, from, upward, o)
    ensures forall i, j :: 0 <= i < j < |moves| ==> moves[i].dest.y < moves[j].dest.y
  {
    var rowModifierJump := if upward then -2 else 2;
    var rowModifierPiece := if upward then -1 else 1;
    var possJumpRow := from.x + rowModifierJump;
    var possJumpCol1 := from.y - 2;
    var possJumpCol2 := from.y + 2;
    var condition := if rowModifierJump == -2 then possJumpRow >= 0 else possJumpRow <= 7;
    if !condition then []
    else
      var left :=
        if possJumpCol1 >= 0 && b[possJumpRow][possJumpCol1].None?
           && JumpCondition(b, p, Loc(from.x + rowModifierPiece, from.y - 1))
        then [MoveOption(Loc(possJumpRow, possJumpCol1), Some(Loc(from.x + rowModifierPiece, from.y - 1)))]
        else [];
      var right :=
        if possJumpCol2 <= 7 && b[possJumpRow][possJumpCol2].None?
           && JumpCondition(b, p, Loc(from.x + rowModifierPiece, from.y + 1))
        then [MoveOption(Loc(possJumpRow, possJumpCol2), Some(Loc(from.x + rowModifierPiece, from.y + 1)))]
        else [];
      left + right
  }

  /** `determinePossibleJumpMoves`: the jumps of the piece on `from` for
      player p; a man jumps forward only, the mover's king both ways. */
  function JumpMoves(b: Board, p: PlayerIndex, from: Loc): (moves: seq<MoveOption>)
    requires InBounds(from)
    ensures |moves| <= 4
    ensures forall o :: o in moves <==> IsAllowedJump(b, p, from, o)
    ensures forall o :: o in moves ==> o.capture.Some?
    ensures forall i, j :: 0 <= i < j < |moves| ==> ListedBefore(from, p, moves[i], moves[j])
  {
    if p == 0 then
      var jumpMovesUpward := JumpMovesHelper(b, p, from, true);
      var jumpMovesDownward := if At(b, from) == Some(King(0)) then JumpMovesHelper(b, p, from, false) else [];
      ListedInOrder(from, p, jumpMovesDownward, jumpMovesUpward);
      jumpMovesDownward + jumpMovesUpward
    else
      var jumpMovesDownward := JumpMovesHelper(b, p, from, false);
      var jumpMovesUpward := if At(b, from) == Some(King(1)) then JumpMovesHelper(b, p, from, true) else [];
      ListedInOrder(from, p, jumpMovesUpward, jumpMovesDownward);
      jumpMovesUpward + jumpMovesDownward
  }

  /** Backward options listed before forward ones, each group by column,
      are in `ListedBefore` order. */
  lemma ListedInOrder(from: Loc, p: PlayerIndex, back: seq<MoveOption>, ahead: seq<MoveOption>)
    requires forall o :: o in back ==> !IsAhead(from, p, o)
    requires forall o :: o in ahead ==> IsAhead(from, p, o)
    requires forall i, j :: 0 <= i < j < |back| ==> back[i].dest.y < back[j].dest.y
    requires forall i, j :: 0 <= i < j < |ahead| ==> ahead[i].dest.y < ahead[j].dest.y
    ensures forall i, j :: 0 <= i < j < |back + ahead| ==> ListedBefore(from, p, (back + ahead)[i], (back + ahead)[j])
  {
  }

  /** `determinePossibleRegularMovesHelper`: the steps in one direction, the
      left square before the right one. */
  function RegularMovesHelper(b: Board, from: Loc, upward: bool): (moves: seq<MoveOption>)
    requires InBounds(from)
    ensures |moves| <= 2
    ensures forall o :: o in moves <==> IsStepOption(b, from, upward, o)
    ensures forall i, j :: 0 <= i < j < |moves| ==> moves[i].dest.y < moves[j].dest.y
  {
    var rowModifier := if upward then -1 else 1;
    var possMoveRow := from.x + rowModifier;
    var possMoveCol1 := from.y - 1;
    var possMoveCol2 := from.y + 1;
    var condition := if rowModifier == -1 then possMoveRow >= 0 else possMoveRow <= 7;
    if !condition then []
    else
      var left :=
        if possMoveCol1 >= 0 && b[possMoveRow][possMoveCol1].None?
        then [MoveOption(Loc(possMoveRow, possMoveCol1), None)]
        else [];
      var right :=
        if possMoveCol2 <= 7 && b[possMoveRow][possMoveCol2].None?
        then [MoveOption(Loc(possMoveRow, possMoveCol2), None)]
        else [];
      left + right
  }

  /** `determinePossibleRegularMoves`: the steps of the piece on `from` for
      player p; a man steps forward only, the mover's king both ways. */
  function RegularMoves(b: Board, p: PlayerIndex, from: Loc): (moves: seq<MoveOption>)
    requires InBounds(from)
    ensures |moves| <= 4
    ensures forall o :: o in moves <==> IsAllowedStep(b, p, from, o)
    ensures forall o :: o in moves ==> o.capture.None?
    ensures forall i, j :: 0 <= i < j < |moves| ==> ListedBefore(from, p, moves[i], moves[j])
  {
    if p == 0 then
      var upwardMoves := RegularMovesHelper(b, from, true);
      var downwardMoves := if At(b, from) == Some(King(0)) then RegularMovesHelper(b, from, false) else [];
      ListedInOrder(from, p, downwardMoves, upwardMoves);
      downwardMoves + upwardMoves
    else
      var downwardMoves := RegularMovesHelper(b, from, false);
      var upwardMoves := if At(b, from) == Some(King(1)) then RegularMovesHelper(b, from, true) else [];
      ListedInOrder(from, p, upwardMoves, downwardMoves);
      upwardMoves + downwardMoves
  }

  /** `determinePossibleMoves`: selecting a square that does not hold a man
      or king of the player to move is an error; otherwise every jump is
      offered, followed by every regular step. Regular steps are offered
      even when a jump exists: capturing is not mandatory. */
  function PossibleMoves(b: Board, p: PlayerIndex, from: Loc): (r: Result<MoveInfo, string>)
    requires InBounds(from)
    ensures r.Err? <==> !OwnedBy(At(b, from), p)
    ensures r.Err? ==> r.error == IllegalMoveLocation
    ensures r.Ok? ==> r.value.selectedPieceInfo == from && |r.value.possibleMoves| <= 8
    ensures r.Ok? ==> forall o :: o in r.value.possibleMoves <==>
                        IsAllowedJump(b, p, from, o) || IsAllowedStep(b, p, from, o)
    ensures r.Ok? ==> forall i, j :: 0 <= i < j < |r.value.possibleMoves| ==>
                        (r.value.possibleMoves[j].capture.Some? ==> r.value.possibleMoves[i].capture.Some?)
    ensures r.Ok? ==> forall i, j ::
                        (0 <= i < j < |r.value.possibleMoves|
                         && r.value.possibleMoves[i].capture.Some? == r.value.possibleMoves[j].capture.Some?)
                        ==> ListedBefore(from, p, r.value.possibleMoves[i], r.value.possibleMoves[j])
  {
    var possLoc := At(b, from);
    if p == 0 && possLoc != Some(Man(0)) && possLoc != Some(King(0)) then Err(IllegalMoveLocation)
    else if p == 1 && possLoc != Some(Man(1)) && possLoc != Some(King(1)) then Err(IllegalMoveLocation)
    else
      var jumpMoves := JumpMoves(b, p, from);
      var regularMoves := RegularMoves(b, p, from);
      Ok(MoveInfo(jumpMoves + regularMoves, from))
  }

  /** The continue-or-switch decision of `continuousJumpHelper`, taken for
      the piece that has just jumped onto `at`: with no further jump the
      turn passes; otherwise only its jumps are offered. */
  function ContinueAfterJump(b: Board, p: PlayerIndex, at: Loc): (r: FollowUp)
    requires InBounds(at)
    ensures r.SwitchPlayer? <==> forall o :: !IsAllowedJump(b, p, at, o)
    ensures r.Offer? ==> r.info.selectedPieceInfo == at && |r.info.possibleMoves| > 0
    ensures r.Offer? ==> forall o :: o in r.info.possibleMoves <==> IsAllowedJump(b, p, at, o)
  {
    var moves := JumpMoves(b, p, at);
    if |moves| <= 0 then SwitchPlayer
    else
      assert IsAllowedJump(b, p, at, moves[0]);
      Offer(MoveInfo(moves, at))
  }
  /** A piece that is not the mover's king is offered only options in the
      mover's direction: row-decreasing for player 0, row-increasing for
      player 1. */
  lemma MenMoveForwardOnly(b: Board, p: PlayerIndex, from: Loc, o: MoveOption)
    requires InBounds(from) && !IsMoverKing(b, p, from)
    requires o in JumpMoves(b, p, from) + RegularMoves(b, p, from)
    ensures p == 0 ==> o.dest.x < from.x
    ensures p == 1 ==> o.dest.x > from.x
  {
  }

  /** The mover's king on `from` is offered every jump and every step in
      both directions. */
  lemma KingsMoveBothWays(b: Board, p: PlayerIndex, from: Loc, upward: bool, o: MoveOption)
    requires InBounds(from) && At(b, from) == Some(King(p))
    requires IsJumpOption(b, p, from, upward, o) || IsStepOption(b, from, upward, o)
    ensures PossibleMoves(b, p, from).Ok?
    ensures o in PossibleMoves(b, p, from).value.possibleMoves
  {
  }

  /** Regular steps are offered alongside jumps: when the piece has both,
      the list holds both, jumps first. */
  lemma NoMandatoryCapture(b: Board, p: PlayerIndex, from: Loc, jump: MoveOption, step: MoveOption)
    requires InBounds(from) && OwnedBy(At(b, from), p)
    requires IsAllowedJump(b, p, from, jump) && IsAllowedStep(b, p, from, step)
    ensures PossibleMoves(b, p, from).Ok?
    ensures var ms := PossibleMoves(b, p, from).value.possibleMoves;
      jump in ms && step in ms
      && exists i, j :: 0 <= i < j < |ms| && ms[i] == jump && ms[j] == step
  {
  }

  /** A lone player-0 man on (5, 2) with a player-1 man on (4, 1) and (3, 0)
      empty has exactly one jump: to (3, 0), capturing (4, 1). */
  lemma SingleJumpScenario(b: Board)
    requires forall r, c :: 0 <= r < Size && 0 <= c < Size ==>
      b[r][c] == if r == 5 && c == 2 then Some(Man(0)) else if r == 4 && c == 1 then Some(Man(1)) else None
    ensures JumpMoves(b, 0, Loc(5, 2)) == [MoveOption(Loc(3, 0), Some(Loc(4, 1)))]
  {
  }
}
