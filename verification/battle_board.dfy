/**
 * The move gating of the battle board (src/components/battle/BattleBoard.tsx):
 * each click either dispatches one named move or opens the error notice.
 * The four legality predicates live in an engine module outside this model
 * and are taken as parameters; so is the rest of the engine state `G`.
 */
module BattleBoard {
  import opened Wrappers

  /** Player ids are the strings "0" (the human) and "1" (the bot). */
  type PlayerId = string

  /** The host's game-over record; `winner` may be absent. */
  datatype GameOver = GameOver(winner: Option<PlayerId>)

  /** The slice of the host context the board reads. */
  datatype Ctx = Ctx(turn: nat, currentPlayer: PlayerId, gameover: Option<GameOver>)

  /**
   * The board's view of a game: the engine state `state`, each player's
   * selected and targeted index, and the host context.
   */
  datatype Board<G> = Board(state: G, selected: map<PlayerId, int>, target: map<PlayerId, int>, ctx: Ctx)

  /** `canSelect`, `canTarget`, `canAttack`, `canUltimate`, left uninterpreted. */
  datatype Legality<!G> = Legality(
    canSelect: (Board<G>, Option<int>) -> bool,
    canTarget: (Board<G>, Option<int>) -> bool,
    canAttack: (Board<G>, Option<int>, Option<int>) -> bool,
    canUltimate: (Board<G>, Option<int>, Option<int>) -> bool)

  /** The moves and host actions a click can lead to. */
  datatype Move =
    | SwitchMember(index: int)
    | SwitchTarget(index: int)
    | AttackMove(selected: Option<int>, target: Option<int>)
    | UltimateMove(selected: Option<int>, target: Option<int>)
    | GuardMove(selected: Option<int>)
    | Undo
    | Redo
    | Reset

  /** What a click does: dispatch one move, or open the error notice. */
  datatype Outcome = Dispatch(move: Move) | Reject

  /** The clickable controls: a character of `player` at `index`, or a button. */
  datatype Click =
    | CharacterClick(index: int, player: PlayerId)
    | AttackClick | UltimateClick | GuardClick | UndoClick | RedoClick | ResetClick

  /** `ctx.turn > 0 && !ctx.gameover`: the battle has started and is not over. */
  predicate Live(ctx: Ctx) {
    ctx.turn > 0 && ctx.gameover.None?
  }

  /** The current player's entry of a per-player index table (`undefined` if missing). */
  function Lookup(table: map<PlayerId, int>, player: PlayerId): (r: Option<int>)
    ensures r.Some? <==> player in table
    ensures r.Some? ==> r.value == table[player]
  {
    if player in table then Some(table[player]) else None
  }

  /** `G.selected[ctx.currentPlayer]`. */
  function Selected<G>(b: Board<G>): Option<int> {
    Lookup(b.selected, b.ctx.currentPlayer)
  }

  /** `G.target[ctx.currentPlayer]`. */
  function Target<G>(b: Board<G>): Option<int> {
    Lookup(b.target, b.ctx.currentPlayer)
  }

  /**
   * `handleCharacterClick`: on the current player's side it may only select,
   * on the other side it may only target; a refused selection never falls
   * through to targeting.
   */
  function HandleCharacterClick<G>(b: Board<G>, L: Legality<G>, ind: int, player: PlayerId): (r: Outcome)
    ensures r.Dispatch? ==> Live(b.ctx)
    ensures player == b.ctx.currentPlayer ==>
      (r == Dispatch(SwitchMember(ind)) <==> Live(b.ctx) && L.canSelect(b, Some(ind)))
    ensures player == b.ctx.currentPlayer ==> r != Dispatch(SwitchTarget(ind))
    ensures player != b.ctx.currentPlayer ==>
      (r == Dispatch(SwitchTarget(ind)) <==> Live(b.ctx) && L.canTarget(b, Some(ind)))
    ensures player != b.ctx.currentPlayer ==> r != Dispatch(SwitchMember(ind))
    ensures r.Reject? || r == Dispatch(SwitchMember(ind)) || r == Dispatch(SwitchTarget(ind))
  {
    if Live(b.ctx) then
      if b.ctx.currentPlayer == player then
        if L.canSelect(b, Some(ind)) then Dispatch(SwitchMember(ind)) else Reject
      else if L.canTarget(b, Some(ind)) then Dispatch(SwitchTarget(ind))
      else Reject
    else Reject
  }

  /** `handleAttackClick`: attacks with the current player's own selection and target. */
  function HandleAttackClick<G>(b: Board<G>, L: Legality<G>): (r: Outcome)
    ensures r.Dispatch? <==> Live(b.ctx) && L.canAttack(b, Selected(b), Target(b))
    ensures r.Dispatch? ==> r.move == AttackMove(Selected(b), Target(b))
  {
    if Live(b.ctx) && L.canAttack(b, Selected(b), Target(b)) then
      Dispatch(AttackMove(Selected(b), Target(b)))
    else Reject
  }

  /** `handleUltimateClick`: as attack, gated by `canUltimate`. */
  function HandleUltimateClick<G>(b: Board<G>, L: Legality<G>): (r: Outcome)
    ensures r.Dispatch? <==> Live(b.ctx) && L.canUltimate(b, Selected(b), Target(b))
    ensures r.Dispatch? ==> r.move == UltimateMove(Selected(b), Target(b))
  {
    if Live(b.ctx) && L.canUltimate(b, Selected(b), Target(b)) then
      Dispatch(UltimateMove(Selected(b), Target(b)))
    else Reject
  }

  /** `handleGuardClick`: guards with the selected character, gated by `canSelect` on it. */
  function HandleGuardClick<G>(b: Board<G>, L: Legality<G>): (r: Outcome)
    ensures r.Dispatch? <==> Live(b.ctx) && L.canSelect(b, Selected(b))
    ensures r.Dispatch? ==> r.move == GuardMove(Selected(b))
  {
    if Live(b.ctx) && L.canSelect(b, Selected(b)) then Dispatch(GuardMove(Selected(b))) else Reject
  }

  /** `handleUndoClick`: no legality predicate, only the live-battle gate. */
  function HandleUndoClick(ctx: Ctx): (r: Outcome)
    ensures r.Dispatch? <==> Live(ctx)
    ensures r.Dispatch? ==> r.move == Undo
  {
    if Live(ctx) then Dispatch(Undo) else Reject
  }

  /** `handleRedoClick`: no legality predicate, only the live-battle gate. */
  function HandleRedoClick(ctx: Ctx): (r: Outcome)
    ensures r.Dispatch? <==> Live(ctx)
    ensures r.Dispatch? ==> r.move == Redo
  {
    if Live(ctx) then Dispatch(Redo) else Reject
  }

  /** The handler wired to each control; reset calls `handleReset` with no gate. */
  function HandleClick<G>(b: Board<G>, L: Legality<G>, c: Click): (r: Outcome)
    ensures c == ResetClick ==> r == Dispatch(Reset)
    ensures c != ResetClick && r.Dispatch? ==> Live(b.ctx) && r.move != Reset
  {
    match c
    case CharacterClick(ind, player) => HandleCharacterClick(b, L, ind, player)
    case AttackClick => HandleAttackClick(b, L)
    case UltimateClick => HandleUltimateClick(b, L)
    case GuardClick => HandleGuardClick(b, L)
    case UndoClick => HandleUndoClick(b.ctx)
    case RedoClick => HandleRedoClick(b.ctx)
    case ResetClick => Dispatch(Reset)
  }

  /** The move a control asks for, whether or not it is allowed. */
  function IntendedMove<G>(b: Board<G>, c: Click): Move {
    match c
    case CharacterClick(ind, player) =>
      if player == b.ctx.currentPlayer then SwitchMember(ind) else SwitchTarget(ind)
    case AttackClick => AttackMove(Selected(b), Target(b))
    case UltimateClick => UltimateMove(Selected(b), Target(b))
    case GuardClick => GuardMove(Selected(b))
    case UndoClick => Undo
    case RedoClick => Redo
    case ResetClick => Reset
  }

  /**
   * When the board lets a move through, stated per move and independently of
   * the clicks: every move but reset needs a live battle, and each game move
   * needs its legality predicate on the current player's own indices.
   */
  predicate Permitted<G>(b: Board<G>, L: Legality<G>, m: Move) {
    match m
    case SwitchMember(i) => Live(b.ctx) && L.canSelect(b, Some(i))
    case SwitchTarget(i) => Live(b.ctx) && L.canTarget(b, Some(i))
    case AttackMove(s, t) => Live(b.ctx) && s == Selected(b) && t == Target(b) && L.canAttack(b, s, t)
    case UltimateMove(s, t) => Live(b.ctx) && s == Selected(b) && t == Target(b) && L.canUltimate(b, s, t)
    case GuardMove(s) => Live(b.ctx) && s == Selected(b) && L.canSelect(b, s)
    case Undo => Live(b.ctx)
    case Redo => Live(b.ctx)
    case Reset => true
  }

  /**
   * Every click dispatches exactly the move it asks for when that move is
   * permitted, and opens the notice otherwise.
   */
  lemma HandleClickDecisionTable<G>(b: Board<G>, L: Legality<G>, c: Click)
    ensures HandleClick(b, L, c) ==
      (if Permitted(b, L, IntendedMove(b, c)) then Dispatch(IntendedMove(b, c)) else Reject)
  {
  }

  /** A dispatched move is always permitted (soundness of the gate). */
  lemma DispatchedMovesArePermitted<G>(b: Board<G>, L: Legality<G>, c: Click)
    ensures HandleClick(b, L, c).Dispatch? ==> Permitted(b, L, HandleClick(b, L, c).move)
  {
  }

  /** Before the first turn or after the game ends, only reset gets through. */
  lemma NoMoveUnlessLive<G>(b: Board<G>, L: Legality<G>, c: Click)
    requires !Live(b.ctx) && c != ResetClick
    ensures HandleClick(b, L, c) == Reject
  {
  }

  /** `Math.floor((ctx.turn + 1) / 2)`: the round shown in the header. */
  function Round(turn: nat): (r: nat)
    ensures 2 * r <= turn + 1 < 2 * r + 2
  {
    (turn + 1) / 2
  }

  /** Turn 0 shows round 0; turns 2k-1 and 2k both show round k. */
  lemma RoundOfTurns(k: nat)
    ensures Round(0) == 0
    ensures k >= 1 ==> Round(2 * k - 1) == k && Round(2 * k) == k
  {
  }

  /** The shown round never decreases as the turn counter grows. */
  lemma RoundMonotone(t: nat, u: nat)
    requires t <= u
    ensures Round(t) <= Round(u)
  {
  }

  /** `$isBattleOver`: the result overlay covers the board. */
  predicate ShowOverlay(ctx: Ctx) {
    ctx.turn > 0 && ctx.gameover.Some?
  }

  /** The overlay's text. */
  datatype Verdict = Win | Lose

  /** `ctx.gameover?.winner === "0" ? "win" : "lose"`. */
  function OverlayVerdict(ctx: Ctx): (v: Verdict)
    ensures v == Win <==> ctx.gameover.Some? && ctx.gameover.value.winner == Some("0")
  {
    match ctx.gameover
    case Some(GameOver(Some(w))) => if w == "0" then Win else Lose
    case _ => Lose
  }

  /** The "calculating" spinner: the bot is to move and the game is not over. */
  predicate ShowSpinner(ctx: Ctx) {
    ctx.currentPlayer == "1" && ctx.gameover.None?
  }

  /**
   * The overlay and the spinner are never shown together, and while the
   * overlay is up no click other than reset dispatches anything.
   */
  lemma OverlayExcludesSpinnerAndMoves<G>(b: Board<G>, L: Legality<G>, c: Click)
    requires ShowOverlay(b.ctx)
    ensures !ShowSpinner(b.ctx)
    ensures c != ResetClick ==> HandleClick(b, L, c) == Reject
  {
  }
}
