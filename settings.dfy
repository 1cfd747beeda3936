/** The game's fixed settings (the `GAME_SETTINGS` and `playerIndex` objects)
    and the court bounds every moving actor is clamped against. */
module Settings {

  const WallSize: real := 20.0
  const CourtMarginY: real := 5.0
  const BallRadius: real := 8.0
  const WinScore: nat := 7
  const PaddleWidth: real := 12.0
  const PaddleHeight: real := 48.0

  /** Player slots, numbered as `playerIndex` numbers them; 0 means "nobody". */
  const PlayerOne: int := 1
  const PlayerTwo: int := 2

  /** The playable area: `upper` and `lower` are the inner faces of the two walls. */
  datatype Bounds = Bounds(upper: real, lower: real, left: real, right: real)
}
