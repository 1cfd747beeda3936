/** The top-level game object: the start button and the two start guards. */
module Game {
  import opened Geometry
  import opened Tables

  /** The start button's box, centred on the canvas. */
  function StartButtonRect(canvasWidth: real, canvasHeight: real): (r: Rectangle)
    ensures HasArea(r)
    ensures Contain(r, canvasWidth / 2.0, canvasHeight / 2.0)
  {
    Rectangle(canvasWidth / 2.0 - 60.0, canvasHeight / 2.0 - 20.0, 120.0, 40.0)
  }

  /** The keys the keydown listener treats as "start". */
  predicate IsStartKey(key: string)
  {
    key == " " || key == "Space"
  }

  class PingPongGame {
    const table: Table
    const startButtonRect: Rectangle

    constructor (canvasWidth: real, canvasHeight: real)
      ensures fresh(table) && table.Valid() && !table.isMatchRunning
      ensures table.canvasWidth == canvasWidth && table.canvasHeight == canvasHeight
      ensures startButtonRect == StartButtonRect(canvasWidth, canvasHeight)
    {
      table := new Table(canvasWidth, canvasHeight);
      startButtonRect := StartButtonRect(canvasWidth, canvasHeight);
    }

    /** The click guard: a click strictly inside the start button starts a match,
        but only when none is running; anything else changes nothing. */
    method Click(mouseX: real, mouseY: real, drawX: real, drawY: real)
      requires table.Valid()
      modifies table`isMatchRunning, table.ball, table.scoreBoard, table.leftPaddle, table.rightPaddle
      ensures table.Valid()
      ensures old(Contain(startButtonRect, mouseX, mouseY) && !table.isMatchRunning) ==>
                table.JustStarted(drawX, drawY)
      ensures !old(Contain(startButtonRect, mouseX, mouseY) && !table.isMatchRunning) ==>
                unchanged(table, table.ball, table.scoreBoard, table.leftPaddle, table.rightPaddle)
    {
      if Contain(startButtonRect, mouseX, mouseY) && !table.isMatchRunning {
        table.StartMatch(drawX, drawY);
      }
    }

    /** The keydown guard: a start key starts a match, but only when none is
        running; anything else changes nothing. */
    method KeyDown(key: string, drawX: real, drawY: real)
      requires table.Valid()
      modifies table`isMatchRunning, table.ball, table.scoreBoard, table.leftPaddle, table.rightPaddle
      ensures table.Valid()
      ensures old(IsStartKey(key) && !table.isMatchRunning) ==> table.JustStarted(drawX, drawY)
      ensures !old(IsStartKey(key) && !table.isMatchRunning) ==>
                unchanged(table, table.ball, table.scoreBoard, table.leftPaddle, table.rightPaddle)
    {
      if IsStartKey(key) && !table.isMatchRunning {
        table.StartMatch(drawX, drawY);
      }
    }
  }
}
