/** The mouse: a model name and a device type that never change, and a cursor position. */
module Mice {
  import opened JavaInt
  import opened Output

  /** The mouse as a value. */
  datatype MouseState = MouseState(model: string, kind: string, x: int32, y: int32)

  /** click: changes nothing and reports the current position. */
  function ClickStep(s: MouseState): (r: Step<MouseState>)
    ensures r.next == s
    ensures r.out == [MouseClick(s.model, s.kind, s.x, s.y)]
  {
    Step(s, [MouseClick(s.model, s.kind, s.x, s.y)])
  }

  /** move: overwrites the position with any given coordinates (there is no bounds check),
      keeps the model and type, and reports the new position. */
  function MoveStep(s: MouseState, newX: int32, newY: int32): (r: Step<MouseState>)
    ensures r.next.x == newX && r.next.y == newY
    ensures r.next.model == s.model && r.next.kind == s.kind
    ensures r.out == [MouseMove(s.model, newX, newY)]
  {
    Step(s.(x := newX, y := newY), [MouseMove(s.model, newX, newY)])
  }

  /** A click right after a move reports exactly the position the move set. */
  lemma ClickAfterMove(s: MouseState, newX: int32, newY: int32)
    ensures ClickStep(MoveStep(s, newX, newY).next).out == [MouseClick(s.model, s.kind, newX, newY)]
  {
  }

  class Mouse {
    const model: string
    const kind: string
    var x: int32
    var y: int32

    function State(): MouseState
      reads this
    {
      MouseState(model, kind, x, y)
    }

    /** A new mouse sits at (0, 0). */
    constructor (model: string, kind: string)
      ensures State() == MouseState(model, kind, 0, 0)
    {
      this.model := model;
      this.kind := kind;
      this.x := 0;
      this.y := 0;
    }

    /** Only the console changes: the mouse itself is not in the frame. */
    method Click(out: Stdout)
      modifies out
      ensures State() == ClickStep(old(State())).next
      ensures out.events == old(out.events) + ClickStep(old(State())).out
    {
      out.Emit([MouseClick(model, kind, x, y)]);
    }

    method Move(newX: int32, newY: int32, out: Stdout)
      modifies this, out
      ensures x == newX && y == newY
      ensures State() == MoveStep(old(State()), newX, newY).next
      ensures out.events == old(out.events) + MoveStep(old(State()), newX, newY).out
    {
      x := newX;
      y := newY;
      out.Emit([MouseMove(model, x, y)]);
    }
  }
}
