/** The keyboard: a model name and a mechanism type, and no mutable state. */
module Keyboards {
  import opened Output

  /** The keyboard as a value. */
  datatype KeyboardState = KeyboardState(model: string, kind: string)

  /** input: always succeeds, changes nothing, and prints the keyboard and the text. */
  function InputStep(s: KeyboardState, text: string): (r: Step<KeyboardState>)
    ensures r.next == s
    ensures r.out == [KbInput(s.model, s.kind, text)]
  {
    Step(s, [KbInput(s.model, s.kind, text)])
  }

  class Keyboard {
    const model: string
    const kind: string

    function State(): KeyboardState
    {
      KeyboardState(model, kind)
    }

    constructor (model: string, kind: string)
      ensures State() == KeyboardState(model, kind)
    {
      this.model := model;
      this.kind := kind;
    }

    /** Echoes `text` unchanged, whatever it is (the empty text included). */
    method Input(text: string, out: Stdout) returns (echoed: string)
      modifies out
      ensures echoed == text
      ensures out.events == old(out.events) + InputStep(State(), text).out
    {
      out.Emit([KbInput(model, kind, text)]);
      echoed := text;
    }
  }
}
