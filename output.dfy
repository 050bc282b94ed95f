/** The console: every operation of the system reports what it does by writing lines to
    standard output. Here each line (or group of lines) is an abstract event, and the
    console is an object that records them in order. */
module Output {
  import opened JavaInt

  datatype Event =
    // SystemUnit
    | SUOn(model: string)
    | SUOff(model: string)
    | SUError
    | SUProcessing(model: string)
    | SUDraw(watts: int32)
    // Monitor
    | MonOn(model: string)
    | MonOff(model: string)
    | MonError
    | MonShow(model: string, size: real, message: string)
    // Keyboard: the header line naming the keyboard, then the text itself
    | KbInput(model: string, kind: string, text: string)
    // Mouse
    | MouseClick(model: string, kind: string, x: int32, y: int32)
    | MouseMove(model: string, x: int32, y: int32)
    // Computer
    | InfoHeader
    | InfoId(id: int32)
    | InfoRoom(room: string)
    | InfoSystemUnit(model: string)
    | InfoMonitor(model: string)
    | InfoKeyboard(model: string)
    | InfoMouse(model: string)
    | CycleStart

  /** One operation of a component, seen as a value: the component's state afterwards
      and the events it printed. */
  datatype Step<S> = Step(next: S, out: seq<Event>)

  /** Performs the operations `cs` one after another with `step`: each starts from the
      state the one before left, and their lines are printed in the same order. */
  function RunWith<S, C>(step: (S, C) -> Step<S>, s: S, cs: seq<C>): Step<S>
    decreases |cs|
  {
    if cs == [] then Step(s, [])
    else
      var first := step(s, cs[0]);
      var rest := RunWith(step, first.next, cs[1..]);
      Step(rest.next, first.out + rest.out)
  }

  /** Performing `a` and then `b` is performing `a + b`. */
  lemma {:induction false} RunWithAppend<S, C>(step: (S, C) -> Step<S>, s: S, a: seq<C>, b: seq<C>)
    ensures RunWith(step, s, a + b).next == RunWith(step, RunWith(step, s, a).next, b).next
    ensures RunWith(step, s, a + b).out ==
      RunWith(step, s, a).out + RunWith(step, RunWith(step, s, a).next, b).out
    decreases |a|
  {
    if a == [] {
      assert a + b == b;
    } else {
      assert (a + b)[0] == a[0];
      assert (a + b)[1..] == a[1..] + b;
      RunWithAppend(step, step(s, a[0]).next, a[1..], b);
    }
  }

  /** Some event of `out` reports the system unit's power draw. */
  predicate HasDraw(out: seq<Event>) {
    exists i :: 0 <= i < |out| && out[i].SUDraw?
  }

  /** Some event of `out` is a monitor showing a message. */
  predicate HasShow(out: seq<Event>) {
    exists i :: 0 <= i < |out| && out[i].MonShow?
  }

  lemma HasDrawAppend(a: seq<Event>, b: seq<Event>)
    ensures HasDraw(a + b) <==> HasDraw(a) || HasDraw(b)
  {
    if HasDraw(a + b) {
      var i :| 0 <= i < |a + b| && (a + b)[i].SUDraw?;
      if i >= |a| { assert b[i - |a|].SUDraw?; }
    }
    if HasDraw(a) {
      var i :| 0 <= i < |a| && a[i].SUDraw?;
      assert (a + b)[i].SUDraw?;
    }
    if HasDraw(b) {
      var i :| 0 <= i < |b| && b[i].SUDraw?;
      assert (a + b)[|a| + i].SUDraw?;
    }
  }

  lemma HasShowAppend(a: seq<Event>, b: seq<Event>)
    ensures HasShow(a + b) <==> HasShow(a) || HasShow(b)
  {
    if HasShow(a + b) {
      var i :| 0 <= i < |a + b| && (a + b)[i].MonShow?;
      if i >= |a| { assert b[i - |a|].MonShow?; }
    }
    if HasShow(a) {
      var i :| 0 <= i < |a| && a[i].MonShow?;
      assert (a + b)[i].MonShow?;
    }
    if HasShow(b) {
      var i :| 0 <= i < |b| && b[i].MonShow?;
      assert (a + b)[|a| + i].MonShow?;
    }
  }

  /** Standard output: the events printed so far, oldest first. */
  class Stdout {
    var events: seq<Event>

    constructor ()
      ensures events == []
    {
      events := [];
    }

    /** Prints `lines` after everything printed so far. */
    method Emit(lines: seq<Event>)
      modifies this
      ensures events == old(events) + lines
    {
      events := events + lines;
    }
  }
}
