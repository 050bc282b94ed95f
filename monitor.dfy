/** The monitor: a model name and a screen size that never change, and a power flag. */
module Monitors {
  import opened Output

  /** The monitor as a value. The size is Java's `double`; it is carried along and
      printed, never computed with. */
  datatype MonitorState = MonitorState(model: string, size: real, on: bool)

  /** turnOn: the flag becomes true, nothing else changes, the monitor reports it is on. */
  function TurnOnStep(s: MonitorState): (r: Step<MonitorState>)
    ensures r.next.on
    ensures r.next.model == s.model && r.next.size == s.size
    ensures r.out == [MonOn(s.model)]
  {
    Step(s.(on := true), [MonOn(s.model)])
  }

  /** turnOff: the flag becomes false, nothing else changes, the monitor reports it is off. */
  function TurnOffStep(s: MonitorState): (r: Step<MonitorState>)
    ensures !r.next.on
    ensures r.next.model == s.model && r.next.size == s.size
    ensures r.out == [MonOff(s.model)]
  {
    Step(s.(on := false), [MonOff(s.model)])
  }

  /** display: guarded by the power flag. A monitor that is off prints one error line and
      never the message; one that is on prints its model, its size and the message. */
  function DisplayStep(s: MonitorState, message: string): (r: Step<MonitorState>)
    ensures r.next == s
    ensures HasShow(r.out) <==> s.on
    ensures MonError in r.out <==> !s.on
    ensures !s.on ==> |r.out| == 1
    ensures s.on ==> r.out == [MonShow(s.model, s.size, message)]
  {
    if !s.on then
      Step(s, [MonError])
    else
      var out := [MonShow(s.model, s.size, message)];
      assert out[0].MonShow?;
      Step(s, out)
  }

  /** Switching the monitor on, or off, twice leaves it as switching it once does. */
  lemma SwitchesIdempotent(s: MonitorState)
    ensures TurnOnStep(TurnOnStep(s).next).next == TurnOnStep(s).next
    ensures TurnOffStep(TurnOffStep(s).next).next == TurnOffStep(s).next
  {
  }

  class Monitor {
    const model: string
    const size: real
    var turnedOn: bool

    function State(): MonitorState
      reads this
    {
      MonitorState(model, size, turnedOn)
    }

    /** A new monitor is off. */
    constructor (model: string, size: real)
      ensures State() == MonitorState(model, size, false)
    {
      this.model := model;
      this.size := size;
      this.turnedOn := false;
    }

    method TurnOn(out: Stdout)
      modifies this, out
      ensures turnedOn
      ensures State() == TurnOnStep(old(State())).next
      ensures out.events == old(out.events) + TurnOnStep(old(State())).out
    {
      turnedOn := true;
      out.Emit([MonOn(model)]);
    }

    method TurnOff(out: Stdout)
      modifies this, out
      ensures !turnedOn
      ensures State() == TurnOffStep(old(State())).next
      ensures out.events == old(out.events) + TurnOffStep(old(State())).out
    {
      turnedOn := false;
      out.Emit([MonOff(model)]);
    }

    /** Only the console changes: the monitor itself is not in the frame. */
    method Display(message: string, out: Stdout)
      modifies out
      ensures State() == DisplayStep(old(State()), message).next
      ensures out.events == old(out.events) + DisplayStep(old(State()), message).out
    {
      if !turnedOn {
        out.Emit([MonError]);
        return;
      }
      out.Emit([MonShow(model, size, message)]);
    }
  }
}
