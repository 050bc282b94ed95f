/** The system unit: a model name and a rated power that never change, and a power flag. */
module SystemUnits {
  import opened JavaInt
  import opened Output

  /** The system unit as a value. */
  datatype UnitState = UnitState(model: string, power: int32, on: bool)

  /** powerOn: the flag becomes true, nothing else changes, the unit reports it is on. */
  function PowerOnStep(s: UnitState): (r: Step<UnitState>)
    ensures r.next.on
    ensures r.next.model == s.model && r.next.power == s.power
    ensures r.out == [SUOn(s.model)]
  {
    Step(s.(on := true), [SUOn(s.model)])
  }

  /** powerOff: the flag becomes false, nothing else changes, the unit reports it is off. */
  function PowerOffStep(s: UnitState): (r: Step<UnitState>)
    ensures !r.next.on
    ensures r.next.model == s.model && r.next.power == s.power
    ensures r.out == [SUOff(s.model)]
  {
    Step(s.(on := false), [SUOff(s.model)])
  }

  /** process: guarded by the power flag. A unit that is off prints one error line and
      does nothing else; a unit that is on reports that it is processing and then a draw
      of half its rated power. The program text itself is never printed. */
  function ProcessStep(s: UnitState, program: string): (r: Step<UnitState>)
    ensures r.next == s
    ensures HasDraw(r.out) <==> s.on
    ensures SUError in r.out <==> !s.on
    ensures !s.on ==> |r.out| == 1
    ensures s.on ==> r.out == [SUProcessing(s.model), SUDraw(Half(s.power))]
  {
    if !s.on then
      Step(s, [SUError])
    else
      var out := [SUProcessing(s.model), SUDraw(Half(s.power))];
      assert out[1].SUDraw?;
      Step(s, out)
  }

  /** Switching the unit on, or off, twice leaves it as switching it once does. */
  lemma SwitchesIdempotent(s: UnitState)
    ensures PowerOnStep(PowerOnStep(s).next).next == PowerOnStep(s).next
    ensures PowerOffStep(PowerOffStep(s).next).next == PowerOffStep(s).next
  {
  }

  class SystemUnit {
    const model: string
    const power: int32
    var poweredOn: bool

    function State(): UnitState
      reads this
    {
      UnitState(model, power, poweredOn)
    }

    /** A new system unit is off. */
    constructor (model: string, power: int32)
      ensures State() == UnitState(model, power, false)
    {
      this.model := model;
      this.power := power;
      this.poweredOn := false;
    }

    method PowerOn(out: Stdout)
      modifies this, out
      ensures poweredOn
      ensures State() == PowerOnStep(old(State())).next
      ensures out.events == old(out.events) + PowerOnStep(old(State())).out
    {
      poweredOn := true;
      out.Emit([SUOn(model)]);
    }

    method PowerOff(out: Stdout)
      modifies this, out
      ensures !poweredOn
      ensures State() == PowerOffStep(old(State())).next
      ensures out.events == old(out.events) + PowerOffStep(old(State())).out
    {
      poweredOn := false;
      out.Emit([SUOff(model)]);
    }

    /** Only the console changes: the unit itself is not in the frame. */
    method Process(program: string, out: Stdout)
      modifies out
      ensures State() == ProcessStep(old(State()), program).next
      ensures out.events == old(out.events) + ProcessStep(old(State()), program).out
    {
      if !poweredOn {
        out.Emit([SUError]);
        return;
      }
      out.Emit([SUProcessing(model)]);
      out.Emit([SUDraw(Half(power))]);
    }
  }
}
