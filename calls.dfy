/** What a client can do with the four components: any sequence of their operations.
    Each operation acts on one component and prints its events; a sequence of them acts
    from left to right and prints their events in order. The invariants of the data
    model (the guard on process and display, the position changing only by move, the
    identity fields never changing) are statements about every such sequence. */
module Calls {
  import opened JavaInt
  import opened Output
  import opened SystemUnits
  import opened Monitors
  import opened Keyboards
  import opened Mice

  /** The four components of a computer, as values. */
  datatype Devices = Devices(unit: UnitState, monitor: MonitorState, keyboard: KeyboardState, mouse: MouseState)

  /** One public operation of one component. */
  datatype Call =
    | PowerOn | PowerOff | Process(program: string)
    | TurnOn | TurnOff | Display(message: string)
    | Input(text: string)
    | Click | Move(x: int32, y: int32)

  /** The fields fixed at construction are the same in `a` and `b`. */
  predicate SameIdentity(a: Devices, b: Devices) {
    a.unit.model == b.unit.model && a.unit.power == b.unit.power &&
    a.monitor.model == b.monitor.model && a.monitor.size == b.monitor.size &&
    a.keyboard == b.keyboard &&
    a.mouse.model == b.mouse.model && a.mouse.kind == b.mouse.kind
  }

  /** Performs `c` on the component it belongs to; the other three are untouched. */
  function Apply(d: Devices, c: Call): Step<Devices> {
    match c
    case PowerOn => var s := PowerOnStep(d.unit); Step(d.(unit := s.next), s.out)
    case PowerOff => var s := PowerOffStep(d.unit); Step(d.(unit := s.next), s.out)
    case Process(p) => var s := ProcessStep(d.unit, p); Step(d.(unit := s.next), s.out)
    case TurnOn => var s := TurnOnStep(d.monitor); Step(d.(monitor := s.next), s.out)
    case TurnOff => var s := TurnOffStep(d.monitor); Step(d.(monitor := s.next), s.out)
    case Display(m) => var s := DisplayStep(d.monitor, m); Step(d.(monitor := s.next), s.out)
    case Input(t) => var s := InputStep(d.keyboard, t); Step(d.(keyboard := s.next), s.out)
    case Click => var s := ClickStep(d.mouse); Step(d.(mouse := s.next), s.out)
    case Move(x, y) => var s := MoveStep(d.mouse, x, y); Step(d.(mouse := s.next), s.out)
  }

  /** Performs `cs` in order. No sequence of operations changes a field fixed at
      construction. */
  function Run(d: Devices, cs: seq<Call>): (r: Step<Devices>)
    ensures SameIdentity(d, r.next)
  {
    RunKeepsIdentity(d, cs);
    RunWith(Apply, d, cs)
  }

  lemma {:induction false} RunKeepsIdentity(d: Devices, cs: seq<Call>)
    ensures SameIdentity(d, RunWith(Apply, d, cs).next)
    decreases |cs|
  {
    if cs != [] {
      RunKeepsIdentity(Apply(d, cs[0]).next, cs[1..]);
    }
  }

  /** Running `a` then `b` is running `a + b`. */
  lemma RunAppend(d: Devices, a: seq<Call>, b: seq<Call>)
    ensures Run(d, a + b).next == Run(Run(d, a).next, b).next
    ensures Run(d, a + b).out == Run(d, a).out + Run(Run(d, a).next, b).out
  {
    RunWithAppend(Apply, d, a, b);
  }

  /** Running `[c] + rest` is performing `c` and then running `rest`. */
  lemma RunCons(d: Devices, c: Call, rest: seq<Call>)
    ensures Run(d, [c] + rest) ==
      Step(Run(Apply(d, c).next, rest).next, Apply(d, c).out + Run(Apply(d, c).next, rest).out)
  {
    assert ([c] + rest)[0] == c;
    assert ([c] + rest)[1..] == rest;
  }

  /** The cursor position changes only by move: without a move, it stays where it was. */
  lemma {:induction false} PositionOnlyChangedByMove(d: Devices, cs: seq<Call>)
    requires forall i :: 0 <= i < |cs| ==> !cs[i].Move?
    ensures Run(d, cs).next.mouse == d.mouse
    decreases |cs|
  {
    if cs != [] {
      PositionOnlyChangedByMove(Apply(d, cs[0]).next, cs[1..]);
    }
  }

  /** After any sequence of operations, the cursor is where the last move put it. */
  lemma PositionIsLastMove(d: Devices, cs: seq<Call>, i: nat)
    requires i < |cs| && cs[i].Move?
    requires forall j :: i < j < |cs| ==> !cs[j].Move?
    ensures Run(d, cs).next.mouse.x == cs[i].x && Run(d, cs).next.mouse.y == cs[i].y
  {
    assert cs == cs[..i] + [cs[i]] + cs[i + 1..];
    var before := Run(d, cs[..i]).next;
    RunAppend(d, cs[..i] + [cs[i]], cs[i + 1..]);
    RunAppend(d, cs[..i], [cs[i]]);
    RunCons(before, cs[i], []);
    assert [cs[i]] + [] == [cs[i]];
    PositionOnlyChangedByMove(Run(before, [cs[i]]).next, cs[i + 1..]);
  }

  /** Whatever came before, a click right after a move reports the position moved to. */
  lemma ClickReportsLastMove(d: Devices, cs: seq<Call>, x: int32, y: int32)
    ensures var out := Run(d, cs + [Move(x, y), Click]).out;
      |out| >= 2 && out[|out| - 1] == MouseClick(d.mouse.model, d.mouse.kind, x, y)
  {
    var mid := Run(d, cs).next;
    RunAppend(d, cs, [Move(x, y), Click]);
    var moved := Apply(mid, Move(x, y));
    var clicked := Apply(moved.next, Click);
    assert Run(moved.next, [Click]).out == clicked.out by {
      assert [Click][1..] == [];
    }
    assert Run(mid, [Move(x, y), Click]).out == moved.out + clicked.out by {
      assert [Move(x, y), Click][1..] == [Click];
    }
    assert clicked.out == [MouseClick(d.mouse.model, d.mouse.kind, x, y)];
  }

  /** The flag of the system unit changes only by powerOn and powerOff. */
  lemma {:induction false} UnitFlagOnlyChangedBySwitches(d: Devices, cs: seq<Call>)
    requires forall i :: 0 <= i < |cs| ==> !cs[i].PowerOn? && !cs[i].PowerOff?
    ensures Run(d, cs).next.unit.on == d.unit.on
    decreases |cs|
  {
    if cs != [] {
      UnitFlagOnlyChangedBySwitches(Apply(d, cs[0]).next, cs[1..]);
    }
  }

  /** The flag of the monitor changes only by turnOn and turnOff. */
  lemma {:induction false} MonitorFlagOnlyChangedBySwitches(d: Devices, cs: seq<Call>)
    requires forall i :: 0 <= i < |cs| ==> !cs[i].TurnOn? && !cs[i].TurnOff?
    ensures Run(d, cs).next.monitor.on == d.monitor.on
    decreases |cs|
  {
    if cs != [] {
      MonitorFlagOnlyChangedBySwitches(Apply(d, cs[0]).next, cs[1..]);
    }
  }

  /** While the system unit stays off, no power draw is ever reported, however often
      process is called. */
  lemma {:induction false} NoDrawWhileUnitOff(d: Devices, cs: seq<Call>)
    requires !d.unit.on
    requires forall i :: 0 <= i < |cs| ==> !cs[i].PowerOn?
    ensures !HasDraw(Run(d, cs).out)
    decreases |cs|
  {
    if cs != [] {
      var first := Apply(d, cs[0]);
      assert !first.next.unit.on && !HasDraw(first.out);
      NoDrawWhileUnitOff(first.next, cs[1..]);
      HasDrawAppend(first.out, Run(first.next, cs[1..]).out);
    }
  }

  /** While the monitor stays off, no message is ever shown, however often display is
      called. */
  lemma {:induction false} NoShowWhileMonitorOff(d: Devices, cs: seq<Call>)
    requires !d.monitor.on
    requires forall i :: 0 <= i < |cs| ==> !cs[i].TurnOn?
    ensures !HasShow(Run(d, cs).out)
    decreases |cs|
  {
    if cs != [] {
      var first := Apply(d, cs[0]);
      assert !first.next.monitor.on && !HasShow(first.out);
      NoShowWhileMonitorOff(first.next, cs[1..]);
      HasShowAppend(first.out, Run(first.next, cs[1..]).out);
    }
  }
}
