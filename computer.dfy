/** The computer: an id and a room, and the four components it owns. It prints a summary
    of itself and runs one fixed work cycle over its components. */
module Computers {
  import opened JavaInt
  import opened Output
  import opened SystemUnits
  import opened Monitors
  import opened Keyboards
  import opened Mice
  import opened Calls

  /** The program text typed on the keyboard during the work cycle. */
  const ProgramText: string :=
    "public class Main { public static void main(String[] args) { System.out.println(\"Hello World!\"); } }"

  /** The result shown on the monitor during the work cycle. */
  const ResultText: string := "Hello World!"

  /** The work cycle's calls on the components, in order, in the five phases the source
      groups them in: switching on, working with the input devices, processing the data,
      showing the result, switching off. The text passed to process is the keyboard's
      echo of ProgramText, which is ProgramText itself. */
  const SwitchOnCalls: seq<Call> := [PowerOn, TurnOn]
  const InputCalls: seq<Call> := [Input(ProgramText), Click, Move(100, 200)]
  const ProcessCalls: seq<Call> := [Process(ProgramText)]
  const DisplayCalls: seq<Call> := [Display(ResultText)]
  const SwitchOffCalls: seq<Call> := [PowerOff, TurnOff]
  const WorkCycleCalls: seq<Call> :=
    SwitchOnCalls + InputCalls + ProcessCalls + DisplayCalls + SwitchOffCalls

  lemma SwitchOnPhase(d: Devices)
    ensures Run(d, SwitchOnCalls) ==
      Step(d.(unit := d.unit.(on := true), monitor := d.monitor.(on := true)),
           [SUOn(d.unit.model), MonOn(d.monitor.model)])
  {
    var d1 := Apply(d, PowerOn).next;
    RunCons(d1, TurnOn, []);
    assert [TurnOn] + [] == [TurnOn];
    RunCons(d, PowerOn, [TurnOn]);
    assert [PowerOn] + [TurnOn] == SwitchOnCalls;
  }

  lemma InputPhase(d: Devices)
    ensures Run(d, InputCalls) ==
      Step(d.(mouse := d.mouse.(x := 100, y := 200)),
           [KbInput(d.keyboard.model, d.keyboard.kind, ProgramText),
            MouseClick(d.mouse.model, d.mouse.kind, d.mouse.x, d.mouse.y),
            MouseMove(d.mouse.model, 100, 200)])
  {
    RunCons(d, Move(100, 200), []);
    assert [Move(100, 200)] + [] == [Move(100, 200)];
    RunCons(d, Click, [Move(100, 200)]);
    RunCons(d, Input(ProgramText), [Click, Move(100, 200)]);
    assert [Input(ProgramText)] + ([Click] + [Move(100, 200)]) == InputCalls;
  }

  /** The unit's guard passes, because it is on: it reports processing and half its
      rated power, and stays as it was. */
  lemma ProcessPhase(d: Devices)
    requires d.unit.on
    ensures Run(d, ProcessCalls) ==
      Step(d, [SUProcessing(d.unit.model), SUDraw(Half(d.unit.power))])
  {
    RunCons(d, Process(ProgramText), []);
    assert [Process(ProgramText)] + [] == ProcessCalls;
  }

  /** The monitor's guard passes, because it is on: it shows "Hello World!", and stays
      as it was. */
  lemma DisplayPhase(d: Devices)
    requires d.monitor.on
    ensures Run(d, DisplayCalls) ==
      Step(d, [MonShow(d.monitor.model, d.monitor.size, ResultText)])
  {
    RunCons(d, Display(ResultText), []);
    assert [Display(ResultText)] + [] == DisplayCalls;
  }

  lemma SwitchOffPhase(d: Devices)
    ensures Run(d, SwitchOffCalls) ==
      Step(d.(unit := d.unit.(on := false), monitor := d.monitor.(on := false)),
           [SUOff(d.unit.model), MonOff(d.monitor.model)])
  {
    var d1 := Apply(d, PowerOff).next;
    RunCons(d1, TurnOff, []);
    assert [TurnOff] + [] == [TurnOff];
    RunCons(d, PowerOff, [TurnOff]);
    assert [PowerOff] + [TurnOff] == SwitchOffCalls;
  }

  /** The whole outcome of the work cycle, from any starting state: both devices end off,
      the mouse ends at (100, 200), and the events are, in order, unit on, monitor on,
      the keyboard's echo of the program, a click where the mouse was, the move, the
      unit processing and drawing half its power, the monitor showing "Hello World!",
      unit off, monitor off. Neither guard fails, since both devices were switched on
      first, whatever their state before. */
  lemma WorkCycleOutcome(d: Devices)
    ensures Run(d, WorkCycleCalls).next ==
      d.(unit := d.unit.(on := false), monitor := d.monitor.(on := false),
         mouse := d.mouse.(x := 100, y := 200))
    ensures Run(d, WorkCycleCalls).out == [
      SUOn(d.unit.model), MonOn(d.monitor.model),
      KbInput(d.keyboard.model, d.keyboard.kind, ProgramText),
      MouseClick(d.mouse.model, d.mouse.kind, d.mouse.x, d.mouse.y),
      MouseMove(d.mouse.model, 100, 200),
      SUProcessing(d.unit.model), SUDraw(Half(d.unit.power)),
      MonShow(d.monitor.model, d.monitor.size, ResultText),
      SUOff(d.unit.model), MonOff(d.monitor.model)]
    ensures SUError !in Run(d, WorkCycleCalls).out && MonError !in Run(d, WorkCycleCalls).out
  {
    var a, b, c, e := SwitchOnCalls, InputCalls, ProcessCalls, DisplayCalls;
    var u, m, k, p := d.unit, d.monitor, d.keyboard, d.mouse;
    var on := d.(unit := u.(on := true), monitor := m.(on := true));
    var moved := on.(mouse := p.(x := 100, y := 200));
    var e0, e1, e2 := SUOn(u.model), MonOn(m.model), KbInput(k.model, k.kind, ProgramText);
    var e3, e4 := MouseClick(p.model, p.kind, p.x, p.y), MouseMove(p.model, 100, 200);
    var e5, e6 := SUProcessing(u.model), SUDraw(Half(u.power));
    var e7, e8, e9 := MonShow(m.model, m.size, ResultText), SUOff(u.model), MonOff(m.model);
    assert Run(d, a + b) == Step(moved, [e0, e1, e2, e3, e4]) by {
      SwitchOnPhase(d);
      InputPhase(on);
      RunAppend(d, a, b);
      assert [e0, e1] + [e2, e3, e4] == [e0, e1, e2, e3, e4];
    }
    assert Run(d, a + b + c) == Step(moved, [e0, e1, e2, e3, e4, e5, e6]) by {
      ProcessPhase(moved);
      RunAppend(d, a + b, c);
      assert [e0, e1, e2, e3, e4] + [e5, e6] == [e0, e1, e2, e3, e4, e5, e6];
    }
    assert Run(d, a + b + c + e) == Step(moved, [e0, e1, e2, e3, e4, e5, e6, e7]) by {
      DisplayPhase(moved);
      RunAppend(d, a + b + c, e);
      assert [e0, e1, e2, e3, e4, e5, e6] + [e7] == [e0, e1, e2, e3, e4, e5, e6, e7];
    }
    assert Run(d, WorkCycleCalls) ==
      Step(moved.(unit := u.(on := false), monitor := m.(on := false)),
           [e0, e1, e2, e3, e4, e5, e6, e7, e8, e9]) by {
      SwitchOffPhase(moved);
      RunAppend(d, a + b + c + e, SwitchOffCalls);
      assert [e0, e1, e2, e3, e4, e5, e6, e7] + [e8, e9] == [e0, e1, e2, e3, e4, e5, e6, e7, e8, e9];
    }
  }

  /** From freshly built components (both devices off, the mouse at (0, 0)) the click of
      the work cycle reports (0, 0), and a draw is reported and a message shown even
      though both devices started off. */
  lemma FreshWorkCycle(d: Devices)
    requires !d.unit.on && !d.monitor.on && d.mouse.x == 0 && d.mouse.y == 0
    ensures |Run(d, WorkCycleCalls).out| == 10
    ensures Run(d, WorkCycleCalls).out[3] == MouseClick(d.mouse.model, d.mouse.kind, 0, 0)
    ensures HasDraw(Run(d, WorkCycleCalls).out) && HasShow(Run(d, WorkCycleCalls).out)
  {
    WorkCycleOutcome(d);
    var out := Run(d, WorkCycleCalls).out;
    assert out[6].SUDraw? && out[7].MonShow?;
  }

  class Computer {
    const id: int32
    const room: string
    const systemUnit: SystemUnit
    const monitor: Monitor
    const keyboard: Keyboard
    const mouse: Mouse

    /** The state of the four components, as values. */
    function Components(): Devices
      reads systemUnit, monitor, mouse
    {
      Devices(systemUnit.State(), monitor.State(), keyboard.State(), mouse.State())
    }

    /** The computer takes over the four components as they are. */
    constructor (id: int32, room: string, systemUnit: SystemUnit, monitor: Monitor,
                 keyboard: Keyboard, mouse: Mouse)
      ensures this.id == id && this.room == room
      ensures this.systemUnit == systemUnit && this.monitor == monitor
      ensures this.keyboard == keyboard && this.mouse == mouse
    {
      this.id := id;
      this.room := room;
      this.systemUnit := systemUnit;
      this.monitor := monitor;
      this.keyboard := keyboard;
      this.mouse := mouse;
    }

    /** Prints the id, the room and the four model names in a fixed order, and changes
        no component. */
    method DisplayComputerInfo(out: Stdout)
      modifies out
      ensures Components() == old(Components())
      ensures out.events == old(out.events) + [
        InfoHeader, InfoId(id), InfoRoom(room),
        InfoSystemUnit(systemUnit.model), InfoMonitor(monitor.model),
        InfoKeyboard(keyboard.model), InfoMouse(mouse.model)]
    {
      out.Emit([InfoHeader]);
      out.Emit([InfoId(id)]);
      out.Emit([InfoRoom(room)]);
      out.Emit([InfoSystemUnit(systemUnit.model)]);
      out.Emit([InfoMonitor(monitor.model)]);
      out.Emit([InfoKeyboard(keyboard.model)]);
      out.Emit([InfoMouse(mouse.model)]);
    }

    /** The fixed work cycle: a header line, then exactly the calls of WorkCycleCalls. */
    method PerformWorkCycle(out: Stdout)
      modifies systemUnit, monitor, mouse, out
      ensures Components() == Run(old(Components()), WorkCycleCalls).next
      ensures out.events == old(out.events) + [CycleStart] + Run(old(Components()), WorkCycleCalls).out
      ensures !systemUnit.poweredOn && !monitor.turnedOn && mouse.x == 100 && mouse.y == 200
    {
      ghost var d := Components();
      WorkCycleOutcome(d);
      out.Emit([CycleStart]);

      systemUnit.PowerOn(out);
      monitor.TurnOn(out);

      var program := keyboard.Input(ProgramText, out);
      mouse.Click(out);
      mouse.Move(100, 200, out);

      systemUnit.Process(program, out);

      monitor.Display(ResultText, out);

      systemUnit.PowerOff(out);
      monitor.TurnOff(out);
    }
  }

  /** The demonstration run: builds the components with fixed parameters, prints the
      computer's summary, runs the work cycle, and returns what was printed. A 500 W
      unit reports a draw of 250 W. The Russian type and room names are given in English. */
  method Demo() returns (out: Stdout)
    ensures out.events == [
      InfoHeader, InfoId(101), InfoRoom("Room 305"),
      InfoSystemUnit("Dell PowerEdge"), InfoMonitor("LG UltraHD"),
      InfoKeyboard("Logitech K120"), InfoMouse("Logitech M90"),
      CycleStart,
      SUOn("Dell PowerEdge"), MonOn("LG UltraHD"),
      KbInput("Logitech K120", "membrane", ProgramText),
      MouseClick("Logitech M90", "optical", 0, 0),
      MouseMove("Logitech M90", 100, 200),
      SUProcessing("Dell PowerEdge"), SUDraw(250),
      MonShow("LG UltraHD", 24.0, ResultText),
      SUOff("Dell PowerEdge"), MonOff("LG UltraHD")]
  {
    var systemUnit := new SystemUnit("Dell PowerEdge", 500);
    var monitor := new Monitor("LG UltraHD", 24.0);
    var keyboard := new Keyboard("Logitech K120", "membrane");
    var mouse := new Mouse("Logitech M90", "optical");

    var computer := new Computer(101, "Room 305", systemUnit, monitor, keyboard, mouse);

    out := new Stdout();
    computer.DisplayComputerInfo(out);
    ghost var d := computer.Components();
    WorkCycleOutcome(d);
    assert Half(500) == 250;
    computer.PerformWorkCycle(out);
  }
}
