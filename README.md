# ComputerSystem in Dafny

A model of `src/ComputerSystem.java`, a small demonstration of object composition. A
`Computer` owns four components. `SystemUnit` and `Monitor` each have a power flag that
guards their main operation (`process`, `display`). `Keyboard` echoes text. `Mouse` holds
a cursor position. The computer prints a summary of itself and runs one fixed work cycle
over the components.

Layout, one module per file:

- `java_int.dfy` (`JavaInt`): Java's `int` as the newtype `int32`, and `Half`, Java's
  truncating `power / 2`.
- `output.dfy` (`Output`): the console. Every printed line, or group of lines, is an
  abstract `Event`. The `Stdout` class records the events in order. `Step<S>` pairs a
  component's next state with the events one operation prints.
- `system_unit.dfy`, `monitor.dfy`, `keyboard.dfy`, `mouse.dfy`: one class per Java
  class, with the same fields. Each class has a `State()` function giving its value and
  a pure step function per operation (`PowerOnStep`, `ProcessStep`, `DisplayStep`,
  `MoveStep`, ...). Each class method is proved to change its object and the console
  exactly as its step function says. The guarded operations (`Process`, `Display`) and
  `Click` do not have their own object in their `modifies` frame, so the verifier
  confirms they leave the device unchanged.
- `calls.dfy` (`Calls`): any sequence of component operations, with `Run` performing them
  in order (through `Output.RunWith`, which performs any step function over a sequence). It holds the invariants that range over every such sequence: identity fields
  never change, the cursor moves only by `move`, each flag changes only by its switches,
  and no draw or message appears while the device stays off.
- `computer.dfy` (`Computers`): the `Computer` class, the work cycle as a fixed call
  sequence in the source's five phases (switching on, input devices, processing,
  showing the result, switching off), its exact outcome, and `Demo`, which mirrors
  `main`.

The console is a parameter (`out: Stdout`) of every method, standing in for Java's global
`System.out`. The source never prints the `program` argument of `process`, so it appears
in no event. The code prints a header line at the start of `performWorkCycle`. That line
is modelled as the event `CycleStart`, ahead of the component events, because the code
has it.

## Model

| member | source | states |
|---|---|---|
| JavaInt.Half | src/ComputerSystem.java:121 | the reported draw is the rated power divided by 2, truncated toward zero, as Java's `int` division does; it stays within `int` range |
| SystemUnits.PowerOnStep | src/ComputerSystem.java:105-108 | the flag becomes true, model and power are kept, one "on" line naming the model is printed |
| SystemUnits.PowerOffStep | src/ComputerSystem.java:110-113 | the flag becomes false, model and power are kept, one "off" line naming the model is printed |
| SystemUnits.ProcessStep | src/ComputerSystem.java:115-122 | the unit never changes; a draw is reported if and only if the unit is on, an error if and only if it is off; when off the error is the only line; when on a processing line comes first, then a draw of exactly `Half(power)` |
| SystemUnits.SwitchesIdempotent | src/ComputerSystem.java:105-113 | switching on (or off) twice gives the same unit state as switching once |
| SystemUnits.SystemUnit.constructor | src/ComputerSystem.java:99-103 | a new unit has the given model and power and is off |
| SystemUnits.SystemUnit.PowerOn | src/ComputerSystem.java:105-108 | the flag is set and the console grows by exactly what `PowerOnStep` prints |
| SystemUnits.SystemUnit.PowerOff | src/ComputerSystem.java:110-113 | the flag is cleared and the console grows by exactly what `PowerOffStep` prints |
| SystemUnits.SystemUnit.Process | src/ComputerSystem.java:115-122 | only the console changes, by exactly what `ProcessStep` prints for the unit's current flag |
| Monitors.TurnOnStep | src/ComputerSystem.java:144-147 | the flag becomes true, model and size are kept, one "on" line naming the model is printed |
| Monitors.TurnOffStep | src/ComputerSystem.java:149-152 | the flag becomes false, model and size are kept, one "off" line naming the model is printed |
| Monitors.DisplayStep | src/ComputerSystem.java:154-160 | the monitor never changes; a message is shown if and only if it is on, an error if and only if it is off; when off the error is the only line; when on the one line holds model, size and the exact message |
| Monitors.SwitchesIdempotent | src/ComputerSystem.java:144-152 | turning on (or off) twice gives the same monitor state as turning it once |
| Monitors.Monitor.constructor | src/ComputerSystem.java:138-142 | a new monitor has the given model and size and is off |
| Monitors.Monitor.TurnOn | src/ComputerSystem.java:144-147 | the flag is set and the console grows by exactly what `TurnOnStep` prints |
| Monitors.Monitor.TurnOff | src/ComputerSystem.java:149-152 | the flag is cleared and the console grows by exactly what `TurnOffStep` prints |
| Monitors.Monitor.Display | src/ComputerSystem.java:154-160 | only the console changes, by exactly what `DisplayStep` prints for the monitor's current flag |
| Keyboards.InputStep | src/ComputerSystem.java:180-184 | input changes nothing and prints the keyboard's model, its type and the text |
| Keyboards.Keyboard.constructor | src/ComputerSystem.java:175-178 | a new keyboard has the given model and type |
| Keyboards.Keyboard.Input | src/ComputerSystem.java:180-184 | returns exactly its argument, for every text including the empty one, and prints what `InputStep` prints |
| Mice.ClickStep | src/ComputerSystem.java:207-209 | a click changes nothing and reports the current position |
| Mice.MoveStep | src/ComputerSystem.java:211-215 | a move sets the position to any given coordinates, with no bounds check, keeps model and type, and reports the new position |
| Mice.ClickAfterMove | src/ComputerSystem.java:207-215 | a click right after `move(x, y)` reports `(x, y)` |
| Mice.Mouse.constructor | src/ComputerSystem.java:200-205 | a new mouse has the given model and type and sits at (0, 0) |
| Mice.Mouse.Click | src/ComputerSystem.java:207-209 | only the console changes, by exactly what `ClickStep` prints |
| Mice.Mouse.Move | src/ComputerSystem.java:211-215 | `x` and `y` become the arguments and the console grows by exactly what `MoveStep` prints |
| Calls.Run | src/ComputerSystem.java:94-222 | no sequence of component operations changes a model name, the rated power, the screen size or a device type |
| Calls.RunKeepsIdentity | src/ComputerSystem.java:94-222 | performing any sequence of calls one by one keeps every model name, the rated power, the screen size and every device type |
| Calls.RunAppend | src/ComputerSystem.java:94-222 | running two call sequences one after the other is running their concatenation, and the console shows the first's lines before the second's |
| Calls.PositionOnlyChangedByMove | src/ComputerSystem.java:197-215 | a sequence of calls without a move leaves the mouse exactly as it was |
| Calls.PositionIsLastMove | src/ComputerSystem.java:211-215 | after any sequence of calls the cursor is at the coordinates of the last move in it |
| Calls.ClickReportsLastMove | src/ComputerSystem.java:207-215 | after any history, a move followed by a click makes the click's line report the moved-to position |
| Calls.UnitFlagOnlyChangedBySwitches | src/ComputerSystem.java:97-122 | without powerOn or powerOff, the unit's flag keeps its value through any sequence of calls |
| Calls.MonitorFlagOnlyChangedBySwitches | src/ComputerSystem.java:136-160 | without turnOn or turnOff, the monitor's flag keeps its value through any sequence of calls |
| Calls.NoDrawWhileUnitOff | src/ComputerSystem.java:115-121 | starting from an unpowered unit, no sequence of calls without powerOn ever prints a power draw |
| Calls.NoShowWhileMonitorOff | src/ComputerSystem.java:154-159 | starting from a monitor that is off, no sequence of calls without turnOn ever shows a message |
| Computers.SwitchOnPhase | src/ComputerSystem.java:62-64 | unit then monitor are switched on, printing their two "on" lines in that order |
| Computers.InputPhase | src/ComputerSystem.java:66-69 | the keyboard echoes the program, the click reports the position from before the move, and the mouse ends at (100, 200) |
| Computers.ProcessPhase | src/ComputerSystem.java:71-72 | with the unit on, processing reports exactly half the rated power, with no error, and changes nothing |
| Computers.DisplayPhase | src/ComputerSystem.java:74-75 | with the monitor on, it shows "Hello World!" with its model and size, with no error, and changes nothing |
| Computers.SwitchOffPhase | src/ComputerSystem.java:77-79 | the unit is switched off before the monitor, printing their two "off" lines in that order |
| Computers.WorkCycleOutcome | src/ComputerSystem.java:59-80 | from any starting state the cycle ends with both devices off and the mouse at (100, 200), all else kept; it prints exactly the ten component lines in the source's order; and neither guard fails |
| Computers.FreshWorkCycle | src/ComputerSystem.java:59-80 | from freshly built components the cycle's click reports (0, 0), and a draw and a shown message both appear |
| Computers.Computer.constructor | src/ComputerSystem.java:33-41 | the computer holds the given id, room and the four given components |
| Computers.Computer.DisplayComputerInfo | src/ComputerSystem.java:46-54 | prints a header, the id, the room and the four model names in that order, and changes no component |
| Computers.Computer.PerformWorkCycle | src/ComputerSystem.java:59-80 | prints the header and then exactly what running the work cycle's calls prints, leaves the components as that run does, and so ends with both devices off and the mouse at (100, 200) |
| Computers.Demo | src/ComputerSystem.java:5-19 | the demonstration run prints the computer's summary and then the whole cycle, with a 500 W unit reporting a 250 W draw and the first click at (0, 0) |

## Left out

- Console text: the exact Russian lines, their formatting and string concatenation are
  not modelled. Each line, or group of lines, is an abstract event that carries the
  values the line prints. `keyboard.input` prints two lines, modelled as one event.
- `Monitor.size` is a Java `double`. It is modelled as a `real` that is stored and
  printed, never computed with. Floating-point rounding, the decimal formatting of
  the printed size, and the non-finite values NaN, +Infinity and -Infinity (which the
  constructor accepts and `display` prints) are not modelled.
- Computers.Demo: the Russian type and room names of `main` are given in English
  ("membrane", "optical", "Room 305"), so the event values differ from the source's
  literals in those three strings.
- The getters (`getModel`, `getPower`, `isPoweredOn`, `getX` and the rest) are plain field
  reads. They are not separate members: the model reads the fields directly.
- Java references may be `null`. The model uses Dafny's non-null class types, so a
  computer built from missing components, which the source accepts and which fails on
  the first call into a missing component, is not modelled.
- Null strings: every Java `String` parameter may also be `null` (the model names, the
  room, the text of `input`, the message of `display`, the program of `process`). The
  source accepts them: `input(null)` prints "null" and returns `null`, and `display(null)`
  prints its line with "null". Dafny's `string` cannot be null, so these calls are not
  modelled.
- Sharing components between two computers is possible in the source, though the design
  does not intend it. The model does not exclude it and states nothing about it.
