# Chemistry-lab robot: joint-state driver and synthesis front end

This project models two parts of a chemistry-lab robot in Dafny and proves
properties about them.

**The LAN driver node** (`LanDriver`, in `lan_driver.dfy`). It receives joint-state
messages, each a list of joint names with a parallel list of positions. For each
message it does three things:

- It looks up seven fixed arm joints by the first occurrence of each name. It
  sends the arm a pose at speed 80 only when all seven are present.
- It reads the optional `endeffector_gripper` value.
- It moves the gripper servo (pin 18) only when that value differs from the
  last committed value by more than 0.01. The stored value starts at -999. The
  pulse width is 2500 − min(|v|/1.57, 1)·2000.

An exception inside the callback ends it and is swallowed. Exceptions come from a
position index out of range, or from a hardware call that raises.

The model has two layers:

- Specification functions: `Lookup`, `GatherFrom`, `ExtractArm`, `ArmStage`,
  `GripperStage`, `Step` and `Pulse`.
- A `Driver` class. Its field `lastGripperVal` is updated in place. Its ghost
  trace `sent` holds the commands the hardware accepted.

`Driver.ListenerCallback` runs the loop over the seven names imperatively, via
`CollectArmAngles`. It is proved to append exactly `Step(...).emitted` to the
trace and to store `Step(...).last`. The properties are lemmas about `Step`.
Whether a hardware call raises is a boolean parameter.

**The synthesis front end** (`LabInterface`, in `lab_interface.dfy`). It covers:

- the reagent and recipe tables;
- the style the activity log gives a message, chosen by keywords;
- the manual batch, a map from pump to accumulated millilitres kept in the order
  pumps were first added, together with its pending-items count;
- the two dispense protocols, one for the manual batch and one for a recipe.

The protocols are what `execute_batch` and `run_recipe` write to the log. The
class `LabApp` holds the batch, its order, the shown count and the log, all
updated in place. The log is the sequence of (message, style) pairs written to
the text area.

`options.dfy` holds the shared `Option` datatype.

## Model

| member | source | states |
|---|---|---|
| LanDriver.IndexOf | robot_initialisation/ros_lan_driver.py:63-64 | the result is the first index holding the name, or the list's length exactly when the name is absent |
| LanDriver.Lookup | robot_initialisation/ros_lan_driver.py:63-65 | Missing iff the name is absent; Found iff its first index is within the positions, with the position at that first index; IndexError iff that index is past the end of the positions |
| LanDriver.Pulse | robot_initialisation/ros_lan_driver.py:87-92 | every pulse width lies in [500, 2500] |
| LanDriver.GatherFrom | robot_initialisation/ros_lan_driver.py:59-67 | defines the loop over the remaining targets: a present name appends its first-occurrence position, an absent one clears found_all and the loop goes on, an out-of-range index raises (its properties are `GatherRaised`, `GatherPartial`, `GatherComplete`) |
| LanDriver.ExtractArm | robot_initialisation/ros_lan_driver.py:59-69 | defines the arm half's outcome: a pose only when found_all holds and seven angles were collected, a fault when the loop raised (characterized by `ArmAllOrNothing`) |
| LanDriver.ArmStage | robot_initialisation/ros_lan_driver.py:69-70 | defines the arm half's commands: the pose at speed 80 when one was extracted, nothing otherwise, an exception when the loop or the send raised |
| LanDriver.GripperStage | robot_initialisation/ros_lan_driver.py:73-79 | defines the gripper half: no gripper name leaves everything, an out-of-range index raises, a value past the threshold is sent and stored unless the send raises (characterized by `Debounce`) |
| LanDriver.Step | robot_initialisation/ros_lan_driver.py:46-82 | defines one whole callback: the arm half, then the gripper half, an exception in either ending it (the reference `Driver.ListenerCallback` is proved against) |
| LanDriver.TargetJointsDistinct | robot_initialisation/ros_lan_driver.py:49-57 | the seven joint names are pairwise different and none is the gripper's name |
| LanDriver.GatherRaised | robot_initialisation/ros_lan_driver.py:62-65 | the loop over the targets raises iff some target's first index is past the end of the positions, even after an earlier missing name |
| LanDriver.GatherPartial | robot_initialisation/ros_lan_driver.py:59-67 | when it does not raise, found_all ends true iff every target is present; the angles only grow, by at most one per target, keeping the earlier ones |
| LanDriver.GatherComplete | robot_initialisation/ros_lan_driver.py:59-67 | when every target is present, exactly one angle is appended per target, in target order: the position at that target's first index |
| LanDriver.ArmAllOrNothing | robot_initialisation/ros_lan_driver.py:59-69 | a pose is extracted iff all seven names are present with a position; the callback faults iff one of them has an index out of range; the pose has 7 entries, entry i the first-occurrence position of joint i |
| LanDriver.GatherFromDependsOnLookups | robot_initialisation/ros_lan_driver.py:62-67 | two messages whose targets look up alike give the same loop result |
| LanDriver.ExtractArmDependsOnlyOnLookups | robot_initialisation/ros_lan_driver.py:49-69 | the pose does not depend on the message's entry order or on other entries, only on what the seven names look up to |
| LanDriver.GripperStageShape | robot_initialisation/ros_lan_driver.py:73-79 | the gripper half appends nothing or a single servo command for the message's gripper value |
| LanDriver.StepEmitted | robot_initialisation/ros_lan_driver.py:69-79 | a callback emits the arm command (when a pose was found and its send succeeded) followed by at most one servo command, and nothing else |
| LanDriver.StepArmCommand | robot_initialisation/ros_lan_driver.py:59-70 | an arm command is emitted iff the arm send succeeds and all seven names are present, each with an in-range position; it is the first command, has speed 80, and carries the seven first-occurrence positions in target order |
| LanDriver.MissingJointNoArm | robot_initialisation/ros_lan_driver.py:66-70 | if any one of the seven names is missing, no arm command is emitted |
| LanDriver.Debounce | robot_initialisation/ros_lan_driver.py:77-79 | once the arm half completed and a gripper value v is present: if \|v − last\| > 0.01 and the send succeeds, the servo command for v is appended and v is stored; if the send raises, nothing is stored; otherwise nothing is sent and the stored value stays |
| LanDriver.StateChangesOnlyOnCommit | robot_initialisation/ros_lan_driver.py:77-79 | the stored value changes only to the message's gripper value, only past the threshold, and only when the last command sent is its servo pulse |
| LanDriver.FailureLeavesState | robot_initialisation/ros_lan_driver.py:78-82 | a callback ended by an exception leaves the stored value unchanged and sends no servo command |
| LanDriver.ServoCommandsBounded | robot_initialisation/ros_lan_driver.py:87-94 | every servo command of a callback goes to pin 18 with a pulse width in [500, 2500] |
| LanDriver.FirstGripperValueCommits | robot_initialisation/ros_lan_driver.py:77-79 | from the initial -999, a first gripper value in [-1, 0] is always stored (when the sends succeed) |
| LanDriver.PulseEnds | robot_initialisation/ros_lan_driver.py:87-92 | a value of 0 gives 2500, -0.785 gives 1500 and -1.57 gives 500 |
| LanDriver.PulseSaturates | robot_initialisation/ros_lan_driver.py:87-88 | every value with \|v\| ≥ 1.57 gives the minimum pulse of 500 |
| LanDriver.PulseMonotone | robot_initialisation/ros_lan_driver.py:87-92 | the pulse does not increase as \|v\| grows |
| LanDriver.PulseSymmetric | robot_initialisation/ros_lan_driver.py:87 | v and −v give the same pulse |
| LanDriver.ScenarioArmOnly | robot_initialisation/ros_lan_driver.py:59-70 | a message of exactly the seven joints, in order, emits one arm command with its positions at speed 80 and leaves the stored value alone |
| LanDriver.GripperOnlyMessage | robot_initialisation/ros_lan_driver.py:62-75 | a message with only the gripper sends no arm command, completes the arm half, and finds the gripper value |
| LanDriver.ScenarioGripperOnly | robot_initialisation/ros_lan_driver.py:73-94 | from the initial value, gripper -0.785 emits a single servo command of 1500 on pin 18 and is stored |
| LanDriver.ScenarioDebounced | robot_initialisation/ros_lan_driver.py:77-79 | after -0.5 is stored, -0.505 emits nothing and the stored value stays -0.5 |
| LanDriver.Driver.constructor | robot_initialisation/ros_lan_driver.py:44 | the stored gripper value starts at -999 and nothing has been sent |
| LanDriver.Driver.SendRadians | robot_initialisation/ros_lan_driver.py:70 | an arm send that returns appends its pose and speed to the trace; one that raises appends nothing |
| LanDriver.Driver.SetServoPulsewidth | robot_initialisation/ros_lan_driver.py:94 | a servo send that returns appends its pin and pulse; one that raises appends nothing |
| LanDriver.Driver.MoveGripper | robot_initialisation/ros_lan_driver.py:84-94 | the pulse computed step by step and sent on pin 18 equals `Pulse` of the value |
| LanDriver.CollectArmAngles | robot_initialisation/ros_lan_driver.py:59-67 | the loop raises iff some target's index is out of range; otherwise it yields the loop's angles and found_all flag |
| LanDriver.Driver.ListenerCallback | robot_initialisation/ros_lan_driver.py:46-82 | one callback appends exactly the commands of `Step` to the trace and stores `Step`'s new gripper value, including on every early exit |
| LabInterface.Contains | GUI/interface.py:99-101 | defines Python's substring test `w in s`: `w` occurs at some index of `s` (used through `ContainsInfix` and `MissingCharNotContained`) |
| LabInterface.Logged | GUI/interface.py:95-104 | defines the entry `log` writes: the message with the style `StyleFor` chooses |
| LabInterface.NatToString | GUI/interface.py:176 | the `{amount}` text is a non-empty string of decimal digits |
| LabInterface.NatToStringDecimal | GUI/interface.py:176 | the `{amount}` text reads back as the amount, with no leading zero |
| LabInterface.AutoStart | GUI/interface.py:123 | defines the recipe's start message "Auto-Sequence Started: " followed by the recipe name |
| LabInterface.AddedMessage | GUI/interface.py:176 | defines the "Manual Added: <amount>ml of <name>" message |
| LabInterface.DispenseMessage | GUI/interface.py:188 | defines the "PUMP <pump> ENGAGED -> <amount>ml (<chemical>)" message, shared with line 126 |
| LabInterface.DispenseLines | GUI/interface.py:186-188 | defines the dispense loop's log lines, one per entry in order (characterized by `DispenseLinesSpec`) |
| LabInterface.ProtocolLog | GUI/interface.py:185-189 | defines a protocol's log: start line, dispense lines, end line (characterized by `ProtocolLogShape`) |
| LabInterface.ManualProtocolLog | GUI/interface.py:185-189 | defines what `execute_batch` logs for a batch (characterized by `ManualProtocolShape`) |
| LabInterface.RecipeLog | GUI/interface.py:123-127 | defines what `run_recipe` logs for a recipe's mix (characterized by `RecipeLogShape`) |
| LabInterface.BatchInvariant | GUI/interface.py:166-177 | defines what the manual batch keeps: known pumps only, each listed once in insertion order, each with a positive total (kept by `AccumulateKeepsInvariant`) |
| LabInterface.StyleFor | GUI/interface.py:99-102 | the chosen style is blue_bold, success or the caller's style |
| LabInterface.HighlightWins | GUI/interface.py:99-100 | a message containing ENGAGED, ACTIVATED or Added gets blue_bold, whatever else it contains and whatever style was asked for |
| LabInterface.CompletionStyle | GUI/interface.py:101-102 | without a highlight keyword, a message containing Completed or SUCCESS gets success |
| LabInterface.PlainStyleKept | GUI/interface.py:95-102 | with neither kind of keyword the caller's style is kept |
| LabInterface.ContainsInfix | GUI/interface.py:99 | a keyword placed inside a message is found by the substring test |
| LabInterface.MissingCharNotContained | GUI/interface.py:99-101 | a message lacking one of a keyword's characters does not contain the keyword |
| LabInterface.NotHighlightedWithoutA | GUI/interface.py:99-100 | a message without the letter A has no highlight keyword |
| LabInterface.NoCompletionWithoutC | GUI/interface.py:101-102 | a message without the letter C has no completion keyword |
| LabInterface.ManualStartStyle | GUI/interface.py:185 | the manual protocol's start line keeps the normal style |
| LabInterface.ManualDoneStyle | GUI/interface.py:189 | the manual protocol's end line gets success |
| LabInterface.AutoDoneStyle | GUI/interface.py:127 | the recipe protocol's end line gets success |
| LabInterface.DispenseLineHighlighted | GUI/interface.py:186-188 | every dispense line carries the pump's message and is blue_bold |
| LabInterface.AddedMessageHighlighted | GUI/interface.py:176 | the "Manual Added" line is blue_bold whatever style is asked for |
| LabInterface.DispenseLinesSpec | GUI/interface.py:186-188 | a dispense loop writes one line per entry, in entry order, each naming its pump, amount and chemical, each blue_bold |
| LabInterface.BatchEntries | GUI/interface.py:186 | defines the items `execute_batch` iterates: the pumps in the given order, each paired with its total |
| LabInterface.BatchEntriesCoverBatch | GUI/interface.py:186-188 | for a well-formed batch the items name every pump of the batch and no other, none twice, each with its accumulated total |
| LabInterface.ProtocolLogShape | GUI/interface.py:185-189 | a protocol's log is its start line, then one blue_bold dispense line per entry in order, then its end line |
| LabInterface.ManualProtocolShape | GUI/interface.py:185-189 | a non-empty batch logs a normal start line, one blue_bold line per pump in insertion order with its accumulated amount and chemical, then a success line |
| LabInterface.RecipeLogShape | GUI/interface.py:123-127 | a recipe logs its start line, one blue_bold line per pump of its mix in order, then a success line |
| LabInterface.RecipeTablesConsistent | GUI/interface.py:7-22 | every pump of every recipe's mix is a key of the reagent table, with a positive amount, so `run_recipe`'s reagent lookups (lines 124-125) never fail |
| LabInterface.RecipePumpsDistinct | GUI/interface.py:15-22 | no recipe lists a pump twice |
| LabInterface.Accumulate | GUI/interface.py:169-174 | a zero amount changes nothing; a present pump gets the amount added to its total; a new pump gets exactly the amount; no other pump's entry changes; the count grows by one exactly for a new pump |
| LabInterface.AccumulateKeepsInvariant | GUI/interface.py:169-174 | adding a positive amount for a known pump keeps the batch invariant (known pumps, each listed once in order, positive totals), a new pump joining the end of the order |
| LabInterface.DistinctAppend | GUI/interface.py:173-174 | a new key appended to a repetition-free insertion order keeps it repetition-free |
| LabInterface.DistinctCount | GUI/interface.py:177 | a repetition-free list of pumps has as many elements as its set of pumps |
| LabInterface.LabApp.constructor | GUI/interface.py:41 | the application starts with an empty batch, a count of 0, and the ready line in the log |
| LabInterface.LabApp.PendingIsDistinctPumps | GUI/interface.py:177 | the shown pending count equals the number of distinct pumps in the batch and the length of its order |
| LabInterface.LabApp.Log | GUI/interface.py:95-105 | logging appends exactly one entry, the message with the keyword-chosen style |
| LabInterface.LabApp.AddToBatch | GUI/interface.py:166-178 | an unknown pump or a zero amount changes nothing; otherwise the batch is `Accumulate`d, a new pump joins the order, the "Manual Added" line is logged and the shown count is the batch size; the batch invariant is kept |
| LabInterface.LabApp.AddAmount | GUI/interface.py:171-177 | the batch update keeps the invariant and the shown count equals the batch size |
| LabInterface.LabApp.ExecuteBatch | GUI/interface.py:180-191 | an empty batch is refused and nothing changes; otherwise the manual protocol log is appended and the batch, its order and the shown count are emptied |
| LabInterface.LabApp.LogProtocol | GUI/interface.py:185-189 | a protocol appends its start line, its dispense lines and its end line to the log, in that order |
| LabInterface.LabApp.LogDispenses | GUI/interface.py:186-188 | the dispense loop appends exactly the dispense lines of its entries, in order |
| LabInterface.LabApp.RunRecipe | GUI/interface.py:121-127 | an unknown recipe fails before logging anything; a known one appends the recipe's protocol log, its mix in table order |

## Left out

- The ROS node lifecycle, the subscription and `main` (robot_initialisation/ros_lan_driver.py:13-16, 37-42, 96-104) are framework plumbing.
- The pigpio and MyArm connection setup, `time.sleep`, `power_on` and `exit()` (robot_initialisation/ros_lan_driver.py:18-35) are foreign I/O. The two hardware calls are trace entries, and whether each raises is a boolean parameter.
- LanDriver.Driver.SendRadians and LanDriver.Driver.SetServoPulsewidth: a call that raises records nothing in the trace. What the hardware did before failing is not modelled.
- Positions and pulse widths are exact reals, not IEEE doubles.
- The pulse width is not rounded. The code sends the real value `2500 - percentage * 2000` as computed, with no rounding to an integer, and so does the model.
- Debounce from the sentinel: the code commits a first value only when it differs from -999 by more than 0.01. It does not commit "any first value". The model follows the code (`LanDriver.FirstGripperValueCommits` covers the values the slider produces).
- Exceptions other than an out-of-range position index or a raising hardware call are not modelled. This includes a malformed message.
- All Tk widget construction, colours, fonts and geometry (GUI/interface.py:35-92, 108-119, 130-164) are pure UI.
- The timestamp line that `log` writes before each message, the "\n\n" suffix and the scrolling (GUI/interface.py:96-97, 104-105) are not modelled. The log holds only the (message, style) pairs.
- The sliders: the amount `add_to_batch` reads from the pump's slider is a parameter of `AddToBatch`. The slider's 0–50 range is not enforced, and resetting the slider to 0 (GUI/interface.py:178) is not modelled.
- An unknown pump in `add_to_batch` raises a KeyError in the Tk callback. The model treats it as a call that changes nothing.
- The warning box for an empty batch (GUI/interface.py:182) is the `refused` result of `ExecuteBatch`.
- The label's text and colour (GUI/interface.py:177, 191) are the number `pendingShown`.
- A recipe's `mix` dict and the manual batch's insertion order are sequences (`Recipe.mix`, `LabApp.batchOrder`). Python dicts iterate in insertion order.
- Each recipe's `formula` string is kept in the table but is never used by the modelled operations.
