# Flow-manager step classes, modelled in Dafny

The flow manager's C++ core is a family of `Step` classes, each with a
virtual `execute()`:

- four value holders that only print: `TitleStep`, `TextStep`,
  `TextInput` and `NumberInput`;
- a calculator, `CalculusStep`. It snapshots the numbers of two
  `NumberInput` steps and picks one of six operations by name;
- two file steps, `TextFileStep` and `CsvFileStep`. Each opens a file when
  it is built and prints whatever of the file is still unread when it runs;
- `DisplayStep`. It reads a menu choice and runs the text-file step or the
  CSV step it was given, or prints one of three errors.

The model has five modules:

- `Wrappers` (`wrappers.dfy`): the `Option` type. A `Step*` that may be
  null is an `Option<Step>`.
- `Terminal` (`terminal.dfy`): `std::cout` as a `Console` object. Its
  `output` transcript only grows. Each entry is one write ending a line,
  except the menu prompt, which the source writes without a newline.
  `Lines` gives the entries for a sequence of lines written in order.
- `Streams` (`streams.dfy`): `std::ifstream` as a `LineStream` object. It
  holds the file's lines and a read position. `GetLine` is one
  `std::getline`. A file system is a map from path to lines, and a path
  that is not a key is a missing file.
- `Steps` (`steps.dfy`): the step classes of `main.cpp`.
  - The value steps are datatypes. Each has a `Printed()` function and an
    `Execute` that writes exactly that.
  - `CalculusStep`, `TextFileStep` and `CsvFileStep` are classes whose
    methods update fields in place. The calculator's six mutators
    overwrite `result`. A file step's `Execute` runs the `getline` loop,
    which advances its stream.
  - `Step` is the closed set of variants a `Step*` can point to.
    `Step.Execute` is the virtual call.
  - `DisplayStep.Choose` is the choice validator, and
    `DisplayStep.Execute` writes the menu and then delegates or reports.
- `Scenarios` (`scenarios.dfy`): client code that builds steps, runs them
  and states what a caller observes. It covers a second run of a file
  step, a missing file, an invalid menu choice, and the calculator's
  operation being dropped.

Two facts follow from the code and differ from a naive reading:

- The calculator's constructor never stores its `operation` argument
  (`main.cpp:103`). As written, `execute` matches no branch and leaves
  `result` alone (see "## Findings").
- Both file steps open `name` plus the extension, but keep and print the
  bare `name`. In `TextFileStep` this is because `name += ".txt"` changes
  the constructor parameter, which hides the member.

`CalculusStep::execute` compares `operation` against the six literal names
`add`, `subtract`, `multiply`, `divide`, `min` and `max`
(`main.cpp:110-121`), so the model's operations are those strings.

Floats are reals. The operands are finite. The calculator's `result` is a
`Float`: a finite value, positive or negative infinity, or NaN. So
division by zero gives the value IEEE arithmetic gives, with no
precondition.

## Model

| member | source | states |
|---|---|---|
| `Terminal.Lines` | project-manager/project-manager/main.cpp:149-152 | the entries for a run of lines are one `Line` per line, in the same order and the same number |
| `Streams.LineStream.Open` | project-manager/project-manager/main.cpp:136-137 | opening succeeds exactly when the path exists; the stream then holds that file's lines, and otherwise none; the read position starts at 0 |
| `Streams.LineStream.GetLine` | project-manager/project-manager/main.cpp:150 | one `getline` succeeds exactly when an unread line remains; it returns that line and advances by one; at end of file it fails and the position stays |
| `Steps.TitleStep.Execute` | project-manager/project-manager/main.cpp:20-23 | writes "Process Title: " plus the title, then "Process Subtitle: " plus the subtitle, and nothing else |
| `Steps.TextStep.Execute` | project-manager/project-manager/main.cpp:34-37 | writes "Process Text: " plus the title, then "Process Copy: " plus the copy |
| `Steps.TextInput.Execute` | project-manager/project-manager/main.cpp:48-51 | writes "Process Description: " plus the description, then "Process Text: " plus the text |
| `Steps.NumberInput.Execute` | project-manager/project-manager/main.cpp:66-69 | writes the description line and the number line; the step is a value, so executing it cannot change the number that `GetNumber` returns |
| `Steps.Quotient` | project-manager/project-manager/main.cpp:91-93 | float division: finite exactly when the divisor is nonzero, and then the quotient times the divisor is the dividend; for a zero divisor, +Inf, -Inf or NaN by the sign of the dividend |
| `Steps.Minimum` | project-manager/project-manager/main.cpp:95-97 | the result is at most both operands and is one of them |
| `Steps.Maximum` | project-manager/project-manager/main.cpp:99-101 | the result is at least both operands and is one of them |
| `Steps.OperationResult` | project-manager/project-manager/main.cpp:109-123 | the result after `execute`: sum, difference and product for add, subtract and multiply; IEEE quotient for divide; the smaller or larger operand for min and max; for any other name, the previous result unchanged |
| `Steps.CalculusStep.constructor` | project-manager/project-manager/main.cpp:103 | the constructor as written: the two pointers are kept, both numbers are the `NumberInput` values, and `operation` stays the empty string whatever is passed; needs both steps to be `NumberInput`s |
| `Steps.CalculusStep.WithOperation` | project-manager/project-manager/main.cpp:103 | the constructor as intended: the same, with `operation` stored |
| `Steps.CalculusStep.Add` | project-manager/project-manager/main.cpp:79-81 | `result` becomes the sum; no other field changes |
| `Steps.CalculusStep.Subtract` | project-manager/project-manager/main.cpp:83-85 | `result` becomes number1 minus number2; no other field changes |
| `Steps.CalculusStep.Multiply` | project-manager/project-manager/main.cpp:87-89 | `result` becomes the product; no other field changes |
| `Steps.CalculusStep.Divide` | project-manager/project-manager/main.cpp:91-93 | `result` becomes the IEEE quotient; no other field changes |
| `Steps.CalculusStep.Min` | project-manager/project-manager/main.cpp:95-97 | `result` becomes the smaller operand; no other field changes |
| `Steps.CalculusStep.Max` | project-manager/project-manager/main.cpp:99-101 | `result` becomes the larger operand; no other field changes |
| `Steps.CalculusStep.Execute` | project-manager/project-manager/main.cpp:109-123 | only `result` may change, and it becomes `OperationResult` of the stored operation, the two numbers and the old result; numbers and operation are untouched |
| `Steps.TextFileStep.constructor` | project-manager/project-manager/main.cpp:133-143 | the stream is opened on name + ".txt", while the stored name is the bare name; a missing file writes "Error: File not found!" once and nothing else happens |
| `Steps.TextFileStep.Execute` | project-manager/project-manager/main.cpp:145-153 | writes the description and bare-name header lines, then every unread line of the file in order; afterwards nothing is left unread |
| `Steps.CsvFileStep.constructor` | project-manager/project-manager/main.cpp:163-173 | the stream is opened on name + ".csv" and the bare name is kept; a missing file is reported once |
| `Steps.CsvFileStep.Execute` | project-manager/project-manager/main.cpp:175-183 | the header lines, then every unread line in order; afterwards the stream is exhausted |
| `Steps.Step.Execute` | project-manager/project-manager/main.cpp:7-10 | the virtual `execute`: writes what the variant prints in its current state, and changes the state by that variant's rule: calculator computes, file step drains, value step untouched |
| `Steps.DisplayStep.Choose` | project-manager/project-manager/main.cpp:205-222 | delegates exactly when the choice is 1 and the first step is present, or 2 and the second is; "Invalid choice!" exactly for choices other than 1 and 2; "No Text file!" / "No CSV file!" exactly when the chosen step is null |
| `Steps.DisplayStep.WriteMenu` | project-manager/project-manager/main.cpp:201-203 | writes the four menu entries, the last being the prompt |
| `Steps.DisplayStep.Execute` | project-manager/project-manager/main.cpp:200-226 | writes the menu, then the chosen step's output or one "Error: " line; on an error no step's state changes; on delegation the chosen step executes once and nothing outside its footprint changes |
| `Scenarios.CalculusAsWritten` | project-manager/project-manager/main.cpp:103-123 | with the constructor as written, `execute` leaves the result exactly as it was, whatever operation name was passed |
| `Scenarios.CalculusWithOperation` | project-manager/project-manager/main.cpp:103-123 | with the operation stored, the result after `execute` is `OperationResult` of the inputs' numbers; every known operation gives a finite result except a division by zero |
| `Scenarios.AddThreeAndFour` | project-manager/project-manager/main.cpp:79-81 | inputs 3 and 4 with "add" give 7 |
| `Scenarios.TextFileRunTwice` | project-manager/project-manager/main.cpp:133-153 | a missing file is reported once, at construction; the first run writes the header and every line of the file; the second run writes only the header, naming the file without ".txt" |
| `Scenarios.CsvFileRunTwice` | project-manager/project-manager/main.cpp:163-183 | the same for a CSV step and ".csv" |
| `Scenarios.DisplayMissingTextFile` | project-manager/project-manager/main.cpp:210-213 | choosing a text step whose file is missing writes the menu and that step's header, and no file line |
| `Scenarios.DisplayInvalidChoice` | project-manager/project-manager/main.cpp:208-209 | a choice other than 1 or 2 writes the menu and "Error: Invalid choice!", and leaves the text file unread |

## Left out

- Console formatting. `std::cout` is a transcript of lines. The difference between `"\n"` and `std::endl` (flushing) is not modelled. The prompt "Enter your choice: " is written without a newline, so on a real console the next output continues that line; the model keeps it as an entry of its own. A float is printed as a `NumberLine` holding the value, because the stream's float formatting is not modelled.
- `std::cin`. The menu choice is an `int` parameter. A failed extraction stores 0, which takes the invalid-choice branch.
- The real file system and `ifstream` internals. A file is a sequence of lines and a missing file is a missing key. Splitting a byte stream on newlines is not modelled. Closing the stream in the destructor is not modelled.
- Steps.OperationResult: the results are exact reals. Float rounding and overflow of add, subtract and multiply to infinity are not modelled.
- Steps.Quotient: dividing by negative zero (which flips the sign of the infinity) is not modelled, because reals have one zero.
- Steps.CalculusStep.constructor: a failed `dynamic_cast` dereferences null, which is undefined behaviour. The model requires both operands to be `NumberInput` steps instead.
- Steps.CalculusStep.constructor: `result` is never initialised in the source, and reading it is undefined. The model gives it an arbitrary value.
- `DisplayStep::displayContentsOfFile` (`main.cpp:191-196`) is never called, so it is not modelled.
- A `DisplayStep` that points to another `DisplayStep`. `Step` leaves that variant out, because the inner step would read a second choice from the input.
- `OutputStep` (`main.cpp:230-232`) declares no `execute`, so it stays abstract and cannot be built. `main` (`main.cpp:234-236`) is empty. Neither is modelled.
- `NumberInput.GetNumber` and `CalculusStep.GetResult` only read a field, so they have no contract of their own. What they return is stated by the constructor and by `CalculusStep.Execute`.
- The member default `name = "NOFILE"` in both file steps is always overwritten by the constructor's initialiser list, so it never shows.
- Flows, a step registry, per-step error and skip counters, and run-or-skip prompts do not exist in `main.cpp`, so none are modelled.

## Findings

| source | as written | input that shows it | evidently intended | confidence | as-written member | corrected member |
|---|---|---|---|---|---|---|
| project-manager/project-manager/main.cpp:103 | the constructor takes `operation` but never stores it, so the member stays empty and `execute` matches none of its six branches | two `NumberInput` steps holding 3 and 4 with operation "add": after `execute`, `result` still holds its uninitialised value instead of 7 | store `operation` in the member, so that `execute` computes the named operation | not executed | `Scenarios.CalculusAsWritten` | `Scenarios.AddThreeAndFour` |
