/**
 * The step classes of the flow manager. `Step` is the closed set of step
 * variants that a `Step*` can point to; the step kinds that only hold values
 * are datatypes, the ones whose `execute` changes state (the calculator's
 * result, a file step's stream) are classes. Every `execute` writes to a
 * `Console`, the model of `std::cout`.
 */
module Steps {
  import opened Wrappers
  import opened Terminal
  import opened Streams

  // ---------------------------------------------------------------------
  // Value steps: `execute` only writes two lines.

  datatype TitleStep = TitleStep(title: string, subtitle: string) {
    function Printed(): seq<Entry> {
      [Line("Process Title: " + title), Line("Process Subtitle: " + subtitle)]
    }

    method Execute(console: Console)
      modifies console
      ensures console.output == old(console.output) + Printed()
    {
      var lines := Printed();
      console.Write(lines[0]);
      console.Write(lines[1]);
    }
  }

  datatype TextStep = TextStep(title: string, copy: string) {
    function Printed(): seq<Entry> {
      [Line("Process Text: " + title), Line("Process Copy: " + copy)]
    }

    method Execute(console: Console)
      modifies console
      ensures console.output == old(console.output) + Printed()
    {
      var lines := Printed();
      console.Write(lines[0]);
      console.Write(lines[1]);
    }
  }

  datatype TextInput = TextInput(description: string, text: string) {
    function Printed(): seq<Entry> {
      [Line("Process Description: " + description), Line("Process Text: " + text)]
    }

    method Execute(console: Console)
      modifies console
      ensures console.output == old(console.output) + Printed()
    {
      var lines := Printed();
      console.Write(lines[0]);
      console.Write(lines[1]);
    }
  }

  /** A number input; the source's `float` is a real here. */
  datatype NumberInput = NumberInput(description: string, number: real) {
    function GetNumber(): real {
      number
    }

    function Printed(): seq<Entry> {
      [Line("Process Description: " + description), NumberLine("Process Number: ", number)]
    }

    method Execute(console: Console)
      modifies console
      ensures console.output == old(console.output) + Printed()
    {
      var lines := Printed();
      console.Write(lines[0]);
      console.Write(lines[1]);
    }
  }

  // ---------------------------------------------------------------------
  // Calculator arithmetic.

  /** A `float` result: a finite value, or one of the non-finite values that
      a division by zero produces. */
  datatype Float = Finite(value: real) | PositiveInfinity | NegativeInfinity | NaN

  /** Floating-point division of finite operands, rounding aside. */
  function Quotient(a: real, b: real): (q: Float)
    ensures q.Finite? <==> b != 0.0
    ensures q.Finite? ==> q.value * b == a
    ensures b == 0.0 ==> (q == PositiveInfinity <==> a > 0.0)
    ensures b == 0.0 ==> (q == NegativeInfinity <==> a < 0.0)
    ensures b == 0.0 ==> (q == NaN <==> a == 0.0)
  {
    if b != 0.0 then Finite(a / b)
    else if a > 0.0 then PositiveInfinity
    else if a < 0.0 then NegativeInfinity
    else NaN
  }

  function Minimum(a: real, b: real): (m: real)
    ensures m <= a && m <= b
    ensures m == a || m == b
  {
    if a < b then a else b
  }

  function Maximum(a: real, b: real): (m: real)
    ensures m >= a && m >= b
    ensures m == a || m == b
  {
    if a > b then a else b
  }

  /** The operation names that `CalculusStep.Execute` recognises. */
  const Operations: set<string> := {"add", "subtract", "multiply", "divide", "min", "max"}

  /** The result a calculator holds after `Execute`, given its operation, its
      operands and the result it held before. */
  function OperationResult(operation: string, number1: real, number2: real, previous: Float): (r: Float)
    ensures operation == "add" ==> r == Finite(number1 + number2)
    ensures operation == "subtract" ==> r == Finite(number1 - number2)
    ensures operation == "multiply" ==> r == Finite(number1 * number2)
    ensures operation == "divide" ==> (r.Finite? <==> number2 != 0.0)
    ensures operation == "divide" && number2 != 0.0 ==> r.value * number2 == number1
    ensures operation == "min" ==> r.Finite? && r.value <= number1 && r.value <= number2
    ensures operation == "max" ==> r.Finite? && r.value >= number1 && r.value >= number2
    ensures operation == "min" || operation == "max" ==> r == Finite(number1) || r == Finite(number2)
    ensures operation !in Operations ==> r == previous
  {
    if operation == "add" then Finite(number1 + number2)
    else if operation == "subtract" then Finite(number1 - number2)
    else if operation == "multiply" then Finite(number1 * number2)
    else if operation == "divide" then Quotient(number1, number2)
    else if operation == "min" then Finite(Minimum(number1, number2))
    else if operation == "max" then Finite(Maximum(number1, number2))
    else previous
  }

  // ---------------------------------------------------------------------
  // The calculator step.

  class CalculusStep {
    const step1: Step
    const step2: Step
    var number1: real
    var number2: real
    var result: Float
    var operation: string

    /** The constructor as written: it snapshots both numbers, but never
        stores its `operation` argument, so the member keeps the empty
        string it is default-constructed with. `result` is left
        uninitialised: it holds an arbitrary value. */
    constructor (step1: Step, step2: Step, operation: string)
      requires step1.NumberEntry? && step2.NumberEntry?
      ensures this.step1 == step1 && this.step2 == step2
      ensures number1 == step1.numberInput.number && number2 == step2.numberInput.number
      ensures this.operation == ""
    {
      this.step1 := step1;
      this.step2 := step2;
      number1 := step1.numberInput.GetNumber();
      number2 := step2.numberInput.GetNumber();
      result := *;
      this.operation := "";
    }

    /** The constructor as evidently intended: it also stores `operation`. */
    constructor WithOperation(step1: Step, step2: Step, operation: string)
      requires step1.NumberEntry? && step2.NumberEntry?
      ensures this.step1 == step1 && this.step2 == step2
      ensures number1 == step1.numberInput.number && number2 == step2.numberInput.number
      ensures this.operation == operation
    {
      this.step1 := step1;
      this.step2 := step2;
      number1 := step1.numberInput.GetNumber();
      number2 := step2.numberInput.GetNumber();
      result := *;
      this.operation := operation;
    }

    function GetResult(): Float
      reads this
    {
      result
    }

    method Add()
      modifies this`result
      ensures result == Finite(number1 + number2)
    {
      result := Finite(number1 + number2);
    }

    method Subtract()
      modifies this`result
      ensures result == Finite(number1 - number2)
    {
      result := Finite(number1 - number2);
    }

    method Multiply()
      modifies this`result
      ensures result == Finite(number1 * number2)
    {
      result := Finite(number1 * number2);
    }

    method Divide()
      modifies this`result
      ensures result == Quotient(number1, number2)
    {
      result := Quotient(number1, number2);
    }

    method Min()
      modifies this`result
      ensures result == Finite(Minimum(number1, number2))
    {
      result := Finite(if number1 < number2 then number1 else number2);
    }

    method Max()
      modifies this`result
      ensures result == Finite(Maximum(number1, number2))
    {
      result := Finite(if number1 > number2 then number1 else number2);
    }

    /** Dispatches on the stored operation name; only `result` may change. */
    method Execute()
      modifies this`result
      ensures result == OperationResult(operation, number1, number2, old(result))
    {
      if operation == "add" {
        Add();
      } else if operation == "subtract" {
        Subtract();
      } else if operation == "multiply" {
        Multiply();
      } else if operation == "divide" {
        Divide();
      } else if operation == "min" {
        Min();
      } else if operation == "max" {
        Max();
      }
    }
  }

  // ---------------------------------------------------------------------
  // File steps: each owns a stream that `Execute` drains.

  /** The line a caught exception writes: "Error: " and its message. */
  function ErrorLine(message: string): Entry {
    Line("Error: " + message)
  }

  const FileNotFound: Entry := ErrorLine("File not found!")

  /** The two lines a file step writes before the file's contents. */
  function FileHeader(description: string, name: string): seq<Entry> {
    [Line("Process Description: " + description), Line("File Name: " + name)]
  }

  class TextFileStep {
    const description: string
    /** The name as given: the ".txt" extension goes to the opened path only,
        because the source appends it to the constructor parameter, which
        shadows this member. */
    const name: string
    const file: LineStream

    constructor (description: string, name: string, fs: FileSystem, console: Console)
      modifies console
      ensures this.description == description && this.name == name
      ensures fresh(file) && file.path == name + ".txt"
      ensures file.isOpen <==> name + ".txt" in fs
      ensures file.Valid() && file.Unread() == (if name + ".txt" in fs then fs[name + ".txt"] else [])
      ensures console.output == old(console.output) + (if file.isOpen then [] else [FileNotFound])
    {
      this.description := description;
      this.name := name;
      var stream := new LineStream.Open(fs, name + ".txt");
      file := stream;
      if !stream.isOpen {
        console.Write(FileNotFound);
      }
    }

    /** What `Execute` writes from the current stream position on. */
    ghost function Printed(): seq<Entry>
      reads file
      requires file.Valid()
    {
      FileHeader(description, name) + Lines(file.Unread())
    }

    method Execute(console: Console)
      requires file.Valid()
      modifies console, file
      ensures file.Valid() && file.Unread() == []
      ensures console.output == old(console.output) + old(Printed())
    {
      var header := FileHeader(description, name);
      console.Write(header[0]);
      console.Write(header[1]);
      ghost var start, written := file.pos, console.output;
      while true
        invariant file.Valid() && start <= file.pos
        invariant console.output == written + Lines(file.lines[start..file.pos])
        decreases |file.lines| - file.pos
      {
        var ok, line := file.GetLine();
        if !ok {
          break;
        }
        assert file.lines[start..file.pos] == file.lines[start..file.pos - 1] + [line];
        console.Write(Line(line));
      }
      assert file.lines[start..file.pos] == old(file.Unread());
    }
  }

  class CsvFileStep {
    const description: string
    /** The name as given; the ".csv" extension goes to the opened path only. */
    const name: string
    const file: LineStream

    constructor (description: string, name: string, fs: FileSystem, console: Console)
      modifies console
      ensures this.description == description && this.name == name
      ensures fresh(file) && file.path == name + ".csv"
      ensures file.isOpen <==> name + ".csv" in fs
      ensures file.Valid() && file.Unread() == (if name + ".csv" in fs then fs[name + ".csv"] else [])
      ensures console.output == old(console.output) + (if file.isOpen then [] else [FileNotFound])
    {
      this.description := description;
      this.name := name;
      var newName := name + ".csv";
      var stream := new LineStream.Open(fs, newName);
      file := stream;
      if !stream.isOpen {
        console.Write(FileNotFound);
      }
    }

    /** What `Execute` writes from the current stream position on. */
    ghost function Printed(): seq<Entry>
      reads file
      requires file.Valid()
    {
      FileHeader(description, name) + Lines(file.Unread())
    }

    method Execute(console: Console)
      requires file.Valid()
      modifies console, file
      ensures file.Valid() && file.Unread() == []
      ensures console.output == old(console.output) + old(Printed())
    {
      var header := FileHeader(description, name);
      console.Write(header[0]);
      console.Write(header[1]);
      ghost var start, written := file.pos, console.output;
      while true
        invariant file.Valid() && start <= file.pos
        invariant console.output == written + Lines(file.lines[start..file.pos])
        decreases |file.lines| - file.pos
      {
        var ok, line := file.GetLine();
        if !ok {
          break;
        }
        assert file.lines[start..file.pos] == file.lines[start..file.pos - 1] + [line];
        console.Write(Line(line));
      }
      assert file.lines[start..file.pos] == old(file.Unread());
    }
  }

  // ---------------------------------------------------------------------
  // A `Step*`: one of the step variants, with virtual `execute`.

  datatype Step =
    | Title(title: TitleStep)
    | Text(text: TextStep)
    | TextEntry(textInput: TextInput)
    | NumberEntry(numberInput: NumberInput)
    | Calculus(calculus: CalculusStep)
    | TextFile(textFile: TextFileStep)
    | CsvFile(csvFile: CsvFileStep)
  {
    /** The objects that executing this step may change. */
    function Footprint(): set<object> {
      match this
      case Calculus(c) => {c}
      case TextFile(f) => {f.file}
      case CsvFile(f) => {f.file}
      case _ => {}
    }

    ghost predicate Ready()
      reads Footprint()
    {
      match this
      case TextFile(f) => f.file.Valid()
      case CsvFile(f) => f.file.Valid()
      case _ => true
    }

    /** What executing this step writes to the console in the current state. */
    ghost function Printed(): seq<Entry>
      reads Footprint()
      requires Ready()
    {
      match this
      case Title(t) => t.Printed()
      case Text(t) => t.Printed()
      case TextEntry(t) => t.Printed()
      case NumberEntry(n) => n.Printed()
      case Calculus(_) => []
      case TextFile(f) => f.Printed()
      case CsvFile(f) => f.Printed()
    }

    /** The state change of one execution: a calculator's result is computed
        from its unchanged operands and operation, a file step's stream is
        exhausted, a value step is untouched. */
    twostate predicate Executed()
      reads Footprint()
    {
      match this
      case Calculus(c) =>
        && c.number1 == old(c.number1) && c.number2 == old(c.number2)
        && c.operation == old(c.operation)
        && c.result == OperationResult(c.operation, c.number1, c.number2, old(c.result))
      case TextFile(f) => f.file.Valid() && f.file.Unread() == []
      case CsvFile(f) => f.file.Valid() && f.file.Unread() == []
      case _ => true
    }

    method Execute(console: Console)
      requires Ready()
      modifies console, Footprint()
      ensures Ready()
      ensures console.output == old(console.output) + old(Printed())
      ensures Executed()
    {
      match this
      case Title(t) => t.Execute(console);
      case Text(t) => t.Execute(console);
      case TextEntry(t) => t.Execute(console);
      case NumberEntry(n) => n.Execute(console);
      case Calculus(c) => c.Execute();
      case TextFile(f) => f.Execute(console);
      case CsvFile(f) => f.Execute(console);
    }
  }

  function Reach(step: Option<Step>): set<object> {
    if step.Some? then step.value.Footprint() else {}
  }

  // ---------------------------------------------------------------------
  // The display step: validates a menu choice and delegates to one step.

  /** The outcome of a menu choice: the step to execute, or the message of
      the error the choice raises. */
  datatype Choice = Delegate(target: Step) | Reject(message: string)

  const Menu: seq<Entry> :=
    [Line("Display the contents of:"), Line("1. TextFile"), Line("2. CsvFile"), Line("Enter your choice: ")]

  datatype DisplayStep = DisplayStep(step1: Option<Step>, step2: Option<Step>) {
    function Choose(choice: int): (r: Choice)
      ensures r.Delegate? <==> (choice == 1 && step1.Some?) || (choice == 2 && step2.Some?)
      ensures r.Delegate? ==> (choice == 1 && r.target == step1.value) || (choice == 2 && r.target == step2.value)
      ensures r.Reject? ==> r.message in {"Invalid choice!", "No Text file!", "No CSV file!"}
      ensures r == Reject("Invalid choice!") <==> choice != 1 && choice != 2
      ensures r == Reject("No Text file!") <==> choice == 1 && step1.None?
      ensures r == Reject("No CSV file!") <==> choice == 2 && step2.None?
    {
      if choice != 1 && choice != 2 then Reject("Invalid choice!")
      else if choice == 1 then
        (if step1.Some? then Delegate(step1.value) else Reject("No Text file!"))
      else
        (if step2.Some? then Delegate(step2.value) else Reject("No CSV file!"))
    }

    function Footprint(): set<object> {
      Reach(step1) + Reach(step2)
    }

    ghost predicate Ready()
      reads Footprint()
    {
      && (step1.Some? ==> step1.value.Ready())
      && (step2.Some? ==> step2.value.Ready())
    }

    /** What the `try` block of `Execute` writes for `choice` in the current
        state: the delegate's output, or the caught error. */
    ghost function Response(choice: int): seq<Entry>
      reads Footprint()
      requires Ready()
    {
      match Choose(choice)
      case Delegate(s) => s.Printed()
      case Reject(m) => [ErrorLine(m)]
    }

    /** Writes the menu, then handles the choice the user entered. Each
        error is thrown and caught at once, which writes its message. */
    method Execute(console: Console, choice: int)
      requires Ready()
      modifies console, Footprint()
      ensures console.output == old(console.output) + Menu + old(Response(choice))
      ensures Choose(choice).Reject? ==> unchanged(Footprint())
      ensures Choose(choice).Delegate? ==> Choose(choice).target.Executed()
      ensures Choose(choice).Delegate? ==> unchanged(Footprint() - Choose(choice).target.Footprint())
    {
      WriteMenu(console);
      match Choose(choice)
      case Reject(message) =>
        console.Write(ErrorLine(message));
      case Delegate(step) =>
        step.Execute(console);
    }

    method WriteMenu(console: Console)
      modifies console
      ensures console.output == old(console.output) + Menu
    {
      console.Write(Menu[0]);
      console.Write(Menu[1]);
      console.Write(Menu[2]);
      console.Write(Menu[3]);
    }
  }
}
