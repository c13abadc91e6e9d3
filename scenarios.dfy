/**
 * Client code that builds steps and runs them, as a caller of the step
 * classes would, and states what the caller observes.
 */
module Scenarios {
  import opened Wrappers
  import opened Terminal
  import opened Streams
  import opened Steps

  /** With the constructor as written, `Execute` never changes the result,
      whatever operation name the caller passes. */
  method CalculusAsWritten(a: real, b: real, operation: string) returns (before: Float, after: Float)
    ensures after == before
  {
    var calculator := new CalculusStep(NumberEntry(NumberInput("A", a)), NumberEntry(NumberInput("B", b)), operation);
    before := calculator.GetResult();
    calculator.Execute();
    after := calculator.GetResult();
  }

  /** With the operation stored, `Execute` computes it over the numbers the
      two inputs held at construction. */
  method CalculusWithOperation(a: real, b: real, operation: string) returns (before: Float, after: Float)
    ensures after == OperationResult(operation, a, b, before)
    ensures operation in Operations ==> after.Finite? || (operation == "divide" && b == 0.0)
  {
    var calculator := new CalculusStep.WithOperation(NumberEntry(NumberInput("A", a)), NumberEntry(NumberInput("B", b)), operation);
    before := calculator.GetResult();
    calculator.Execute();
    after := calculator.GetResult();
  }

  /** Inputs 3 and 4 added give 7. */
  method AddThreeAndFour() returns (r: Float)
    ensures r == Finite(7.0)
  {
    var three := NumberEntry(NumberInput("A", 3.0));
    var four := NumberEntry(NumberInput("B", 4.0));
    var calculator := new CalculusStep.WithOperation(three, four, "add");
    calculator.Execute();
    r := calculator.GetResult();
  }

  /** A text file step reports a missing file once, at construction; its
      first run writes the header and every line of the file, a second run
      only the header, which names the file without its extension. */
  method TextFileRunTwice(description: string, name: string, fs: FileSystem)
    returns (atOpen: seq<Entry>, first: seq<Entry>, second: seq<Entry>)
    ensures atOpen == if name + ".txt" in fs then [] else [FileNotFound]
    ensures first == FileHeader(description, name) + Lines(if name + ".txt" in fs then fs[name + ".txt"] else [])
    ensures second == FileHeader(description, name)
  {
    var console := new Console();
    var step := new TextFileStep(description, name, fs, console);
    atOpen := console.output;
    step.Execute(console);
    first := console.output[|atOpen|..];
    var k := |console.output|;
    step.Execute(console);
    second := console.output[k..];
  }

  /** The same for a CSV file step and the ".csv" extension. */
  method CsvFileRunTwice(description: string, name: string, fs: FileSystem)
    returns (atOpen: seq<Entry>, first: seq<Entry>, second: seq<Entry>)
    ensures atOpen == if name + ".csv" in fs then [] else [FileNotFound]
    ensures first == FileHeader(description, name) + Lines(if name + ".csv" in fs then fs[name + ".csv"] else [])
    ensures second == FileHeader(description, name)
  {
    var console := new Console();
    var step := new CsvFileStep(description, name, fs, console);
    atOpen := console.output;
    step.Execute(console);
    first := console.output[|atOpen|..];
    var k := |console.output|;
    step.Execute(console);
    second := console.output[k..];
  }

  /** Displaying a text file step whose file is missing writes the menu and
      the file step's header, and no file line. */
  method DisplayMissingTextFile(description: string, name: string, fs: FileSystem) returns (shown: seq<Entry>)
    requires name + ".txt" !in fs
    ensures shown == Menu + FileHeader(description, name)
  {
    var console := new Console();
    var file := new TextFileStep(description, name, fs, console);
    var display := DisplayStep(Some(TextFile(file)), None);
    var k := |console.output|;
    display.Execute(console, 1);
    shown := console.output[k..];
  }

  /** A choice other than 1 or 2 writes the menu and one error, and leaves
      the text file's lines unread. */
  method DisplayInvalidChoice(name: string, fs: FileSystem, choice: int) returns (shown: seq<Entry>, unread: seq<string>)
    requires choice != 1 && choice != 2
    ensures shown == Menu + [ErrorLine("Invalid choice!")]
    ensures unread == if name + ".txt" in fs then fs[name + ".txt"] else []
  {
    var console := new Console();
    var text := new TextFileStep("Notes", name, fs, console);
    var csv := new CsvFileStep("Table", name, fs, console);
    var display := DisplayStep(Some(TextFile(text)), Some(CsvFile(csv)));
    var k := |console.output|;
    display.Execute(console, choice);
    shown := console.output[k..];
    unread := text.file.lines[text.file.pos..];
  }
}
