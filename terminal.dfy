/**
 * The console (`std::cout`) as an append-only transcript. Each entry is one
 * written line with its trailing newline dropped; a prompt written without a
 * newline is an entry too.
 */
module Terminal {

  /** One line of console output. A float is kept as a value, because the
      stream's default float formatting is not modelled. */
  datatype Entry =
    | Line(text: string)
    | NumberLine(caption: string, value: real)

  /** The entries produced by writing each string of `texts` on its own line,
      in order. */
  function Lines(texts: seq<string>): (r: seq<Entry>)
    ensures |r| == |texts|
    ensures forall i :: 0 <= i < |texts| ==> r[i] == Line(texts[i])
  {
    if texts == [] then [] else [Line(texts[0])] + Lines(texts[1..])
  }

  class Console {
    var output: seq<Entry>

    constructor ()
      ensures output == []
    {
      output := [];
    }

    method Write(e: Entry)
      modifies this
      ensures output == old(output) + [e]
    {
      output := output + [e];
    }
  }
}
