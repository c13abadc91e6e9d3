/**
 * An input file stream read line by line (`std::ifstream` with
 * `std::getline`). A file system is a map from path to the file's lines; a
 * path that is not a key is a file that does not exist.
 */
module Streams {

  type FileSystem = map<string, seq<string>>

  class LineStream {
    /** The path the stream was opened on. */
    const path: string
    /** False when the open failed (the stream's `!file` test). */
    const isOpen: bool
    /** The lines of the file; none when the open failed, since a stream
        whose open failed has its failbit set and every read fails. */
    const lines: seq<string>
    /** The read position: the number of lines already extracted. */
    var pos: nat

    ghost predicate Valid()
      reads this
    {
      pos <= |lines|
    }

    /** The lines that reads have not yet extracted, in file order. */
    ghost function Unread(): seq<string>
      reads this
      requires Valid()
    {
      lines[pos..]
    }

    constructor Open(fs: FileSystem, path: string)
      ensures this.path == path
      ensures isOpen <==> path in fs
      ensures lines == (if path in fs then fs[path] else [])
      ensures pos == 0 && Valid()
    {
      this.path := path;
      isOpen := path in fs;
      lines := if path in fs then fs[path] else [];
      pos := 0;
    }

    /** One `std::getline`: extracts the next line, or fails at end of file. */
    method GetLine() returns (ok: bool, line: string)
      requires Valid()
      modifies this`pos
      ensures Valid()
      ensures ok <==> old(pos) < |lines|
      ensures ok ==> line == lines[old(pos)] && pos == old(pos) + 1
      ensures !ok ==> pos == old(pos)
    {
      if pos < |lines| {
        ok, line := true, lines[pos];
        pos := pos + 1;
      } else {
        ok, line := false, "";
      }
    }
  }
}
