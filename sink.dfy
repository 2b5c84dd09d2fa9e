/**
 * The artifact sink: a file is a path and the ordered lines written to it.
 * `WriteStream` stands for the stream `fs.createWriteStream(path)` returns; each
 * `write` of the source appends exactly one line (the trailing newline of every
 * write is implied and not stored).
 */
module Sink {

  datatype File = File(path: string, lines: seq<string>)

  class WriteStream {
    const path: string
    var lines: seq<string>

    constructor (path: string)
      ensures this.path == path && lines == []
    {
      this.path := path;
      lines := [];
    }

    method Write(line: string)
      modifies this
      ensures lines == old(lines) + [line]
    {
      lines := lines + [line];
    }

    /** The file as it stands once the stream is ended. */
    function Contents(): File
      reads this
    {
      File(path, lines)
    }
  }
}
