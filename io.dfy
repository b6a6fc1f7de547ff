/** The two outputs of the library: the terminal (stderr) and the appended log files. */
module Io {
  import opened Configuration

  /** One line appended to the log file `file`; `text` ends in a newline. */
  datatype LogLine = LogLine(file: Value, text: string)

  /**
   * What has been written so far: every stderr line in order, and every log-file
   * line in order with the file it went to.
   */
  class Streams {
    ghost var stderr: seq<string>
    ghost var daily: seq<LogLine>

    constructor ()
      ensures stderr == [] && daily == []
    {
      stderr := [];
      daily := [];
    }

    method WriteStderr(line: string)
      modifies this
      ensures stderr == old(stderr) + [line]
      ensures daily == old(daily)
    {
      stderr := stderr + [line];
    }

    method AppendLine(line: LogLine)
      modifies this
      ensures daily == old(daily) + [line]
      ensures stderr == old(stderr)
    {
      daily := daily + [line];
    }
  }
}
