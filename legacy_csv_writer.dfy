/** The older buffered CSV writer (classes/bufferedcsvfilewriter.py): no
    `enabled` switch, and `flush` opens the file even when there is nothing
    to write, so it creates an empty file. */
module LegacyCsvWriter {
  import opened Wrappers

  const DefaultBufferSize: int := 1000

  class BufferedCsvFileWriter<T> {
    const filename: string
    const bufferSize: int
    var buffer: seq<T>
    var file: seq<T>
    var onDisk: bool

    ghost predicate Valid()
      reads this
    {
      |buffer| < (if bufferSize < 1 then 1 else bufferSize)
    }

    function Contents(): seq<T>
      reads this
    {
      file + buffer
    }

    constructor (filename: string, bufferSize: int := DefaultBufferSize, existing: Option<seq<T>> := None)
      ensures Valid()
      ensures this.filename == filename && this.bufferSize == bufferSize
      ensures buffer == []
      ensures file == (if existing.Some? then existing.value else [])
      ensures onDisk == existing.Some?
    {
      this.filename := filename;
      this.bufferSize := bufferSize;
      buffer := [];
      file := if existing.Some? then existing.value else [];
      onDisk := existing.Some?;
    }

    /** `write`: the row is queued after every row accepted before it, and
        the whole buffer goes to the file once it holds `bufferSize` rows. */
    method Write(line: T)
      requires Valid()
      modifies this
      ensures Valid()
      ensures Contents() == old(Contents()) + [line]
      ensures |old(buffer)| + 1 >= bufferSize ==> buffer == [] && onDisk
      ensures |old(buffer)| + 1 < bufferSize ==>
        buffer == old(buffer) + [line] && file == old(file) && onDisk == old(onDisk)
    {
      buffer := buffer + [line];
      if |buffer| >= bufferSize {
        Flush();
      }
    }

    /** `flush`: the buffered rows are appended to the file, which exists
        afterwards even when nothing was buffered. */
    method Flush()
      modifies this
      ensures Valid()
      ensures buffer == [] && file == old(file) + old(buffer) && onDisk
    {
      file := file + buffer;
      onDisk := true;
      buffer := [];
    }

    /** `close`: whatever is still buffered reaches the file; with an empty
        buffer nothing happens, so no file is created. */
    method Close()
      modifies this
      ensures Valid()
      ensures buffer == [] && file == old(Contents())
      ensures onDisk == (old(onDisk) || old(buffer) != [])
    {
      if buffer != [] {
        Flush();
      }
    }
  }
}
