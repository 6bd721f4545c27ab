/** The buffered CSV writer used by the engine
    (classes/lib/bufferedcsvfilewriter.py). Rows are collected in memory and
    appended to the file in batches. The file is modelled by its rows and by
    whether it exists; `existing` is what the file held before the writer
    was created (the writer only ever appends). */
module CsvWriter {
  import opened Wrappers

  const DefaultBufferSize: int := 1000

  class BufferedCsvFileWriter<T> {
    const filename: string
    const bufferSize: int
    /** The public `enabled` switch. */
    var enabled: bool
    var buffer: seq<T>
    /** The rows in the file on disk, and whether the file exists. */
    var file: seq<T>
    var onDisk: bool

    /** Buffered rows never reach the flushing threshold (a threshold below
        1 behaves as 1: every write goes straight to the file). */
    ghost predicate Valid()
      reads this
    {
      |buffer| < (if bufferSize < 1 then 1 else bufferSize)
    }

    /** Every row accepted so far, in order: those on disk, then those
        waiting in the buffer. */
    function Contents(): seq<T>
      reads this
    {
      file + buffer
    }

    constructor (filename: string, bufferSize: int := DefaultBufferSize, enabled: bool := true,
                 existing: Option<seq<T>> := None)
      ensures Valid()
      ensures this.filename == filename && this.bufferSize == bufferSize && this.enabled == enabled
      ensures buffer == []
      ensures file == (if existing.Some? then existing.value else [])
      ensures onDisk == existing.Some?
    {
      this.filename := filename;
      this.bufferSize := bufferSize;
      this.enabled := enabled;
      buffer := [];
      file := if existing.Some? then existing.value else [];
      onDisk := existing.Some?;
    }

    /** `write`: a disabled writer ignores the row; otherwise the row is
        queued after every row accepted before it, and the whole buffer goes
        to the file once it holds `bufferSize` rows. */
    method Write(line: T)
      requires Valid()
      modifies this
      ensures Valid()
      ensures enabled == old(enabled)
      ensures !enabled ==> buffer == old(buffer) && file == old(file) && onDisk == old(onDisk)
      ensures enabled ==> Contents() == old(Contents()) + [line]
      ensures enabled && |old(buffer)| + 1 >= bufferSize ==> buffer == [] && onDisk
      ensures enabled && |old(buffer)| + 1 < bufferSize ==>
        buffer == old(buffer) + [line] && file == old(file) && onDisk == old(onDisk)
    {
      if !enabled {
        return;
      }
      buffer := buffer + [line];
      if |buffer| >= bufferSize {
        Flush();
      }
    }

    /** `flush`: the buffered rows are appended to the file, creating it if
        needed; with nothing buffered the file is not touched. */
    method Flush()
      modifies this
      ensures Valid()
      ensures buffer == [] && file == old(file) + old(buffer)
      ensures onDisk == (old(onDisk) || old(buffer) != [])
      ensures enabled == old(enabled)
    {
      if buffer == [] {
        return;
      }
      file := file + buffer;
      onDisk := true;
      buffer := [];
    }

    /** `close`: whatever is still buffered reaches the file. */
    method Close()
      modifies this
      ensures Valid()
      ensures buffer == [] && file == old(Contents())
      ensures onDisk == (old(onDisk) || old(buffer) != [])
      ensures enabled == old(enabled)
    {
      if buffer != [] {
        Flush();
      }
    }
  }
}
