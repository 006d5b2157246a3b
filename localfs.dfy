/**
 * The local file system as the upload path uses it (`os.Stat`, `os.Open`
 * and the deferred `Close`). What the file system answers is an input; the
 * object records each operation in `ops`.
 */
module LocalFs {
  import opened Common

  /** The answer of `os.Stat`: an error, or the file's kind. */
  datatype StatResult = StatFailed(err: Error) | Found(isDir: bool)

  /** One file-system operation. */
  datatype FsOp = StatOp(file: string) | OpenOp(file: string) | CloseOp(file: string)

  class FileSystem {
    /** Every operation performed, oldest first. */
    var ops: seq<FsOp>

    constructor ()
      ensures ops == []
    {
      ops := [];
    }

    method Stat(file: string, answer: StatResult) returns (r: StatResult)
      modifies this
      ensures ops == old(ops) + [StatOp(file)] && r == answer
    {
      ops := ops + [StatOp(file)];
      r := answer;
    }

    /** Opens `file` for reading; `answer` is the error `os.Open` gives, if any. */
    method Open(file: string, answer: Option<Error>) returns (err: Option<Error>)
      modifies this
      ensures ops == old(ops) + [OpenOp(file)] && err == answer
    {
      ops := ops + [OpenOp(file)];
      err := answer;
    }

    method Close(file: string)
      modifies this
      ensures ops == old(ops) + [CloseOp(file)]
    {
      ops := ops + [CloseOp(file)];
    }
  }
}
