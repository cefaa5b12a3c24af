/** A value that may be missing. */
module Options {
  datatype Option<T> = None | Some(value: T)
}

/** Terminated strings inside a file. */
module CStrings {
  import opened Leb128

  /** The bytes from a position up to the first 0, or to the end of the file. */
  function CString(file: seq<u1>, pos: nat): (s: seq<u1>)
    ensures 0 !in s
    ensures forall i | 0 <= i < |s| :: s[i] != 0
    decreases |file| - pos
  {
    if At(file, pos) == 0 then [] else [file[pos]] + CString(file, pos + 1)
  }
}
