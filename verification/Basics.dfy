/** Vocabulary shared by every module: optional values, directories and paths. */
module Basics {
  datatype Option<+T> = None | Some(value: T)

  /** A directory. Two directories are the same physical one exactly when they are equal. */
  datatype Directory = Directory(id: nat)

  /** `Lrc(0)` is the spelling "lrc"; other spellings differ only in case. */
  datatype Extension = Lrc(spelling: nat) | Audio(format: nat) | Other(id: nat)

  /** A file name in a directory, or the archive slot `number` of an archived file name. */
  datatype Path =
    | Path(parent: Directory, stem: string, extension: Extension)
    | Archived(source: Path, number: nat)

  /** The name of the sidecar that belongs to an audio file. */
  function WithLrc(path: Path): Path {
    if path.Path? then Path(path.parent, path.stem, Lrc(0)) else path
  }
}
