/** Whole directories as values, and what may go wrong while they are handled. */
module Directories {
  import opened Options

  datatype FileInfo = FileInfo(digest: string, mode: nat)

  /** What a manifest entry records of a directory, and what an inventory finds. */
  datatype Tree = Tree(files: map<string, FileInfo>, dirs: map<string, nat>)

  /** Whether an operation raises, what an operation cut short leaves behind, and whether a
      commit that raised had gone through. */
  datatype Luck = Luck(fails: bool, junk: Option<Tree>, lost: bool)

  const FINE := Luck(false, None, false)
}
