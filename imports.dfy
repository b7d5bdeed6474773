/**
 * The values and helpers that the count and message modules import from
 * files outside this model (`../git/parseOutput`, `../lib/constants`,
 * `../lib/paths`, `../lib/utils`, `./action`).
 *
 * Their bodies are not part of this model. Each helper whose behaviour the
 * modelled code does not depend on is a function-valued parameter of the
 * members that use it, so every property proved here holds for ANY
 * implementation of that helper.
 */
module Imports {

  /** A parsed line of `git diff-index` output: action code, path, and the
      destination path (meaningful for a rename only). */
  datatype FileChange = FileChange(x: string, from: string, to: string)

  /** `ACTION.R`, the label of a rename. */
  const ACTION_R: string := "rename"

  /** `ACTION.UNKNOWN`, the label for an action code the table does not know. */
  const ACTION_UNKNOWN: string := "unknown"

  /** `equal` from `../lib/utils`, given by the one property the message
      module relies on: every element equals every other. */
  predicate Equal(xs: seq<string>)
  {
    forall i, j :: 0 <= i < |xs| && 0 <= j < |xs| ==> xs[i] == xs[j]
  }

  /** The helpers that the message module calls. */
  datatype MessageDeps = MessageDeps(
    parseDiffIndex: string -> FileChange,
    lookupDiffIndexAction: string -> string,
    moveOrRenameFile: (string, string) -> string,
    formatPath: string -> string,
    humanList: seq<string> -> string)

  /** A thrown `Error` is modelled as `Err`. */
  datatype Result<T> = Ok(value: T) | Err(message: string)
}
