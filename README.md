# auto-commit-msg: count and named-file messages

A Dafny model of the two message generators of auto-commit-msg, which turn
parsed `git diff-index` change records into a one-line commit subject.

- `count.dfy` (module `Count`, from `src/generate/count.ts`): labels each
  change (its raw `x`, or, when `x` equals `ACTION.R`, the label
  `moveOrRenameFromPaths` computes from the split paths), groups the changes into an insertion-ordered object
  from label to `{fileCount}` (`_countByAction`, a method with a loop that
  updates the object step by step), and renders each entry as
  `"<label> <n> file"` plus `"s"` unless `n` is 1.
- `message.dfy` (module `Message`, from `src/generate/message.ts`): `_title`,
  `oneChange` and `namedFiles`, with the thrown `Error` as an `Err` result.
- `decimal.dfy` (module `Decimal`): how a template literal writes an
  integer, with the reader that inverts it.
- `imports.dfy` (module `Imports`): the change record, the two `ACTION`
  constants the code compares against, `equal` given by its contract, and
  the record of helpers the message module calls.

The helpers imported from `../git/parseOutput`, `../lib/paths` and
`./action` (`parseDiffIndex`, `lookupDiffIndexAction`, `moveOrRenameFile`,
`formatPath`, `humanList`, `_join`, `splitPath`, `moveOrRenameFromPaths`) are
not part of this model. They are function-valued parameters, so every
property below holds for any implementation of them. `equal` is defined as
"every element equals every other", the one property `namedFiles` relies on.

The header of `count.ts` (lines 7-9) shows messages such as "create 5
files" and "update 16 files and delete 2 files", that is, labels that are
action names. `_moveOrRenameFromChange` (count.ts:21-22) does not look the
code up: it keeps the raw `item.x` whenever `item.x` differs from `ACTION.R`,
and the model does the same, so `Count.TallyExample` counts `"A"`, `"A"`,
`"M"` under keys `"A"` and `"M"`. In `message.ts` (lines 42-44) the same
field `x` is a one-letter code that is passed to `lookupDiffIndexAction`
before it is compared with `ACTION.R`. If `count.ts` receives such codes,
then with `ACTION.R` being `"rename"` the comparison at count.ts:21 never
holds: a rename code `"R"` is counted under `"R"`, and the
`moveOrRenameFromPaths` branch is reached only when `x` holds the word
`"rename"` itself (`Count.ActionCodeKeptAsLabel`). The values the callers
put in `x` are not part of this model, so this stays an observation.
`countByActionMsg` spells the fragment format out again instead of calling
`_formatOne`; `Count.Fragments` proves the two agree.

## Model

| member | source | states |
|---|---|---|
| `Count.MoveOrRenameFromChange` | src/generate/count.ts:20-29 | a non-rename keeps its raw action code as label; a rename's label is `moveOrRenameFromPaths` of the split `from` and `to` paths |
| `Count.RenameLabelDependsOnSplitPaths` | src/generate/count.ts:25-28 | two renames whose paths split alike get the same label, whatever the path strings |
| `Count.ActionCodeKeptAsLabel` | src/generate/count.ts:21-22 | a one-character action code is never equal to `"rename"`, so it is its own label and the rename branch is not taken |
| `Count.Labels` | src/generate/count.ts:37-38 | one label per change, in input order |
| `Count.Bump` | src/generate/count.ts:40-41 | one loop step keeps the object well formed: an unseen label is appended to the keys with count 1, a seen label keeps the keys and only its own count goes up by one |
| `Count.Tally` | src/generate/count.ts:37-42 | the object built from a list of labels is well formed and has no more keys than there are labels |
| `Count.CountByAction` | src/generate/count.ts:34-45 | the loop builds exactly the object `Tally` describes; keys are distinct and match the counts' domain, counts sum to the number of changes, each count is at least 1, empty input gives an empty object |
| `Count.TallyCounts` | src/generate/count.ts:37-42 | the keys are exactly the labels seen, no key twice, and each count is the number of occurrences of its label (so at least 1) |
| `Count.TallySum` | src/generate/count.ts:37-42 | the counts add up to the number of labels |
| `Count.TallyFirstSeenOrder` | src/generate/count.ts:38-41 | keys are ordered by the position where each label first occurs |
| `Count.TallySeenAgain` | src/generate/count.ts:40-41 | a label seen before adds no key, moves no key and only increments its own count |
| `Count.TallyExample` | src/generate/count.ts:34-45 | labels `A`, `A`, `M` give keys `A`, `M` with counts 2 and 1 |
| `Count.FormatOne` | src/generate/count.ts:52-56 | the fragment starts with the action and a space, and ends in `" file"` when the count is 1 and in `" files"` otherwise; a negative count is written with a minus sign |
| `Count.FormatOneCountField` | src/generate/count.ts:53-55 | the text between the action and the `file` word is the canonical decimal of the count (no leading zero) and reads back as the count |
| `Count.Fragment` | src/generate/count.ts:63-66 | the format written out inline in `countByActionMsg` is exactly `_formatOne` of the same label and count |
| `Count.Fragments` | src/generate/count.ts:62-67 | one fragment per key, in key order, each equal to `_formatOne` of the key and its count |
| `Count.CountByActionMsg` | src/generate/count.ts:61-70 | the message is `_join` applied to exactly those fragments |
| `Count.CountMessageFragments` | src/generate/count.ts:34-70 | counting a non-empty list of labels and rendering it gives at least one fragment; each starts with its label and a space, and ends in " file" exactly when that label occurred once, " files" otherwise |
| `Decimal.NatToString` | src/generate/count.ts:55 | a non-negative count is written as decimal digits with no leading zero |
| `Decimal.IntToString` | src/generate/count.ts:55 | an integer is written as an optional minus sign (present iff negative) and digits |
| `Decimal.NatToStringRoundTrip` | src/generate/count.ts:55 | reading the digits back gives the number |
| `Decimal.IntToStringRoundTrip` | src/generate/count.ts:55 | reading the signed literal back gives the integer |
| `Message.ToUpper` | src/generate/message.ts:24 | a lower-case ASCII letter becomes its upper-case letter; every other character is kept |
| `Message.Title` | src/generate/message.ts:20-25 | fails exactly on the empty string; otherwise same length, upper-cased first character, rest unchanged |
| `Message.TitleIdempotent` | src/generate/message.ts:24 | title-casing a title-cased string changes nothing |
| `Message.TitleExample` | src/generate/message.ts:20-25 | `_title("update")` is `"Update"` |
| `Message.OneChange` | src/generate/message.ts:41-52 | a rename gives `moveOrRenameFile(from, to)`; any other action gives the action with its first letter upper-cased, a space and `formatPath(from)`, and fails only when the action name is empty |
| `Message.OneChangeRenameIgnoresFormatPath` | src/generate/message.ts:44-47 | for a rename the result does not depend on `formatPath` |
| `Message.Actions` | src/generate/message.ts:62 | the action code of each line, in order |
| `Message.PathsChanged` | src/generate/message.ts:60-65 | the `from` path of each line, one per line, in input order |
| `Message.NamedFiles` | src/generate/message.ts:59-73 | if some line's action code differs from the first's, or the first's name is `unknown`, the result is `"Various changes to "` and the path list; otherwise the title-cased action name, a space and the path list, failing only when that name is empty |
| `Message.NamedFilesOfOneLine` | src/generate/message.ts:41-73 | for one line that is neither a rename nor unknown, `namedFiles` equals `oneChange` whenever `humanList` of one path is `formatPath` of it |

## Left out

- The bodies of `parseDiffIndex`, `lookupDiffIndexAction`, `moveOrRenameFile`, `formatPath`, `humanList`, `_join`, `splitPath` and `moveOrRenameFromPaths`: `../git/parseOutput`, `../lib/paths` and `./action` are not part of this model, so these are total function parameters whose results are otherwise unconstrained. Properties that depend on them (a count message containing the word "file", the move/rename classification rule) are not stated.
- `../lib/constants` is not part of this model: `ACTION.R` is assumed to be `"rename"` and `ACTION.UNKNOWN` to be `"unknown"`; only `Count.ActionCodeKeptAsLabel` depends on these values.
- Message.OneChange: the helpers are assumed never to throw; an error thrown by `parseDiffIndex` (a malformed line), `lookupDiffIndexAction`, `moveOrRenameFile` or `formatPath` would propagate out of `oneChange`, and the model's only error is an empty action name.
- Message.NamedFiles: the helpers are assumed never to throw; an error thrown by `parseDiffIndex`, `lookupDiffIndexAction` or `humanList` would propagate out of `namedFiles`, and the model's only error is an empty action name.
- Message.ToUpper: full Unicode `toUpperCase` is not modelled (some characters expand to two, e.g. "ß" to "SS"); only ASCII letters are upper-cased and every other character is kept, so `Title` preserves length.
- Count.CountByAction: assumes labels are not integer-like strings (for which `Object.keys` lists keys in numeric order rather than insertion order) and are not names inherited from `Object.prototype` such as `constructor` (for which `result[action]` would already be set).
- Message.NamedFiles: requires at least one line; on an empty list `actions[0]` is undefined and `humanList([])` behaves in a way not part of this model.
- Count.FormatOne: takes an integer count; a non-integral or very large JavaScript `number` (written in exponent form from 1e21) is not modelled.
- The command-line program that runs git and writes the commit is I/O and is not part of this model.
