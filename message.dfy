/**
 * Commit messages that name the changed files (`src/generate/message.ts`),
 * e.g. "Update foo.txt" or "Update foo.txt and bar.txt".
 *
 * `parseDiffIndex`, `lookupDiffIndexAction`, `moveOrRenameFile`,
 * `formatPath` and `humanList` are not part of this model: they arrive in a
 * `MessageDeps` value, and every property here holds for any of them.
 */
module Message {
  import opened Imports

  predicate IsLower(c: char)
  {
    'a' <= c <= 'z'
  }

  predicate IsUpper(c: char)
  {
    'A' <= c <= 'Z'
  }

  /** `String.prototype.toUpperCase` on one character, over ASCII. */
  function ToUpper(c: char): (u: char)
    ensures IsLower(c) ==> IsUpper(u) && u as int == c as int - 32
    ensures !IsLower(c) ==> u == c
  {
    if IsLower(c) then (c as int - 32) as char else c
  }

  /** `_title`: upper-case the first character, keep the rest; an empty
      string is an error. */
  function Title(value: string): (r: Result<string>)
    ensures r.Err? <==> value == []
    ensures r.Ok? ==> |r.value| == |value| && r.value[0] == ToUpper(value[0])
    ensures r.Ok? ==> r.value[1..] == value[1..]
  {
    if |value| == 0 then Err("Cannot have empty string for applying title")
    else Ok([ToUpper(value[0])] + value[1..])
  }

  /** Title-casing twice is title-casing once. */
  lemma TitleIdempotent(value: string)
    requires value != []
    ensures Title(value).Ok? && Title(Title(value).value) == Title(value)
  {
  }

  /** `_title("update")` is "Update". */
  lemma TitleExample()
    ensures Title("update") == Ok("Update")
  {
    assert ToUpper('u') == 'U';
    assert [ToUpper('u')] + "update"[1..] == "Update";
  }

  /** `oneChange`: a rename is described by `moveOrRenameFile`; any other
      change as "<Title-cased action> <formatted path>". */
  function OneChange(line: string, deps: MessageDeps): (r: Result<string>)
    ensures var c := deps.parseDiffIndex(line);
            var action := deps.lookupDiffIndexAction(c.x);
            && (action == ACTION_R ==> r == Ok(deps.moveOrRenameFile(c.from, c.to)))
            && (action != ACTION_R ==> (r.Ok? <==> action != []))
            && (action != ACTION_R && action != [] ==>
                  r.value == [ToUpper(action[0])] + action[1..] + " " + deps.formatPath(c.from))
  {
    var c := deps.parseDiffIndex(line);
    var action := deps.lookupDiffIndexAction(c.x);
    if action == ACTION_R then Ok(deps.moveOrRenameFile(c.from, c.to))
    else
      var outputPath := deps.formatPath(c.from);
      match Title(action)
      case Err(e) => Err(e)
      case Ok(t) => Ok(t + " " + outputPath)
  }

  /** A rename neither formats its path nor title-cases its action: the
      result is the same whatever `formatPath` does. */
  lemma OneChangeRenameIgnoresFormatPath(line: string, deps: MessageDeps, formatPath: string -> string)
    requires deps.lookupDiffIndexAction(deps.parseDiffIndex(line).x) == ACTION_R
    ensures OneChange(line, deps) == OneChange(line, deps.(formatPath := formatPath))
  {
  }

  /** The `x` of each parsed line, in order. */
  function Actions(lines: seq<string>, deps: MessageDeps): (actions: seq<string>)
    ensures |actions| == |lines|
    ensures forall i :: 0 <= i < |lines| ==> actions[i] == deps.parseDiffIndex(lines[i]).x
  {
    seq(|lines|, i requires 0 <= i < |lines| => deps.parseDiffIndex(lines[i]).x)
  }

  /** The `from` path of each parsed line, in order: one per line. */
  function PathsChanged(lines: seq<string>, deps: MessageDeps): (paths: seq<string>)
    ensures |paths| == |lines|
    ensures forall i :: 0 <= i < |lines| ==> paths[i] == deps.parseDiffIndex(lines[i]).from
  {
    seq(|lines|, i requires 0 <= i < |lines| => deps.parseDiffIndex(lines[i]).from)
  }

  /**
   * `namedFiles`: when every line has the same action code and that code
   * has a known name, "<Title-cased action> <list of paths>"; otherwise
   * "Various changes to <list of paths>".
   */
  function NamedFiles(lines: seq<string>, deps: MessageDeps): (r: Result<string>)
    requires |lines| > 0
    ensures var first := deps.parseDiffIndex(lines[0]).x;
            var action := deps.lookupDiffIndexAction(first);
            var fileList := deps.humanList(PathsChanged(lines, deps));
            var mixed := exists i :: 0 <= i < |lines| && deps.parseDiffIndex(lines[i]).x != first;
            && (mixed || action == ACTION_UNKNOWN ==> r == Ok("Various changes to " + fileList))
            && (!mixed && action != ACTION_UNKNOWN ==> (r.Ok? <==> action != []))
            && (!mixed && action != ACTION_UNKNOWN && action != [] ==>
                  r.value == [ToUpper(action[0])] + action[1..] + " " + fileList)
  {
    var actions := Actions(lines, deps);
    var action := if Equal(actions) then deps.lookupDiffIndexAction(actions[0]) else ACTION_UNKNOWN;
    var pathsChanged := PathsChanged(lines, deps);
    var fileList := deps.humanList(pathsChanged);
    if action == ACTION_UNKNOWN then Ok("Various changes to " + fileList)
    else
      match Title(action)
      case Err(e) => Err(e)
      case Ok(t) => Ok(t + " " + fileList)
  }

  /** On a single line that is neither a rename nor unknown, `namedFiles`
      and `oneChange` agree whenever listing one path is formatting it. */
  lemma NamedFilesOfOneLine(line: string, deps: MessageDeps)
    requires deps.lookupDiffIndexAction(deps.parseDiffIndex(line).x) != ACTION_R
    requires deps.lookupDiffIndexAction(deps.parseDiffIndex(line).x) != ACTION_UNKNOWN
    requires var p := deps.parseDiffIndex(line).from; deps.humanList([p]) == deps.formatPath(p)
    ensures NamedFiles([line], deps) == OneChange(line, deps)
  {
    assert PathsChanged([line], deps) == [deps.parseDiffIndex(line).from];
  }
}
