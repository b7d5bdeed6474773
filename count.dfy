/**
 * Grouping file changes by action and rendering a count for each
 * (`src/generate/count.ts`), e.g. "update 16 files and delete 2 files".
 *
 * `splitPath`, `moveOrRenameFromPaths` and `_join` come from `../lib/paths`,
 * which is not part of this model: they are function-valued parameters, and
 * `P` stands for whatever `splitPath` returns.
 */
module Count {
  import opened Imports
  import opened Decimal

  /** `_moveOrRenameFromChange`: the label of one change. */
  function MoveOrRenameFromChange<P>(item: FileChange, splitPath: string -> P,
                                     moveOrRenameFromPaths: (P, P) -> string): (name: string)
    ensures item.x != ACTION_R ==> name == item.x
    ensures item.x == ACTION_R ==> name == moveOrRenameFromPaths(splitPath(item.from), splitPath(item.to))
  {
    if item.x != ACTION_R then item.x
    else
      var oldP := splitPath(item.from);
      var newP := splitPath(item.to);
      moveOrRenameFromPaths(oldP, newP)
  }

  /** The label of a rename is determined by the split paths alone: two
      renames whose paths split alike get the same label, whatever their
      path strings are. */
  lemma RenameLabelDependsOnSplitPaths<P>(a: FileChange, b: FileChange, splitPath: string -> P,
                                          moveOrRenameFromPaths: (P, P) -> string)
    requires a.x == ACTION_R && b.x == ACTION_R
    requires splitPath(a.from) == splitPath(b.from) && splitPath(a.to) == splitPath(b.to)
    ensures MoveOrRenameFromChange(a, splitPath, moveOrRenameFromPaths)
         == MoveOrRenameFromChange(b, splitPath, moveOrRenameFromPaths)
  {
  }

  /** With `ACTION.R` taken as "rename", no one-character action code takes
      the rename branch: a rename code such as "R" is counted under itself. */
  lemma ActionCodeKeptAsLabel<P>(item: FileChange, splitPath: string -> P,
                                 moveOrRenameFromPaths: (P, P) -> string)
    requires |item.x| == 1
    ensures MoveOrRenameFromChange(item, splitPath, moveOrRenameFromPaths) == item.x
  {
  }

  /** The label of every change, in input order. */
  function Labels<P>(changes: seq<FileChange>, splitPath: string -> P,
                     moveOrRenameFromPaths: (P, P) -> string): (labels: seq<string>)
    ensures |labels| == |changes|
    ensures forall i :: 0 <= i < |changes| ==>
      labels[i] == MoveOrRenameFromChange(changes[i], splitPath, moveOrRenameFromPaths)
  {
    seq(|changes|, i requires 0 <= i < |changes| =>
      MoveOrRenameFromChange(changes[i], splitPath, moveOrRenameFromPaths))
  }

  /**
   * `FileChangesByAction`: a JavaScript object from label to `{fileCount}`.
   * `keys` is the order `Object.keys` lists them in (insertion order, since
   * labels are not integer-like strings) and `fileCount` the count of each.
   */
  datatype ByAction = ByAction(keys: seq<string>, fileCount: map<string, int>)

  /** No key twice, and the keys are exactly the domain of the counts. */
  ghost predicate Valid(t: ByAction)
  {
    && (forall i, j :: 0 <= i < j < |t.keys| ==> t.keys[i] != t.keys[j])
    && (forall k :: k in t.fileCount <==> k in t.keys)
  }

  const Empty: ByAction := ByAction([], map[])

  /** One loop step: `result[action] = result[action] || {fileCount: 0}`
      then `result[action].fileCount++`. */
  function Bump(t: ByAction, name: string): (r: ByAction)
    ensures Valid(t) ==> Valid(r)
    ensures r.fileCount
         == t.fileCount[name := (if name in t.fileCount then t.fileCount[name] else 0) + 1]
    ensures r.keys == if name in t.fileCount then t.keys else t.keys + [name]
  {
    if name in t.fileCount then ByAction(t.keys, t.fileCount[name := t.fileCount[name] + 1])
    else ByAction(t.keys + [name], t.fileCount[name := 1])
  }

  /** The object `_countByAction` builds from the labels of its input. */
  function Tally(labels: seq<string>): (r: ByAction)
    ensures Valid(r)
    ensures |r.keys| <= |labels|
  {
    if labels == [] then Empty
    else Bump(Tally(labels[..|labels| - 1]), labels[|labels| - 1])
  }

  /** Counting one more label is one `Bump`. */
  lemma TallyStep(labels: seq<string>, i: nat)
    requires i < |labels|
    ensures Tally(labels[..i + 1]) == Bump(Tally(labels[..i]), labels[i])
  {
    assert labels[..i + 1][..i] == labels[..i];
  }

  /** `_countByAction`: one pass over the changes, updating the object in place. */
  method CountByAction<P>(changes: seq<FileChange>, splitPath: string -> P,
                          moveOrRenameFromPaths: (P, P) -> string) returns (result: ByAction)
    ensures result == Tally(Labels(changes, splitPath, moveOrRenameFromPaths))
    ensures Valid(result)
    ensures SumCounts(result.keys, result.fileCount) == |changes|
    ensures forall k :: k in result.fileCount ==> result.fileCount[k] >= 1
    ensures changes == [] ==> result.keys == [] && result.fileCount == map[]
  {
    ghost var labels := Labels(changes, splitPath, moveOrRenameFromPaths);
    var keys: seq<string> := [];
    var fileCount: map<string, int> := map[];
    for i := 0 to |changes|
      invariant ByAction(keys, fileCount) == Tally(labels[..i])
    {
      ghost var before := ByAction(keys, fileCount);
      var action := MoveOrRenameFromChange(changes[i], splitPath, moveOrRenameFromPaths);
      if action !in fileCount {
        keys := keys + [action];
        fileCount := fileCount[action := 0];
      }
      fileCount := fileCount[action := fileCount[action] + 1];
      assert fileCount == before.fileCount[action := fileCount[action]];
      assert ByAction(keys, fileCount) == Bump(before, action);
      TallyStep(labels, i);
    }
    assert labels[..|changes|] == labels;
    result := ByAction(keys, fileCount);
    assert SumCounts(result.keys, result.fileCount) == |changes|
        && forall k :: k in result.fileCount ==> result.fileCount[k] >= 1
    by {
      TallyCounts(labels);
      TallySum(labels);
    }
  }

  /** Sum of the counts of `keys`, in key order. */
  function SumCounts(keys: seq<string>, m: map<string, int>): int
    requires forall k :: k in keys ==> k in m
  {
    if keys == [] then 0 else SumCounts(keys[..|keys| - 1], m) + m[keys[|keys| - 1]]
  }

  lemma {:induction false} SumCountsFrame(keys: seq<string>, m1: map<string, int>, m2: map<string, int>)
    requires forall k :: k in keys ==> k in m1 && k in m2 && m1[k] == m2[k]
    ensures SumCounts(keys, m1) == SumCounts(keys, m2)
  {
    if keys != [] {
      SumCountsFrame(keys[..|keys| - 1], m1, m2);
    }
  }

  lemma {:induction false} SumCountsBump(keys: seq<string>, m: map<string, int>, x: string)
    requires forall i, j :: 0 <= i < j < |keys| ==> keys[i] != keys[j]
    requires forall k :: k in keys ==> k in m
    requires x in keys
    ensures SumCounts(keys, m[x := m[x] + 1]) == SumCounts(keys, m) + 1
  {
    var init := keys[..|keys| - 1];
    var last := keys[|keys| - 1];
    if last == x {
      assert x !in init by {
        forall i | 0 <= i < |init| ensures init[i] != x {
          assert init[i] == keys[i];
        }
      }
      SumCountsFrame(init, m[x := m[x] + 1], m);
    } else {
      assert x in init by {
        var i :| 0 <= i < |keys| && keys[i] == x;
        assert init[i] == x;
      }
      SumCountsBump(init, m, x);
    }
  }

  /** The object's shape: keys are exactly the labels seen, each count is
      the number of times its label occurs, so every count is at least 1. */
  lemma {:induction false} TallyCounts(labels: seq<string>)
    ensures Valid(Tally(labels))
    ensures forall k :: k in Tally(labels).keys <==> k in labels
    ensures forall k :: k in Tally(labels).fileCount ==>
      Tally(labels).fileCount[k] == multiset(labels)[k] >= 1
  {
    if labels != [] {
      var init := labels[..|labels| - 1];
      var last := labels[|labels| - 1];
      TallyCounts(init);
      assert labels == init + [last];
      assert multiset(labels) == multiset(init) + multiset{last};
    }
  }

  /** The counts add up to the number of changes. */
  lemma {:induction false} TallySum(labels: seq<string>)
    ensures Valid(Tally(labels))
    ensures SumCounts(Tally(labels).keys, Tally(labels).fileCount) == |labels|
  {
    if labels != [] {
      var init := labels[..|labels| - 1];
      var last := labels[|labels| - 1];
      var t := Tally(init);
      TallySum(init);
      assert Tally(labels) == Bump(t, last);
      if last in t.fileCount {
        SumCountsBump(t.keys, t.fileCount, last);
      } else {
        var u := Tally(labels);
        assert u.keys == t.keys + [last] && u.keys[..|t.keys|] == t.keys;
        SumCountsFrame(t.keys, t.fileCount, u.fileCount);
      }
    }
  }

  /** Index of the first occurrence of `x` in `s`. */
  function FirstIndex(s: seq<string>, x: string): (i: nat)
    requires x in s
    ensures i < |s| && s[i] == x
    ensures forall j :: 0 <= j < i ==> s[j] != x
  {
    if s[0] == x then 0 else 1 + FirstIndex(s[1..], x)
  }

  lemma FirstIndexAppend(s: seq<string>, y: string, x: string)
    requires x in s
    ensures FirstIndex(s + [y], x) == FirstIndex(s, x)
  {
    var a, b := FirstIndex(s + [y], x), FirstIndex(s, x);
    assert (s + [y])[b] == x;
    assert a <= b;
    assert s[a] == (s + [y])[a];
  }

  /** `keys` lists labels in the order they first occur in `labels`. */
  ghost predicate InFirstSeenOrder(keys: seq<string>, labels: seq<string>)
  {
    && (forall i :: 0 <= i < |keys| ==> keys[i] in labels)
    && (forall i, j :: 0 <= i < j < |keys| ==>
          FirstIndex(labels, keys[i]) < FirstIndex(labels, keys[j]))
  }

  /** Keys are listed in the order their labels are first seen. */
  lemma {:induction false} TallyFirstSeenOrder(labels: seq<string>)
    ensures InFirstSeenOrder(Tally(labels).keys, labels)
  {
    if labels != [] {
      var init := labels[..|labels| - 1];
      var last := labels[|labels| - 1];
      var t := Tally(init);
      TallyFirstSeenOrder(init);
      assert forall k :: k in t.keys <==> k in init by {
        TallyCounts(init);
      }
      assert labels == init + [last];
      assert Tally(labels) == Bump(t, last);
      var keys := Tally(labels).keys;
      forall i | 0 <= i < |t.keys|
        ensures keys[i] == t.keys[i] && keys[i] in labels
        ensures FirstIndex(labels, keys[i]) == FirstIndex(init, keys[i]) < |init|
      {
        FirstIndexAppend(init, last, t.keys[i]);
      }
      if last in t.fileCount {
        assert keys == t.keys;
      } else {
        assert keys == t.keys + [last];
        assert last !in init;
        assert FirstIndex(labels, last) == |init| by {
          assert labels[|init|] == last;
        }
      }
    }
  }

  /** A label already seen adds no key and moves no key: it only increments
      its own count. */
  lemma {:induction false} TallySeenAgain(labels: seq<string>, seen: string)
    requires seen in labels
    ensures seen in Tally(labels).fileCount
    ensures Tally(labels + [seen]).keys == Tally(labels).keys
    ensures Tally(labels + [seen]).fileCount
         == Tally(labels).fileCount[seen := Tally(labels).fileCount[seen] + 1]
  {
    TallyCounts(labels);
    assert (labels + [seen])[..|labels|] == labels;
  }

  /** `_countByAction` on labels "A", "A", "M": `{A: {fileCount: 2}, M: {fileCount: 1}}`. */
  lemma TallyExample()
    ensures Tally(["A", "A", "M"]) == ByAction(["A", "M"], map["A" := 2, "M" := 1])
  {
    assert ["A", "A", "M"][..2] == ["A", "A"];
    assert ["A", "A"][..1] == ["A"];
  }

  /** `_formatOne`: "<action> <count> file", plus "s" unless the count is 1. */
  function FormatOne(action: string, count: int): (r: string)
    ensures |r| >= |action| + 7
    ensures r[..|action| + 1] == action + " "
    ensures count == 1 ==> r[|r| - 5..] == " file"
    ensures count != 1 ==> r[|r| - 6..] == " files"
    ensures count < 0 ==> r[|action| + 1] == '-'
  {
    var plural := if count == 1 then "" else "s";
    action + " " + IntToString(count) + " file" + plural
  }

  /** The count in a `_formatOne` fragment is the canonical decimal of the
      count, and reads back as the count given. */
  lemma FormatOneCountField(action: string, count: int)
    ensures var r := FormatOne(action, count);
            var field := r[|action| + 1 .. |r| - (if count == 1 then 5 else 6)];
            field == IntToString(count) && IsIntLiteral(field) && IntValue(field) == count
  {
    var r := FormatOne(action, count);
    var tail := if count == 1 then 5 else 6;
    assert r[|action| + 1 .. |r| - tail] == IntToString(count);
    IntToStringRoundTrip(count);
  }

  /** The message fragment `countByActionMsg` writes for one key; it
      spells this format out again instead of calling `_formatOne`. */
  function Fragment(action: string, count: int): (r: string)
    ensures r == FormatOne(action, count)
  {
    var plural := if count == 1 then "" else "s";
    action + " " + IntToString(count) + " file" + plural
  }

  /** One fragment per key, in key order, each the `_formatOne` of its key
      and count. */
  function Fragments(t: ByAction): (msgs: seq<string>)
    requires Valid(t)
    ensures |msgs| == |t.keys|
    ensures forall i :: 0 <= i < |t.keys| ==>
      msgs[i] == FormatOne(t.keys[i], t.fileCount[t.keys[i]])
  {
    seq(|t.keys|, i requires 0 <= i < |t.keys| => Fragment(t.keys[i], t.fileCount[t.keys[i]]))
  }

  /** `countByActionMsg`: the fragments joined by `_join`. */
  function CountByActionMsg(t: ByAction, join: seq<string> -> string): (msg: string)
    requires Valid(t)
    ensures msg == join(Fragments(t))
  {
    var msgs := Fragments(t);
    join(msgs)
  }

  /**
   * `countByActionMsg` after `_countByAction`: a non-empty list of changes
   * gives at least one fragment; each fragment names its label and says
   * " file" exactly when that label occurred once, " files" otherwise.
   */
  lemma {:induction false} CountMessageFragments(labels: seq<string>)
    requires |labels| > 0
    ensures |Fragments(Tally(labels))| >= 1
    ensures forall i :: 0 <= i < |Tally(labels).keys| ==>
      var k := Tally(labels).keys[i];
      var f := Fragments(Tally(labels))[i];
      && |f| >= |k| + 7
      && f[..|k| + 1] == k + " "
      && (multiset(labels)[k] == 1 ==> f[|f| - 5..] == " file")
      && (multiset(labels)[k] != 1 ==> f[|f| - 6..] == " files")
  {
    var t := Tally(labels);
    TallyCounts(labels);
    assert labels[0] in t.keys;
  }
}
