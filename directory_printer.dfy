/**
 * The directory tree printer script: it lists a directory's entries in
 * listing order, one line per entry, each line drawn with a branch connector,
 * and descends into every subdirectory with a longer prefix.
 *
 * The file system is replaced by a tree of entries, and the console by the
 * returned list of lines. As written, each line repeats the prefix it is
 * given (`prefix + newPrefix + file`, where `newPrefix` already begins with
 * `prefix`); the model keeps that, so nested lines are indented twice as far
 * as the parent's connector suggests.
 */
module DirectoryPrinter {
  import opened JsBuiltins

  /** A directory entry: a file, or a directory with its listing in order. */
  datatype Entry = File(name: JsString) | Dir(name: JsString, children: seq<Entry>)

  /** The branch drawn before an entry's name. */
  function Connector(isLast: bool): JsString
  {
    if isLast then "└── " else "├── "
  }

  /** What the prefix grows by for the contents of a subdirectory. */
  function Indent(isLast: bool): JsString
  {
    if isLast then "    " else "│   "
  }

  /** `printDirectoryStructure(dir, prefix)`: the lines printed for the
      contents of `dir`. */
  function PrintDirectoryStructure(dir: Entry, prefix: JsString): seq<JsString>
    requires dir.Dir?
    decreases dir, 1
  {
    PrintEntries(dir, 0, prefix)
  }

  /** The `forEach` over the listing of `dir`, from position `index` on. */
  function PrintEntries(dir: Entry, index: nat, prefix: JsString): seq<JsString>
    requires dir.Dir? && index <= |dir.children|
    decreases dir, 0, |dir.children| - index
  {
    if index == |dir.children| then []
    else
      var file := dir.children[index];
      var isLast := index == |dir.children| - 1;
      var newPrefix := prefix + Connector(isLast);
      [prefix + newPrefix + file.name]
      + (if file.Dir? then PrintDirectoryStructure(file, prefix + Indent(isLast)) else [])
      + PrintEntries(dir, index + 1, prefix)
  }

  /** The number of entries in a forest of entries, at every depth. */
  function EntryCount(entries: seq<Entry>): nat
    decreases entries
  {
    if entries == [] then 0
    else 1 + (if entries[0].Dir? then EntryCount(entries[0].children) else 0) + EntryCount(entries[1..])
  }

  /** An entry's name with its depth below the printed directory. */
  datatype Item = Item(name: JsString, depth: nat)

  /** The entries of a forest in pre-order (each directory followed by its
      contents), the outermost at depth `depth`. */
  function Preorder(entries: seq<Entry>, depth: nat): (items: seq<Item>)
    ensures |items| == EntryCount(entries)
    decreases entries
  {
    if entries == [] then []
    else
      [Item(entries[0].name, depth)]
      + (if entries[0].Dir? then Preorder(entries[0].children, depth + 1) else [])
      + Preorder(entries[1..], depth)
  }

  /**
   * `line` is what the printer shows for `item` under a call with `prefix`
   * whose entries sit at depth `depth`: it begins with the prefix, ends with
   * the item's name, and every level below adds 4 characters to the prefix,
   * which appears twice, before a 4-character connector.
   */
  predicate LineFor(line: JsString, prefix: JsString, depth: nat, item: Item)
  {
    && depth <= item.depth
    && |line| == 2 * |prefix| + 8 * (item.depth - depth) + 4 + |item.name|
    && line[..|prefix|] == prefix
    && line[|line| - |item.name|..] == item.name
  }

  /** An entry's own line fits `LineFor` at the depth of its call. */
  lemma OwnLineFits(prefix: JsString, isLast: bool, name: JsString, depth: nat)
    ensures LineFor(prefix + (prefix + Connector(isLast)) + name, prefix, depth, Item(name, depth))
  {
    var line := prefix + (prefix + Connector(isLast)) + name;
    assert line[..|prefix|] == prefix;
    assert line[|line| - |name|..] == name;
  }

  /** A line that fits one level down, under the prefix grown by an indent,
      fits this level too. */
  lemma DeeperLineFits(line: JsString, prefix: JsString, isLast: bool, depth: nat, item: Item)
    requires LineFor(line, prefix + Indent(isLast), depth + 1, item)
    ensures LineFor(line, prefix, depth, item)
  {
    var deeper := prefix + Indent(isLast);
    assert line[..|prefix|] == line[..|deeper|][..|prefix|];
  }

  /** Line-by-line correspondence carries over to concatenations. */
  lemma ConcatFits(lines1: seq<JsString>, items1: seq<Item>, lines2: seq<JsString>, items2: seq<Item>,
                   prefix: JsString, depth: nat)
    requires |lines1| == |items1| && |lines2| == |items2|
    requires forall k :: 0 <= k < |lines1| ==> LineFor(lines1[k], prefix, depth, items1[k])
    requires forall k :: 0 <= k < |lines2| ==> LineFor(lines2[k], prefix, depth, items2[k])
    ensures var lines, items := lines1 + lines2, items1 + items2;
            forall k :: 0 <= k < |lines| ==> LineFor(lines[k], prefix, depth, items[k])
  {
    var lines, items := lines1 + lines2, items1 + items2;
    forall k | 0 <= k < |lines| ensures LineFor(lines[k], prefix, depth, items[k]) {
      if k >= |lines1| {
        assert lines[k] == lines2[k - |lines1|] && items[k] == items2[k - |items1|];
      }
    }
  }

  /** The printed lines correspond one to one, in order, to the entries
      from position `index` on, listed in pre-order. */
  lemma {:induction false} EntriesMatchPreorder(dir: Entry, index: nat, prefix: JsString, depth: nat)
    requires dir.Dir? && index <= |dir.children|
    ensures var out := PrintEntries(dir, index, prefix);
            var items := Preorder(dir.children[index..], depth);
            && |out| == |items|
            && forall k :: 0 <= k < |out| ==> LineFor(out[k], prefix, depth, items[k])
    decreases dir, |dir.children| - index
  {
    var entries := dir.children[index..];
    if index < |dir.children| {
      var file := dir.children[index];
      var isLast := index == |dir.children| - 1;
      var line := prefix + (prefix + Connector(isLast)) + file.name;
      var deeper := prefix + Indent(isLast);
      var sub := if file.Dir? then PrintDirectoryStructure(file, deeper) else [];
      var subItems := if file.Dir? then Preorder(file.children, depth + 1) else [];
      var rest := PrintEntries(dir, index + 1, prefix);
      var restItems := Preorder(dir.children[index + 1..], depth);
      assert entries[0] == file && entries[1..] == dir.children[index + 1..];
      assert Preorder(entries, depth) == [Item(file.name, depth)] + subItems + restItems;

      OwnLineFits(prefix, isLast, file.name, depth);
      if file.Dir? {
        EntriesMatchPreorder(file, 0, deeper, depth + 1);
        assert file.children[0..] == file.children;
        forall k | 0 <= k < |sub| ensures LineFor(sub[k], prefix, depth, subItems[k]) {
          DeeperLineFits(sub[k], prefix, isLast, depth, subItems[k]);
        }
      }
      EntriesMatchPreorder(dir, index + 1, prefix, depth);
      ConcatFits([line], [Item(file.name, depth)], sub, subItems, prefix, depth);
      ConcatFits([line] + sub, [Item(file.name, depth)] + subItems, rest, restItems, prefix, depth);
    }
  }

  /**
   * Printing a directory yields exactly one line per entry below it, in
   * pre-order: the line for an entry at depth `d` (0 for the directory's own
   * entries) ends with its name and, from the top-level call's empty prefix,
   * is 8 * d + 4 characters longer than that name.
   */
  lemma LinesMatchEntries(dir: Entry)
    requires dir.Dir?
    ensures var out := PrintDirectoryStructure(dir, "");
            var items := Preorder(dir.children, 0);
            && |out| == |items| == EntryCount(dir.children)
            && forall k :: 0 <= k < |out| ==>
                 && |out[k]| == 8 * items[k].depth + 4 + |items[k].name|
                 && out[k][|out[k]| - |items[k].name|..] == items[k].name
  {
    EntriesMatchPreorder(dir, 0, "", 0);
    assert dir.children[0..] == dir.children;
  }

  /**
   * The lines for the entries of `dir` from position `index` on end the
   * output of `dir`, and the first of them is the entry's own line: the
   * prefix twice, the connector ('└── ' for the last entry, '├── ' for the
   * others), and the entry's name.
   */
  lemma {:induction false} EntryLineInOutput(dir: Entry, index: nat, prefix: JsString)
    requires dir.Dir? && index < |dir.children|
    ensures var out := PrintDirectoryStructure(dir, prefix);
            var rest := PrintEntries(dir, index, prefix);
            var isLast := index == |dir.children| - 1;
            && |rest| <= |out| && out[|out| - |rest|..] == rest
            && out[|out| - |rest|] == prefix + (prefix + Connector(isLast)) + dir.children[index].name
    decreases index
  {
    var out := PrintDirectoryStructure(dir, prefix);
    var rest := PrintEntries(dir, index, prefix);
    if index > 0 {
      EntryLineInOutput(dir, index - 1, prefix);
      var before := PrintEntries(dir, index - 1, prefix);
      var file := dir.children[index - 1];
      var head := [prefix + (prefix + Connector(false)) + file.name]
        + (if file.Dir? then PrintDirectoryStructure(file, prefix + Indent(false)) else []);
      assert before == head + rest;
      assert out[|out| - |rest|..] == before[|head|..];
    }
  }

  /**
   * The lines for one entry's subdirectory follow that entry's own line
   * directly, printed with the prefix grown by '    ' after the last entry
   * and by '│   ' after any other; a file's line is followed directly by the
   * next entry's line.
   */
  lemma EntryBlock(dir: Entry, index: nat, prefix: JsString)
    requires dir.Dir? && index < |dir.children|
    ensures var rest := PrintEntries(dir, index, prefix);
            var file := dir.children[index];
            var isLast := index == |dir.children| - 1;
            var sub := if file.Dir? then PrintDirectoryStructure(file, prefix + Indent(isLast)) else [];
            && |rest| == 1 + |sub| + |PrintEntries(dir, index + 1, prefix)|
            && rest[1..1 + |sub|] == sub
            && rest[1 + |sub|..] == PrintEntries(dir, index + 1, prefix)
  {
  }

  /** A directory with nothing in it prints nothing. */
  lemma EmptyDirectoryPrintsNothing(name: JsString, prefix: JsString)
    ensures PrintDirectoryStructure(Dir(name, []), prefix) == []
  {
  }

  /**
   * A small tree that shows the repeated prefix: "b" sits one level down,
   * yet its line carries the rail '│   ' twice.
   */
  lemma DoubledPrefixExample()
    ensures PrintDirectoryStructure(Dir(".", [Dir("a", [File("b")]), File("c")]), "")
            == ["├── a", "│   │   └── b", "└── c"]
  {
    var a := Dir("a", [File("b")]);
    var root := Dir(".", [a, File("c")]);
    assert "│   " + ("│   " + "└── ") + "b" == "│   │   └── b";
    assert PrintEntries(a, 0, "│   ") == ["│   │   └── b"];
    assert "" + ("" + "└── ") + "c" == "└── c";
    assert PrintEntries(root, 1, "") == ["└── c"];
    assert "" + ("" + "├── ") + "a" == "├── a";
    assert "" + Indent(false) == "│   ";
    assert PrintEntries(root, 0, "") == ["├── a"] + PrintDirectoryStructure(a, "│   ") + ["└── c"];
  }

  /** Why the script could not print. */
  datatype FsError = NoSuchEntry(path: JsString) | NotADirectory(path: JsString)

  /** What a run of the script produces. */
  datatype Output = Printed(lines: seq<JsString>) | Failed(error: FsError)

  /** `process.argv[2] || '.'`: the first argument, unless it is missing or
      empty, in which case the current directory. */
  function DirectoryToPrint(argv: seq<JsString>): (path: JsString)
    ensures path != ""
    ensures path == "." || (|argv| > 2 && path == argv[2])
    ensures |argv| > 2 && argv[2] != "" ==> path == argv[2]
  {
    if |argv| > 2 && argv[2] != "" then argv[2] else "."
  }

  /**
   * A run of the script against the file system `fs` (each path mapped to
   * the tree found there): the tree of the chosen directory printed from the
   * empty prefix, or the error reading it raises.
   */
  function Run(argv: seq<JsString>, fs: map<JsString, Entry>): (r: Output)
    ensures var path := DirectoryToPrint(argv);
      && (r.Printed? <==> path in fs && fs[path].Dir?)
      && (r.Failed? ==> r.error.path == path)
      && (r.Failed? ==> (r.error.NotADirectory? <==> path in fs))
      && (r.Printed? ==> r.lines == PrintDirectoryStructure(fs[path], ""))
      && (r.Printed? ==> |r.lines| == EntryCount(fs[path].children))
  {
    var path := DirectoryToPrint(argv);
    if path !in fs then Failed(NoSuchEntry(path))
    else if fs[path].File? then Failed(NotADirectory(path))
    else
      LinesMatchEntries(fs[path]);
      Printed(PrintDirectoryStructure(fs[path], ""))
  }
}
