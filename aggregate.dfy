/**
  aggregate_go.py: concatenate the .go files of a directory walk into one
  listing, a header line naming each file, keeping only the first package
  clause and the first occurrence of each single-line import. The walk is
  its result, a sequence of files with their lines (each with its line
  terminator, as Python's file iteration yields them); writing the output
  file is left out, so the result is the list of lines to be written.
 */
module AggregateGo {
  import GoStrings

  /** str.isspace: unicode.IsSpace plus the four separators \x1c..\x1f. */
  predicate PyIsSpace(c: char) {
    GoStrings.IsSpace(c) || ('\U{1C}' <= c <= '\U{1F}')
  }

  function TrimLeft(s: string): (r: string)
    ensures r == [] || !PyIsSpace(r[0])
  {
    if s != [] && PyIsSpace(s[0]) then TrimLeft(s[1..]) else s
  }

  function TrimRight(s: string): (r: string)
    ensures r == [] || !PyIsSpace(r[|r| - 1])
  {
    if s != [] && PyIsSpace(s[|s| - 1]) then TrimRight(s[..|s| - 1]) else s
  }

  /** str.strip() with no argument. */
  function Strip(s: string): string {
    TrimRight(TrimLeft(s))
  }

  predicate StartsWith(s: string, prefix: string) {
    |prefix| <= |s| && s[..|prefix|] == prefix
  }

  predicate EndsWith(s: string, suffix: string) {
    |suffix| <= |s| && s[|s| - |suffix|..] == suffix
  }

  /** One file of the walk, in os.walk order: its name and its path relative to the source directory. */
  datatype WalkedFile = WalkedFile(name: string, relativePath: string, lines: seq<string>)

  /** What the walk feeds the filter: a file header, or one line of a file. */
  datatype Item = Header(path: string) | Line(text: string)

  function HeaderLine(path: string): string {
    "\n# " + path + "\n"
  }

  function Render(item: Item): string {
    match item
    case Header(path) => HeaderLine(path)
    case Line(text) => text
  }

  function LineItems(lines: seq<string>): (items: seq<Item>)
    ensures |items| == |lines|
    ensures forall k :: 0 <= k < |lines| ==> items[k] == Line(lines[k])
  {
    seq(|lines|, k requires 0 <= k < |lines| => Line(lines[k]))
  }

  function FileItems(f: WalkedFile): seq<Item> {
    [Header(f.relativePath)] + LineItems(f.lines)
  }

  /** The items of the .go files of the walk, in walk order. */
  function Items(files: seq<WalkedFile>): seq<Item>
    decreases |files|
  {
    if files == [] then []
    else
      var n := |files| - 1;
      Items(files[..n]) + (if EndsWith(files[n].name, ".go") then FileItems(files[n]) else [])
  }

  predicate IsPackageLine(line: string) {
    StartsWith(Strip(line), "package ")
  }

  predicate IsImportLine(line: string) {
    StartsWith(Strip(line), "import ")
  }

  /** Some line among the items is a package clause: package_declared. */
  predicate PackageSeen(items: seq<Item>)
    decreases |items|
  {
    if items == [] then false
    else
      var n := |items| - 1;
      PackageSeen(items[..n]) || (items[n].Line? && IsPackageLine(items[n].text))
  }

  /** The stripped texts of the import lines among the items: imports_collected. */
  function ImportsSeen(items: seq<Item>): set<string>
    decreases |items|
  {
    if items == [] then {}
    else
      var n := |items| - 1;
      ImportsSeen(items[..n]) + (if items[n].Line? && IsImportLine(items[n].text) then {Strip(items[n].text)} else {})
  }

  /**
    Whether the item following `seen` reaches the output: a header always;
    a package clause only when none came before; an import line only when
    no earlier import line strips to the same text; any other line always.
   */
  predicate Kept(seen: seq<Item>, item: Item) {
    match item
    case Header(_) => true
    case Line(text) =>
      if IsPackageLine(text) then !PackageSeen(seen)
      else if IsImportLine(text) then Strip(text) !in ImportsSeen(seen)
      else true
  }

  /** The item at position i is kept, given the items before it. */
  predicate KeptAt(items: seq<Item>, i: int)
    requires 0 <= i < |items|
  {
    Kept(items[..i], items[i])
  }

  /** The lines of the aggregate: the rendered items that are kept, in order. */
  function Output(items: seq<Item>): seq<string>
    decreases |items|
  {
    if items == [] then []
    else
      var n := |items| - 1;
      Output(items[..n]) + (if Kept(items[..n], items[n]) then [Render(items[n])] else [])
  }

  lemma PackageSeenSnoc(items: seq<Item>, item: Item)
    ensures PackageSeen(items + [item]) <==> PackageSeen(items) || (item.Line? && IsPackageLine(item.text))
  {
    assert (items + [item])[..|items|] == items;
  }

  lemma ImportsSeenSnoc(items: seq<Item>, item: Item)
    ensures ImportsSeen(items + [item]) ==
      ImportsSeen(items) + (if item.Line? && IsImportLine(item.text) then {Strip(item.text)} else {})
  {
    assert (items + [item])[..|items|] == items;
  }

  /** A package clause at position k < n makes PackageSeen true of the first n items. */
  lemma {:induction false} PackageSeenAt(items: seq<Item>, k: nat, n: nat)
    requires k < n <= |items|
    ensures items[k].Line? && IsPackageLine(items[k].text) ==> PackageSeen(items[..n])
    decreases n
  {
    assert items[..n][..n - 1] == items[..n - 1];
    if k < n - 1 {
      PackageSeenAt(items, k, n - 1);
    }
  }

  /** PackageSeen has a witness. */
  lemma {:induction false} PackageWitness(items: seq<Item>) returns (k: nat)
    requires PackageSeen(items)
    ensures k < |items| && items[k].Line? && IsPackageLine(items[k].text)
    decreases |items|
  {
    var n := |items| - 1;
    if items[n].Line? && IsPackageLine(items[n].text) {
      k := n;
    } else {
      k := PackageWitness(items[..n]);
      assert items[..n][k] == items[k];
    }
  }

  /** The import line at position k < n has its stripped text among the imports of the first n items. */
  lemma {:induction false} ImportSeenAt(items: seq<Item>, k: nat, n: nat)
    requires k < n <= |items|
    ensures items[k].Line? && IsImportLine(items[k].text) ==> Strip(items[k].text) in ImportsSeen(items[..n])
    decreases n
  {
    assert items[..n][..n - 1] == items[..n - 1];
    if k < n - 1 {
      ImportSeenAt(items, k, n - 1);
    }
  }

  /** Every collected import text comes from an import line. */
  lemma {:induction false} ImportWitness(items: seq<Item>, t: string) returns (k: nat)
    requires t in ImportsSeen(items)
    ensures k < |items| && items[k].Line? && IsImportLine(items[k].text) && Strip(items[k].text) == t
    decreases |items|
  {
    var n := |items| - 1;
    if items[n].Line? && IsImportLine(items[n].text) && Strip(items[n].text) == t {
      k := n;
    } else {
      k := ImportWitness(items[..n], t);
      assert items[..n][k] == items[k];
    }
  }

  lemma OutputSnoc(items: seq<Item>, item: Item)
    ensures Output(items + [item]) == Output(items) + (if Kept(items, item) then [Render(item)] else [])
  {
    assert (items + [item])[..|items|] == items;
  }

  /** What one more header does to the output and to the state the filter keeps. */
  lemma HeaderStep(items: seq<Item>, path: string)
    ensures Output(items + [Header(path)]) == Output(items) + [HeaderLine(path)]
    ensures PackageSeen(items + [Header(path)]) == PackageSeen(items)
    ensures ImportsSeen(items + [Header(path)]) == ImportsSeen(items)
  {
    OutputSnoc(items, Header(path));
    PackageSeenSnoc(items, Header(path));
    ImportsSeenSnoc(items, Header(path));
  }

  lemma PackageLineStep(items: seq<Item>, line: string)
    requires IsPackageLine(line)
    ensures Output(items + [Line(line)]) == Output(items) + (if PackageSeen(items) then [] else [line])
    ensures PackageSeen(items + [Line(line)])
    ensures ImportsSeen(items + [Line(line)]) == ImportsSeen(items)
  {
    OutputSnoc(items, Line(line));
    PackageSeenSnoc(items, Line(line));
    ImportsSeenSnoc(items, Line(line));
    PackageIsNotImport(line);
  }

  lemma ImportLineStep(items: seq<Item>, line: string)
    requires !IsPackageLine(line) && IsImportLine(line)
    ensures Output(items + [Line(line)]) == Output(items) + (if Strip(line) in ImportsSeen(items) then [] else [line])
    ensures PackageSeen(items + [Line(line)]) == PackageSeen(items)
    ensures ImportsSeen(items + [Line(line)]) == ImportsSeen(items) + {Strip(line)}
  {
    OutputSnoc(items, Line(line));
    PackageSeenSnoc(items, Line(line));
    ImportsSeenSnoc(items, Line(line));
  }

  lemma PlainLineStep(items: seq<Item>, line: string)
    requires !IsPackageLine(line) && !IsImportLine(line)
    ensures Output(items + [Line(line)]) == Output(items) + [line]
    ensures PackageSeen(items + [Line(line)]) == PackageSeen(items)
    ensures ImportsSeen(items + [Line(line)]) == ImportsSeen(items)
  {
    OutputSnoc(items, Line(line));
    PackageSeenSnoc(items, Line(line));
    ImportsSeenSnoc(items, Line(line));
  }

  lemma ItemsSnoc(files: seq<WalkedFile>, i: nat)
    requires i < |files|
    ensures Items(files[..i + 1]) ==
      Items(files[..i]) + (if EndsWith(files[i].name, ".go") then FileItems(files[i]) else [])
  {
    assert files[..i + 1][..i] == files[..i];
  }

  /** The two prefixes differ in their first letter. */
  lemma PackageIsNotImport(line: string)
    ensures IsPackageLine(line) ==> !IsImportLine(line)
  {
    var st := Strip(line);
    if IsPackageLine(line) {
      assert st[..8][0] == 'p';
      assert st[..7][0] == 'p';
    }
  }

  lemma LineItemsSnoc(lines: seq<string>, j: nat)
    requires j < |lines|
    ensures LineItems(lines[..j + 1]) == LineItems(lines[..j]) + [Line(lines[j])]
  {
    assert LineItems(lines[..j + 1])[j] == Line(lines[j]);
  }

  /**
    The line loop of one .go file, after its header: `seen` is every item
    before the file's lines, which the three pieces of filter state
    summarise. The flag in_import_block is kept as the script has it; the
    invariant shows it never becomes true, because a stripped line that
    starts with "import " (with its space) can never equal "import".
   */
  method FilterLines(lines: seq<string>, ghost seen: seq<Item>,
                     packageDeclared0: bool, importsCollected0: set<string>, goCodeLines0: seq<string>)
    returns (packageDeclared: bool, importsCollected: set<string>, goCodeLines: seq<string>)
    requires goCodeLines0 == Output(seen)
    requires packageDeclared0 == PackageSeen(seen)
    requires importsCollected0 == ImportsSeen(seen)
    ensures goCodeLines == Output(seen + LineItems(lines))
    ensures packageDeclared == PackageSeen(seen + LineItems(lines))
    ensures importsCollected == ImportsSeen(seen + LineItems(lines))
  {
    packageDeclared, importsCollected, goCodeLines := packageDeclared0, importsCollected0, goCodeLines0;
    ghost var items := seen;
    var inImportBlock := false;
    for j := 0 to |lines|
      invariant items == seen + LineItems(lines[..j])
      invariant goCodeLines == Output(items)
      invariant packageDeclared == PackageSeen(items)
      invariant importsCollected == ImportsSeen(items)
      invariant !inImportBlock
    {
      var line := lines[j];
      ghost var before := items;
      items := items + [Line(line)];
      assert items == seen + LineItems(lines[..j + 1]) by {
        LineItemsSnoc(lines, j);
        assert seen + (LineItems(lines[..j]) + [Line(line)]) == before + [Line(line)];
      }
      var strippedLine := Strip(line);
      if StartsWith(strippedLine, "package ") {
        PackageLineStep(before, line);
        if !packageDeclared {
          goCodeLines := goCodeLines + [line];
          packageDeclared := true;
        }
        continue;
      }
      if StartsWith(strippedLine, "import ") {
        ImportLineStep(before, line);
        if strippedLine == "import" {
          assert false;
          inImportBlock := true;
          continue;
        }
        if strippedLine !in importsCollected {
          importsCollected := importsCollected + {strippedLine};
          goCodeLines := goCodeLines + [line];
        } else {
          assert importsCollected + {strippedLine} == importsCollected;
        }
        continue;
      }
      if inImportBlock {
        assert false;
        if strippedLine == ")" {
          inImportBlock := false;
        } else if strippedLine !in importsCollected {
          importsCollected := importsCollected + {strippedLine};
          goCodeLines := goCodeLines + [line];
        }
        continue;
      }
      PlainLineStep(before, line);
      goCodeLines := goCodeLines + [line];
    }
    assert lines[..|lines|] == lines;
  }

  /** aggregate_go_files_with_file_headers, on the walk's result. */
  method AggregateGoFiles(files: seq<WalkedFile>) returns (goCodeLines: seq<string>)
    ensures goCodeLines == Output(Items(files))
  {
    var packageDeclared := false;
    var importsCollected: set<string> := {};
    goCodeLines := [];
    for i := 0 to |files|
      invariant goCodeLines == Output(Items(files[..i]))
      invariant packageDeclared == PackageSeen(Items(files[..i]))
      invariant importsCollected == ImportsSeen(Items(files[..i]))
    {
      ItemsSnoc(files, i);
      ghost var before := Items(files[..i]);
      var file := files[i];
      if EndsWith(file.name, ".go") {
        HeaderStep(before, file.relativePath);
        goCodeLines := goCodeLines + [HeaderLine(file.relativePath)];
        ghost var items := before + [Header(file.relativePath)];
        packageDeclared, importsCollected, goCodeLines :=
          FilterLines(file.lines, items, packageDeclared, importsCollected, goCodeLines);
        assert items + LineItems(file.lines) == before + FileItems(file);
      } else {
        assert Items(files[..i + 1]) == before;
      }
    }
    assert files[..|files|] == files;
  }

  lemma TrimRightKeepsHead(s: string)
    requires s != [] && !PyIsSpace(s[0])
    ensures TrimRight(s) != [] && TrimRight(s)[0] == s[0]
  {
  }

  /** A file header strips to text starting with '#', so it is neither a package clause nor an import. */
  lemma HeaderIsPlain(path: string)
    ensures !IsPackageLine(HeaderLine(path)) && !IsImportLine(HeaderLine(path))
  {
    var h := HeaderLine(path);
    assert PyIsSpace(h[0]) && !PyIsSpace(h[1]);
    assert TrimLeft(h) == TrimLeft(h[1..]) == h[1..];
    TrimRightKeepsHead(h[1..]);
    assert Strip(h)[0] == '#';
  }

  lemma PlainRender(item: Item)
    ensures item.Header? ==> !IsPackageLine(Render(item)) && !IsImportLine(Render(item))
  {
    if item.Header? {
      HeaderIsPlain(item.path);
    }
  }

  /** The positions of the kept items. */
  function Positions(items: seq<Item>): seq<nat>
    decreases |items|
  {
    if items == [] then []
    else
      var n := |items| - 1;
      Positions(items[..n]) + (if Kept(items[..n], items[n]) then [n] else [])
  }

  lemma {:induction false} PositionsRender(items: seq<Item>)
    ensures |Positions(items)| == |Output(items)|
    ensures forall k :: 0 <= k < |Positions(items)| ==>
      Positions(items)[k] < |items| && Output(items)[k] == Render(items[Positions(items)[k]])
    ensures forall k, l :: 0 <= k < l < |Positions(items)| ==> Positions(items)[k] < Positions(items)[l]
    decreases |items|
  {
    if items != [] {
      var n := |items| - 1;
      var seen := items[..n];
      PositionsRender(seen);
      var prev := Positions(seen);
      forall k | 0 <= k < |prev| ensures Output(items)[k] == Render(items[prev[k]]) {
        assert seen[prev[k]] == items[prev[k]];
      }
    }
  }

  lemma {:induction false} PositionsKept(items: seq<Item>)
    ensures forall k :: 0 <= k < |Positions(items)| ==> Positions(items)[k] < |items| && KeptAt(items, Positions(items)[k])
    decreases |items|
  {
    if items != [] {
      var n := |items| - 1;
      var seen := items[..n];
      PositionsKept(seen);
      var prev := Positions(seen);
      forall k | 0 <= k < |prev| ensures KeptAt(items, prev[k]) {
        assert KeptAt(seen, prev[k]);
        assert seen[..prev[k]] == items[..prev[k]];
        assert seen[prev[k]] == items[prev[k]];
      }
    }
  }

  lemma {:induction false} PositionsComplete(items: seq<Item>)
    ensures forall i :: 0 <= i < |items| && KeptAt(items, i) ==> i in Positions(items)
    decreases |items|
  {
    if items != [] {
      var n := |items| - 1;
      var seen := items[..n];
      PositionsComplete(seen);
      var kept := Kept(seen, items[n]);
      assert Positions(items) == Positions(seen) + (if kept then [n] else []);
      forall i | 0 <= i < |items| && KeptAt(items, i) ensures i in Positions(items) {
        if i < n {
          assert seen[..i] == items[..i];
          assert seen[i] == items[i];
          assert KeptAt(seen, i);
          assert i in Positions(seen);
        }
      }
    }
  }

  /**
    The output keeps the items in order: it is the rendering of strictly
    increasing item positions, each kept, and every kept position is among
    them.
   */
  lemma OutputPositions(items: seq<Item>) returns (idx: seq<nat>)
    ensures |idx| == |Output(items)|
    ensures forall k :: 0 <= k < |idx| ==>
      idx[k] < |items| && Output(items)[k] == Render(items[idx[k]]) && KeptAt(items, idx[k])
    ensures forall k, l :: 0 <= k < l < |idx| ==> idx[k] < idx[l]
    ensures forall i :: 0 <= i < |items| && KeptAt(items, i) ==> i in idx
  {
    idx := Positions(items);
    PositionsRender(items);
    PositionsKept(items);
    PositionsComplete(items);
  }

  /** Headers, and lines that are neither package clauses nor imports, all reach the output in order. */
  lemma PlainItemsKept(items: seq<Item>) returns (idx: seq<nat>)
    ensures |idx| == |Output(items)|
    ensures forall k, l :: 0 <= k < l < |idx| ==> idx[k] < idx[l]
    ensures forall k :: 0 <= k < |idx| ==> idx[k] < |items| && Output(items)[k] == Render(items[idx[k]])
    ensures forall i :: 0 <= i < |items| && (items[i].Header? || (!IsPackageLine(items[i].text) && !IsImportLine(items[i].text))) ==> i in idx
  {
    idx := OutputPositions(items);
  }

  /** At most one line of the aggregate is a package clause. */
  lemma AtMostOnePackage(files: seq<WalkedFile>)
    ensures forall k, l :: 0 <= k < l < |Output(Items(files))| && IsPackageLine(Output(Items(files))[l]) ==>
      !IsPackageLine(Output(Items(files))[k])
  {
    var items := Items(files);
    var out := Output(items);
    var idx := OutputPositions(items);
    forall k, l | 0 <= k < l < |out| && IsPackageLine(out[l]) ensures !IsPackageLine(out[k]) {
      var a, b := items[idx[k]], items[idx[l]];
      PlainRender(a);
      PlainRender(b);
      PackageSeenAt(items, idx[k], idx[l]);
    }
  }

  /** No two import lines of the aggregate strip to the same text. */
  lemma DistinctImports(files: seq<WalkedFile>)
    ensures forall k, l ::
      (0 <= k < l < |Output(Items(files))| &&
       IsImportLine(Output(Items(files))[k]) && IsImportLine(Output(Items(files))[l])) ==>
      Strip(Output(Items(files))[k]) != Strip(Output(Items(files))[l])
  {
    var items := Items(files);
    var out := Output(items);
    var idx := OutputPositions(items);
    forall k, l | 0 <= k < l < |out| && IsImportLine(out[k]) && IsImportLine(out[l])
      ensures Strip(out[k]) != Strip(out[l])
    {
      var a, b := items[idx[k]], items[idx[l]];
      PlainRender(a);
      PlainRender(b);
      PackageIsNotImport(b.text);
      ImportSeenAt(items, idx[k], idx[l]);
    }
  }

  /** Every import text of the input survives: some output line is an import stripping to it. */
  lemma {:induction false} ImportsCovered(items: seq<Item>, i: nat)
    requires i < |items| && items[i].Line? && IsImportLine(items[i].text)
    ensures exists k ::
      0 <= k < |Output(items)| && IsImportLine(Output(items)[k]) && Strip(Output(items)[k]) == Strip(items[i].text)
    decreases i
  {
    var idx := OutputPositions(items);
    if KeptAt(items, i) {
      var k :| 0 <= k < |idx| && idx[k] == i;
      assert Output(items)[k] == items[i].text;
    } else {
      PackageIsNotImport(items[i].text);
      assert Strip(items[i].text) in ImportsSeen(items[..i]);
      var j := ImportWitness(items[..i], Strip(items[i].text));
      assert items[..i][j] == items[j];
      ImportsCovered(items, j);
    }
  }

  /** When the input holds a package clause, so does the aggregate. */
  lemma {:induction false} PackageCovered(items: seq<Item>, i: nat)
    requires i < |items| && items[i].Line? && IsPackageLine(items[i].text)
    ensures exists k :: 0 <= k < |Output(items)| && IsPackageLine(Output(items)[k])
    decreases i
  {
    var idx := OutputPositions(items);
    if KeptAt(items, i) {
      var k :| 0 <= k < |idx| && idx[k] == i;
      assert Output(items)[k] == items[i].text;
    } else {
      var j := PackageWitness(items[..i]);
      assert items[..i][j] == items[j];
      PackageCovered(items, j);
    }
  }

  lemma StripLiteral(line: string, body: string)
    requires |line| == |body| + 1 && line[..|body|] == body && line[|body|] == '\n'
    requires body != [] && !PyIsSpace(body[0]) && !PyIsSpace(body[|body| - 1])
    ensures Strip(line) == body
  {
    assert TrimLeft(line) == line;
    assert line[..|line| - 1] == body;
    assert TrimRight(line) == TrimRight(body);
  }

  /** A file made of a package clause, an import and two plain lines, after any items. */
  lemma FourLineStep(seen: seq<Item>, p: string, i: string, f: string, c: string)
    requires IsPackageLine(p) && IsImportLine(i)
    requires !IsPackageLine(f) && !IsImportLine(f) && !IsPackageLine(c) && !IsImportLine(c)
    ensures
      var ls := LineItems([p, i, f, c]);
      && Output(seen + ls) == Output(seen) + (if PackageSeen(seen) then [] else [p])
           + (if Strip(i) in ImportsSeen(seen) then [] else [i]) + [f, c]
      && PackageSeen(seen + ls)
      && ImportsSeen(seen + ls) == ImportsSeen(seen) + {Strip(i)}
  {
    PackageIsNotImport(i);
    var s1 := seen + [Line(p)];
    PackageLineStep(seen, p);
    var s2 := s1 + [Line(i)];
    ImportLineStep(s1, i);
    var s3 := s2 + [Line(f)];
    PlainLineStep(s2, f);
    PlainLineStep(s3, c);
    assert seen + LineItems([p, i, f, c]) == s3 + [Line(c)];
  }

  lemma ItemsOfTwo(a: WalkedFile, b: WalkedFile)
    requires EndsWith(a.name, ".go") && EndsWith(b.name, ".go")
    ensures Items([a, b]) == FileItems(a) + FileItems(b)
  {
    assert [a, b][..1] == [a] && [a][..0] == [];
    assert Items([a]) == FileItems(a);
  }

  /**
    Two .go files with the same four lines: the second contributes its
    header and its two plain lines only, since its package clause and its
    import were seen in the first.
   */
  lemma TwoFourLineFiles(a: string, b: string, p: string, i: string, f: string, c: string)
    requires EndsWith(a, ".go") && EndsWith(b, ".go")
    requires IsPackageLine(p) && IsImportLine(i)
    requires !IsPackageLine(f) && !IsImportLine(f) && !IsPackageLine(c) && !IsImportLine(c)
    ensures Output(Items([WalkedFile(a, a, [p, i, f, c]), WalkedFile(b, b, [p, i, f, c])])) ==
      [HeaderLine(a), p, i, f, c, HeaderLine(b), f, c]
  {
    ItemsOfTwo(WalkedFile(a, a, [p, i, f, c]), WalkedFile(b, b, [p, i, f, c]));
    TwoFourLineItems(a, b, p, i, f, c);
  }

  lemma TwoFourLineItems(a: string, b: string, p: string, i: string, f: string, c: string)
    requires IsPackageLine(p) && IsImportLine(i)
    requires !IsPackageLine(f) && !IsImportLine(f) && !IsPackageLine(c) && !IsImportLine(c)
    ensures Output(FileItems(WalkedFile(a, a, [p, i, f, c])) + FileItems(WalkedFile(b, b, [p, i, f, c]))) ==
      [HeaderLine(a), p, i, f, c, HeaderLine(b), f, c]
  {
    var none: seq<Item> := [];
    HeaderStep(none, a);
    var s1 := none + [Header(a)];
    assert Output(s1) == [HeaderLine(a)] && !PackageSeen(s1) && ImportsSeen(s1) == {};
    var s2 := s1 + LineItems([p, i, f, c]);
    FourLineStep(s1, p, i, f, c);
    HeaderStep(s2, b);
    var s3 := s2 + [Header(b)];
    FourLineStep(s3, p, i, f, c);
    assert s3 + LineItems([p, i, f, c]) ==
      FileItems(WalkedFile(a, a, [p, i, f, c])) + FileItems(WalkedFile(b, b, [p, i, f, c]));
  }

  /**
    A parenthesised import block is not recognised: its opening line is an
    import (it strips to "import ("), while a quoted path and the closing
    parenthesis are plain lines. By TwoFourLineFiles, a second file with the
    same block keeps its path and ")" but loses its opening line.
   */
  lemma ImportBlockLines()
    ensures IsPackageLine("package main\n")
    ensures IsImportLine("import (\n") && Strip("import (\n") == "import ("
    ensures !IsPackageLine("\t\"fmt\"\n") && !IsImportLine("\t\"fmt\"\n")
    ensures !IsPackageLine(")\n") && !IsImportLine(")\n")
  {
    StripLiteral("package main\n", "package main");
    StripLiteral("import (\n", "import (");
    var f := "\t\"fmt\"\n";
    assert TrimLeft(f) == f[1..];
    StripLiteral(f[1..], "\"fmt\"");
    StripLiteral(")\n", ")");
  }
}
