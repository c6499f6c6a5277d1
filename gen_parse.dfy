/**
 * `cmd/gen/parse.go`: reading fields, parameters, subtypes and
 * discriminators out of the documentation tree, and the classification of
 * its `h4` headings. The formatted description `parseDescription` builds
 * for a cell is a parameter; `log.Fatal` is a `Failure`.
 */
module Parse {
  import opened Wrappers
  import opened GoStrings
  import opened Html
  import opened Seqs

  /** `Field`, which is also `Param`. */
  datatype Field = Field(name: string, desc: string, typ: string, isRequired: bool, discriminator: string)

  const AttachMarker: string := "attach://<file_attach_name>"
  const OptionalPrefix: string := "Optional."

  // ---- parseDiscriminator ----

  const OpenQuote: char := '“'
  const CloseQuote: char := '”'
  const Quotes: string := [OpenQuote, CloseQuote]

  /**
   * `parseDiscriminator`: of the last three words, `must be X` gives X, and
   * `… always “X”` gives X with its curly quotes trimmed, provided a quote
   * was trimmed; anything else, including fewer than three words, gives "".
   */
  function ParseDiscriminator(desc: string): string {
    var words := Fields(desc);
    if |words| < 3 then ""
    else
      var w := words[|words| - 3..];
      if w[0] == "must" && w[1] == "be" then w[2]
      else if w[1] == "always" then
        var s := Trim(w[2], Quotes);
        if s != w[2] then s else ""
      else ""
  }

  /** A description of fewer than three words, or whose last three words fit neither form, has no discriminator. */
  lemma NoDiscriminator(desc: string)
    requires var w := Fields(desc);
      |w| < 3 || (!(w[|w| - 3] == "must" && w[|w| - 2] == "be") && w[|w| - 2] != "always")
    ensures ParseDiscriminator(desc) == ""
  {
  }

  /** The last three words after a space boundary are the words joined. */
  lemma LastThree(prefix: string, ws: seq<string>)
    requires |ws| == 3 && forall i :: 0 <= i < 3 ==> ws[i] != "" && NoSpace(ws[i])
    ensures var words := Fields(prefix + " " + Join(ws, " "));
      |words| >= 3 && words[|words| - 3..] == ws
  {
    FieldsAppend(prefix, " " + Join(ws, " "));
    FieldsSpaceCons(Join(ws, " "));
    FieldsOfJoin(ws);
    assert prefix + (" " + Join(ws, " ")) == prefix + " " + Join(ws, " ");
    var words := Fields(prefix) + ws;
    assert words[|words| - 3..] == ws;
  }

  /** A description ending in `must be X` has the discriminator X, whatever precedes it. */
  lemma MustBeDiscriminator(prefix: string, x: string)
    requires x != "" && NoSpace(x)
    ensures ParseDiscriminator(prefix + " must be " + x) == x
  {
    var ws := ["must", "be", x];
    assert Join(ws, " ") == "must be " + x by {
      assert Join(ws[1..], " ") == "be " + x by {
        assert Join(ws[2..], " ") == x;
      }
    }
    assert prefix + " must be " + x == prefix + " " + Join(ws, " ");
    LastThree(prefix, ws);
  }

  /** The cut characters are trimmed from both ends of a quoted value, and nothing more. */
  lemma TrimQuoted(v: string)
    requires v != "" && v[0] !in Quotes && v[|v| - 1] !in Quotes
    ensures Trim([OpenQuote] + v + [CloseQuote], Quotes) == v
  {
    var q := [OpenQuote] + v + [CloseQuote];
    assert q[1..] == v + [CloseQuote];
    assert TrimLeft(q, Quotes) == TrimLeft(v + [CloseQuote], Quotes);
    assert TrimLeft(v + [CloseQuote], Quotes) == v + [CloseQuote];
    assert (v + [CloseQuote])[..|v|] == v;
    assert TrimRight(v + [CloseQuote], Quotes) == TrimRight(v, Quotes);
  }

  /** A description ending in `always “X”` has the discriminator X. */
  lemma AlwaysDiscriminator(prefix: string, before: string, v: string)
    requires before != "" && NoSpace(before) && before != "must"
    requires v != "" && NoSpace(v) && v[0] !in Quotes && v[|v| - 1] !in Quotes
    ensures ParseDiscriminator(prefix + " " + before + " always " + [OpenQuote] + v + [CloseQuote]) == v
  {
    var x := [OpenQuote] + v + [CloseQuote];
    assert NoSpace(x) by {
      assert forall i :: 1 <= i < |x| - 1 ==> x[i] == v[i - 1];
    }
    var ws := [before, "always", x];
    assert Join(ws, " ") == before + " always " + x by {
      assert Join(ws[1..], " ") == "always " + x by {
        assert Join(ws[2..], " ") == x;
      }
    }
    assert prefix + " " + before + " always " + [OpenQuote] + v + [CloseQuote] == prefix + " " + Join(ws, " ");
    LastThree(prefix, ws);
    TrimQuoted(v);
    assert |Trim(x, Quotes)| < |x|;
  }

  // ---- parseFields and parseParams ----

  /** The two kinds of table: a type's fields (three columns) and a method's parameters (four). */
  datatype TableKind = FieldTable | ParamTable
  {
    function Columns(): nat {
      if FieldTable? then 3 else 4
    }

    function Fatal(): string {
      if FieldTable? then "3 table columns expected" else "4 table columns expected"
    }
  }

  /**
   * One table row, given its `td` cells: the name and type are the first
   * two cells' text, a description containing `attach://<file_attach_name>`
   * makes the type `InputFile`. A field is required unless its description
   * cell starts with `Optional.`, and gets a discriminator; a parameter is
   * required when its third cell reads `Yes`.
   */
  function Entry(kind: TableKind, td: seq<Node>, describe: Node -> string): Field
    requires |td| == kind.Columns()
  {
    var desc := if kind.FieldTable? then describe(td[2]) else describe(td[3]);
    var typ := if Contains(desc, AttachMarker) then "InputFile" else FindText(td[1]);
    if kind.FieldTable? then
      Field(FindText(td[0]), desc, typ, !(OptionalPrefix <= FindText(td[2])), ParseDiscriminator(desc))
    else
      Field(FindText(td[0]), desc, typ, FindText(td[2]) == "Yes", "")
  }

  /** The `td` cells of each `tr` row of a table, in order. */
  function TableRows(table: Node): seq<seq<Node>> {
    CellsOf(FindNodes(table, ["tr"]))
  }

  /** The `td` cells of each row, in order. */
  function CellsOf(trs: seq<Node>): (r: seq<seq<Node>>)
    ensures |r| == |trs|
  {
    if trs == [] then [] else CellsOf(trs[..|trs| - 1]) + [FindNodes(trs[|trs| - 1], ["td"])]
  }

  lemma {:induction false} CellsOfAt(trs: seq<Node>, j: nat)
    requires j < |trs|
    ensures CellsOf(trs)[j] == FindNodes(trs[j], ["td"])
    decreases |trs|
  {
    if j < |trs| - 1 {
      CellsOfAt(trs[..|trs| - 1], j);
    }
  }

  /** The rows of all the tables, table after table. */
  function RowsOf(tables: seq<Node>): seq<seq<Node>> {
    FlatMap(TableRows, tables)
  }

  /** The rows with at least one cell. */
  function NonEmpty(rows: seq<seq<Node>>): seq<seq<Node>> {
    if rows == [] then []
    else NonEmpty(rows[..|rows| - 1]) + (if rows[|rows| - 1] == [] then [] else [rows[|rows| - 1]])
  }

  /** How a row of the right width becomes an entry. */
  function Reader(kind: TableKind, describe: Node -> string): (read: seq<Node> -> Field)
    ensures forall td :: |td| == kind.Columns() ==> read(td) == Entry(kind, td, describe)
  {
    td => if |td| == kind.Columns() then Entry(kind, td, describe) else Field("", "", "", false, "")
  }

  /**
   * What reading the rows yields: rows without cells are skipped, the first
   * row with a wrong number of cells is fatal, and otherwise every other row
   * gives one entry, in order.
   */
  function Entries(kind: TableKind, rows: seq<seq<Node>>, read: seq<Node> -> Field): Result<seq<Field>, string> {
    if rows == [] then Success([])
    else Step(kind, Entries(kind, rows[..|rows| - 1], read), rows[|rows| - 1], read)
  }

  /** Reading one more row after the previous ones gave prev. */
  function Step(kind: TableKind, prev: Result<seq<Field>, string>, row: seq<Node>, read: seq<Node> -> Field): Result<seq<Field>, string> {
    if prev.Failure? || row == [] then prev
    else if |row| != kind.Columns() then Failure(kind.Fatal())
    else Success(prev.value + [read(row)])
  }

  /** A row with cells whose count is wrong for the table. */
  predicate BadRow(kind: TableKind, row: seq<Node>) {
    row != [] && |row| != kind.Columns()
  }

  /** Reading the rows is fatal exactly when some row with cells has the wrong number of them. */
  lemma {:induction false} EntriesFailure(kind: TableKind, rows: seq<seq<Node>>, read: seq<Node> -> Field)
    ensures Entries(kind, rows, read).Failure? <==> exists k :: 0 <= k < |rows| && BadRow(kind, rows[k])
    ensures Entries(kind, rows, read).Failure? ==> Entries(kind, rows, read).error == kind.Fatal()
  {
    if rows != [] {
      var init := rows[..|rows| - 1];
      EntriesFailure(kind, init, read);
      assert forall k :: 0 <= k < |init| ==> init[k] == rows[k];
    }
  }

  /** A successful reading gives one entry per row with cells, in order, each read from a row of the right width. */
  lemma {:induction false} EntriesValues(kind: TableKind, rows: seq<seq<Node>>, read: seq<Node> -> Field)
    requires Entries(kind, rows, read).Success?
    ensures var fs := Entries(kind, rows, read).value;
      && |fs| == |NonEmpty(rows)|
      && forall i :: 0 <= i < |fs| ==>
           |NonEmpty(rows)[i]| == kind.Columns() && fs[i] == read(NonEmpty(rows)[i])
  {
    if rows != [] {
      var init := rows[..|rows| - 1];
      EntriesValues(kind, init, read);
    }
  }

  /** Reading one more row, as the loop does. */
  lemma EntriesSnoc(kind: TableKind, rows: seq<seq<Node>>, row: seq<Node>, read: seq<Node> -> Field)
    ensures Entries(kind, rows + [row], read) == Step(kind, Entries(kind, rows, read), row, read)
  {
    assert (rows + [row])[..|rows|] == rows;
  }

  /** A row with the wrong number of cells in any part makes reading all the parts' rows fatal. */
  lemma FatalPart<T>(kind: TableKind, f: T -> seq<seq<Node>>, xs: seq<T>, i: nat, j: nat, read: seq<Node> -> Field)
    requires i < |xs| && j < |f(xs[i])|
    requires BadRow(kind, f(xs[i])[j])
    ensures Entries(kind, FlatMap(f, xs), read) == Failure(kind.Fatal())
  {
    var pre, post := xs[..i], xs[i + 1..];
    assert xs == pre + [xs[i]] + post;
    FlatMapAppend(f, pre + [xs[i]], post);
    FlatMapAppend(f, pre, [xs[i]]);
    FlatMapSingle(f, xs[i]);
    var all := FlatMap(f, xs);
    assert all == FlatMap(f, pre) + f(xs[i]) + FlatMap(f, post);
    assert all[|FlatMap(f, pre)| + j] == f(xs[i])[j];
    EntriesFailure(kind, all, read);
  }

  /** The nested loop shared by `parseFields` and `parseParams`: every row of every table, in order, stopping at a fatal row. */
  method ParseRows(kind: TableKind, tables: seq<Node>, read: seq<Node> -> Field) returns (r: Result<seq<Field>, string>)
    ensures r == Entries(kind, RowsOf(tables), read)
  {
    var entries: seq<Field> := [];
    for i := 0 to |tables|
      invariant Entries(kind, RowsOf(tables[..i]), read) == Success(entries)
    {
      var next, j := ParseTable(kind, tables[i], RowsOf(tables[..i]), read, entries);
      if next.Failure? {
        FatalPart(kind, TableRows, tables, i, j, read);
        return next;
      }
      entries := next.value;
      FlatMapStep(TableRows, tables, i);
    }
    assert tables[..|tables|] == tables;
    r := Success(entries);
  }

  /**
   * The body of the inner loop, row j of a table read after the rows
   * `before`: a row without cells is skipped, a row with the wrong number
   * of cells is fatal, any other row gives one more entry.
   */
  method ReadRow(kind: TableKind, ghost before: seq<seq<Node>>, trs: seq<Node>, j: nat, read: seq<Node> -> Field, entries: seq<Field>)
    returns (r: Result<seq<Field>, string>)
    requires j < |trs|
    requires Entries(kind, before + CellsOf(trs)[..j], read) == Success(entries)
    ensures r.Failure? ==> r == Failure(kind.Fatal()) && BadRow(kind, CellsOf(trs)[j])
    ensures r.Success? ==> r == Entries(kind, before + CellsOf(trs)[..j + 1], read)
  {
    var td := FindNodes(trs[j], ["td"]);
    CellsOfAt(trs, j);
    ghost var rows := CellsOf(trs);
    assert before + rows[..j + 1] == (before + rows[..j]) + [td] by {
      assert rows[..j + 1] == rows[..j] + [td];
    }
    EntriesSnoc(kind, before + rows[..j], td, read);
    if |td| == 0 {
      return Success(entries);
    }
    if |td| != kind.Columns() {
      return Failure(kind.Fatal());
    }
    return Success(entries + [read(td)]);
  }

  /** The inner loop over the rows of one table, continuing from the entries of the rows before it. */
  method ParseTable(kind: TableKind, table: Node, ghost before: seq<seq<Node>>, read: seq<Node> -> Field, entries0: seq<Field>)
    returns (r: Result<seq<Field>, string>, ghost bad: nat)
    requires Entries(kind, before, read) == Success(entries0)
    ensures r.Failure? ==> r == Failure(kind.Fatal()) && bad < |TableRows(table)| && BadRow(kind, TableRows(table)[bad])
    ensures r.Success? ==> r == Entries(kind, before + TableRows(table), read)
  {
    var entries := entries0;
    var trs := FindNodes(table, ["tr"]);
    assert before + CellsOf(trs)[..0] == before;
    for j := 0 to |trs|
      invariant Entries(kind, before + CellsOf(trs)[..j], read) == Success(entries)
    {
      var next := ReadRow(kind, before, trs, j, read, entries);
      if next.Failure? {
        return next, j;
      }
      entries := next.value;
    }
    assert CellsOf(trs)[..|trs|] == CellsOf(trs);
    r, bad := Success(entries), 0;
  }

  /** `parseFields`. */
  method ParseFields(tables: seq<Node>, describe: Node -> string) returns (r: Result<seq<Field>, string>)
    ensures r == Entries(FieldTable, RowsOf(tables), Reader(FieldTable, describe))
  {
    r := ParseRows(FieldTable, tables, Reader(FieldTable, describe));
  }

  /** `parseParams`. */
  method ParseParams(tables: seq<Node>, describe: Node -> string) returns (r: Result<seq<Field>, string>)
    ensures r == Entries(ParamTable, RowsOf(tables), Reader(ParamTable, describe))
  {
    r := ParseRows(ParamTable, tables, Reader(ParamTable, describe));
  }

  // ---- parseSubtypes ----

  /** The text of each `li` item of a list, in order. */
  function ItemTexts(ul: Node): seq<string> {
    var lis := FindNodes(ul, ["li"]);
    seq(|lis|, k requires 0 <= k < |lis| => FindText(lis[k]))
  }

  /** The item texts of all the lists, list after list. */
  function Subtypes(lists: seq<Node>): seq<string> {
    FlatMap(ItemTexts, lists)
  }

  /** `parseSubtypes`. */
  method ParseSubtypes(lists: seq<Node>) returns (subtypes: seq<string>)
    ensures subtypes == Subtypes(lists)
  {
    subtypes := [];
    for i := 0 to |lists|
      invariant subtypes == Subtypes(lists[..i])
    {
      var lis := FindNodes(lists[i], ["li"]);
      ghost var start := subtypes;
      for j := 0 to |lis|
        invariant subtypes == start + ItemTexts(lists[i])[..j]
      {
        assert ItemTexts(lists[i])[..j + 1] == ItemTexts(lists[i])[..j] + [FindText(lis[j])];
        subtypes := subtypes + [FindText(lis[j])];
      }
      assert ItemTexts(lists[i])[..|lis|] == ItemTexts(lists[i]);
      FlatMapStep(ItemTexts, lists, i);
    }
    assert lists[..|lists|] == lists;
  }

  // ---- parseInfo: headings ----

  datatype Heading = Skipped | TypeHeading | MethodHeading

  /** How `parseInfo` reads an `h4` title: empty, `InputFile` or several words are skipped; a lower-case initial names a method; anything else a type. */
  function Classify(name: string): (h: Heading)
    ensures h.Skipped? <==> (name == "" || name == "InputFile" || ' ' in name)
    ensures h.MethodHeading? <==> (name != "" && name != "InputFile" && ' ' !in name && 'a' <= name[0] <= 'z')
  {
    if name == "" || name == "InputFile" || ' ' in name then Skipped
    else if 'a' <= name[0] <= 'z' then MethodHeading
    else TypeHeading
  }

  /**
   * The loop of `parseInfo` over the `h4` headings of the page, keeping the
   * names it files under types and under methods.
   */
  method ParseInfoNames(root: Node) returns (types: set<string>, methods: set<string>)
    ensures forall name :: name in types <==> name in HeadingNames(root) && Classify(name).TypeHeading?
    ensures forall name :: name in methods <==> name in HeadingNames(root) && Classify(name).MethodHeading?
  {
    var headings := FindNodes(root, ["h4"]);
    ghost var names := HeadingNames(root);
    types := {};
    methods := {};
    for i := 0 to |headings|
      invariant forall name :: name in types <==> name in names[..i] && Classify(name).TypeHeading?
      invariant forall name :: name in methods <==> name in names[..i] && Classify(name).MethodHeading?
    {
      var name := FindText(headings[i]);
      assert names[..i + 1] == names[..i] + [name];
      var kind := Classify(name);
      if kind.Skipped? {
        continue;
      }
      if kind.TypeHeading? {
        types := types + {name};
      } else {
        methods := methods + {name};
      }
    }
    assert names[..|headings|] == names;
  }

  /** The titles of the page's `h4` headings, in order. */
  function HeadingNames(root: Node): (r: seq<string>)
    ensures |r| == |FindNodes(root, ["h4"])|
  {
    var hs := FindNodes(root, ["h4"]);
    seq(|hs|, k requires 0 <= k < |hs| => FindText(hs[k]))
  }
}
