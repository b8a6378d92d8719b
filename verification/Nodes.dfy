/** Moving a set of configured nodes between machines: export, and a merge that never overwrites quietly. */
module Nodes {
  import opened Common
  import opened C = Config

  const FORMAT := "eieio.nodes/v1"

  datatype ExportedNode = ExportedNode(name: string, address: string, token: Option<string>, class_: NodeClass) {
    function Entry(): NodeEntry {
      NodeEntry(address, token, class_)
    }
  }

  datatype ExportFile = ExportFile(format: string, default_: Option<string>, nodes: seq<ExportedNode>)

  /** A row whose name is already taken, by the configuration or by an earlier row. */
  predicate Collides(nodes: C.Nodes, rows: seq<ExportedNode>, i: nat)
    requires i < |rows|
  {
    rows[i].name in nodes || exists j :: 0 <= j < i && rows[j].name == rows[i].name
  }

  /** Once a file is merged in, the names configured before and the names in the file, and no others. */
  ghost predicate KeysMerge(before: C.Nodes, rows: seq<ExportedNode>, after: C.Nodes) {
    forall name :: name in after <==> name in before || Named(rows, name)
  }

  /** Without `--force`: what was there stays, and among the file's rows for a new name the first wins. */
  ghost predicate FirstWins(before: C.Nodes, rows: seq<ExportedNode>, after: C.Nodes) {
    && KeysMerge(before, rows, after)
    && (forall name :: name in before ==> after[name] == before[name])
    && (forall i :: 0 <= i < |rows| && !Collides(before, rows, i) ==> after[rows[i].name] == rows[i].Entry())
  }

  /** With `--force`: the last row for a name wins, and only names the file is silent about stay. */
  ghost predicate LastWins(before: C.Nodes, rows: seq<ExportedNode>, after: C.Nodes) {
    && KeysMerge(before, rows, after)
    && (forall name :: name in before && !Named(rows, name) ==> after[name] == before[name])
    && (forall i :: 0 <= i < |rows| && LastOfName(rows, i) ==> after[rows[i].name] == rows[i].Entry())
  }

  predicate Named(rows: seq<ExportedNode>, name: string) {
    exists i :: 0 <= i < |rows| && rows[i].name == name
  }

  predicate LastOfName(rows: seq<ExportedNode>, i: nat)
    requires i < |rows|
  {
    forall j :: i < j < |rows| ==> rows[j].name != rows[i].name
  }

  /** One row of a merge. */
  function MergeRow(nodes: C.Nodes, row: ExportedNode, force: bool): C.Nodes {
    if row.name in nodes && !force then nodes else nodes[row.name := row.Entry()]
  }

  function MergeRows(nodes: C.Nodes, rows: seq<ExportedNode>, force: bool): C.Nodes {
    if rows == [] then nodes
    else MergeRow(MergeRows(nodes, rows[..|rows| - 1], force), rows[|rows| - 1], force)
  }

  /** The imported default, applied only where none was chosen and only when it names a node. */
  function MergeDefault(chosen: Option<string>, imported: Option<string>, nodes: C.Nodes): Option<string> {
    if chosen.None? && imported.Some? && imported.value in nodes then imported else chosen
  }

  lemma NamedSnoc(rows: seq<ExportedNode>)
    requires rows != []
    ensures forall name :: Named(rows, name) <==> Named(rows[..|rows| - 1], name) || rows[|rows| - 1].name == name
  {
    var front := rows[..|rows| - 1];
    forall name
      ensures Named(rows, name) <==> Named(front, name) || rows[|rows| - 1].name == name
    {
      if i :| 0 <= i < |front| && front[i].name == name {
        assert rows[i].name == name;
      }
      if i :| 0 <= i < |rows| && rows[i].name == name && i < |front| {
        assert front[i].name == name;
      }
    }
  }

  lemma {:induction false} MergeRowsKeys(nodes: C.Nodes, rows: seq<ExportedNode>, force: bool)
    ensures KeysMerge(nodes, rows, MergeRows(nodes, rows, force))
  {
    if rows != [] {
      MergeRowsKeys(nodes, rows[..|rows| - 1], force);
      NamedSnoc(rows);
    }
  }

  lemma {:induction false} MergeKeepsTheFirst(nodes: C.Nodes, rows: seq<ExportedNode>)
    ensures FirstWins(nodes, rows, MergeRows(nodes, rows, false))
  {
    MergeRowsKeys(nodes, rows, false);
    if rows != [] {
      var front, n := rows[..|rows| - 1], |rows| - 1;
      MergeKeepsTheFirst(nodes, front);
      forall i | 0 <= i < |rows| && !Collides(nodes, rows, i)
        ensures MergeRows(nodes, rows, false)[rows[i].name] == rows[i].Entry()
      {
        if i < n {
          assert front[i] == rows[i] && !Collides(nodes, front, i);
        } else {
          assert !Named(front, rows[n].name);
        }
      }
    }
  }

  lemma {:induction false} ForceKeepsTheLast(nodes: C.Nodes, rows: seq<ExportedNode>)
    ensures LastWins(nodes, rows, MergeRows(nodes, rows, true))
  {
    MergeRowsKeys(nodes, rows, true);
    if rows != [] {
      var front, n := rows[..|rows| - 1], |rows| - 1;
      ForceKeepsTheLast(nodes, front);
      NamedSnoc(rows);
      forall i | 0 <= i < |rows| && LastOfName(rows, i)
        ensures MergeRows(nodes, rows, true)[rows[i].name] == rows[i].Entry()
      {
        if i < n {
          assert front[i] == rows[i] && LastOfName(front, i) && rows[n].name != rows[i].name;
        }
      }
    }
  }

  lemma {:induction false} LastIndex(rows: seq<ExportedNode>, name: string) returns (i: nat)
    requires Named(rows, name)
    ensures i < |rows| && rows[i].name == name && LastOfName(rows, i)
  {
    var last := |rows| - 1;
    if rows[last].name == name {
      i := last;
    } else {
      assert Named(rows[..last], name) by {
        var j :| 0 <= j < |rows| && rows[j].name == name;
        assert rows[..last][j].name == name;
      }
      i := LastIndex(rows[..last], name);
    }
  }

  /** Merging a file a second time changes nothing. */
  lemma MergeIsIdempotent(nodes: C.Nodes, rows: seq<ExportedNode>, force: bool)
    ensures var once := MergeRows(nodes, rows, force);
      MergeRows(once, rows, force) == once
  {
    var once := MergeRows(nodes, rows, force);
    var twice := MergeRows(once, rows, force);
    MergeRowsKeys(nodes, rows, force);
    MergeRowsKeys(once, rows, force);
    if force {
      ForceKeepsTheLast(nodes, rows);
      ForceKeepsTheLast(once, rows);
    } else {
      MergeKeepsTheFirst(once, rows);
    }
    forall name
      ensures name in once <==> name in twice
      ensures name in once ==> once[name] == twice[name]
    {
      if force && Named(rows, name) {
        var i := LastIndex(rows, name);
      }
    }
  }

  /** The rows of an export: every configured node once. */
  ghost predicate Lists(rows: seq<ExportedNode>, nodes: C.Nodes) {
    && (forall i, j :: 0 <= i < j < |rows| ==> rows[i].name != rows[j].name)
    && (forall i :: 0 <= i < |rows| ==> rows[i].name in nodes && rows[i].Entry() == nodes[rows[i].name])
    && (forall name :: name in nodes ==> Named(rows, name))
  }

  method Export(config: Config) returns (file: ExportFile)
    ensures file.format == FORMAT && file.default_ == config.default_ && Lists(file.nodes, config.nodes)
  {
    var rows: seq<ExportedNode> := [];
    var left := config.nodes.Keys;
    while left != {}
      invariant left <= config.nodes.Keys
      invariant forall i, j :: 0 <= i < j < |rows| ==> rows[i].name != rows[j].name
      invariant forall i :: 0 <= i < |rows| ==>
        rows[i].name in config.nodes && rows[i].name !in left && rows[i].Entry() == config.nodes[rows[i].name]
      invariant forall name :: name in config.nodes && name !in left ==> Named(rows, name)
      decreases left
    {
      var name :| name in left;
      var entry := config.nodes[name];
      ghost var before := rows;
      rows := rows + [ExportedNode(name, entry.addr, entry.token, entry.class_)];
      assert rows[|before|].name == name;
      forall n | n in config.nodes && n !in left - {name}
        ensures Named(rows, n)
      {
        if n != name {
          var i :| 0 <= i < |before| && before[i].name == n;
          assert rows[i].name == n;
        }
      }
      left := left - {name};
    }
    file := ExportFile(FORMAT, config.default_, rows);
  }

  datatype Tally = Tally(added: seq<string>, updated: seq<string>, skipped: seq<string>)

  /** Which list each of the first `n` rows of a file ends up in. */
  function TallyOf(nodes: C.Nodes, rows: seq<ExportedNode>, n: nat, force: bool): Tally
    requires n <= |rows|
  {
    if n == 0 then Tally([], [], [])
    else Listed(TallyOf(nodes, rows, n - 1, force), rows[n - 1].name, Collides(nodes, rows, n - 1), force)
  }

  function Listed(t: Tally, name: string, collides: bool, force: bool): Tally {
    if !collides then t.(added := t.added + [name])
    else if force then t.(updated := t.updated + [name])
    else t.(skipped := t.skipped + [name])
  }

  function Names(rows: seq<ExportedNode>, n: nat): multiset<string>
    requires n <= |rows|
  {
    if n == 0 then multiset{} else Names(rows, n - 1) + multiset{rows[n - 1].name}
  }

  /** Everything a tally reports, with repetitions. */
  function Bag(t: Tally): multiset<string> {
    multiset(t.added) + multiset(t.updated) + multiset(t.skipped)
  }

  /** Every row lands in exactly one list, and only `--force` updates. */
  lemma {:induction false} EveryRowIsTallied(nodes: C.Nodes, rows: seq<ExportedNode>, n: nat, force: bool)
    requires n <= |rows|
    ensures var t := TallyOf(nodes, rows, n, force);
      && (if force then t.skipped == [] else t.updated == [])
      && Bag(t) == Names(rows, n)
  {
    if n > 0 {
      EveryRowIsTallied(nodes, rows, n - 1, force);
      OneMore(TallyOf(nodes, rows, n - 1, force), rows[n - 1].name, Collides(nodes, rows, n - 1), force);
    }
  }

  lemma OneMore(t: Tally, name: string, collides: bool, force: bool)
    ensures Bag(Listed(t, name, collides, force)) == Bag(t) + multiset{name}
  {
    assert multiset(t.added + [name]) == multiset(t.added) + multiset{name};
    assert multiset(t.updated + [name]) == multiset(t.updated) + multiset{name};
    assert multiset(t.skipped + [name]) == multiset(t.skipped) + multiset{name};
  }

  /** The names reported as added are exactly the ones that were not there before. */
  lemma {:induction false} AddedAreTheNewNames(nodes: C.Nodes, rows: seq<ExportedNode>, n: nat, force: bool)
    requires n <= |rows|
    ensures forall name :: name in TallyOf(nodes, rows, n, force).added <==> name !in nodes && Named(rows[..n], name)
  {
    if n > 0 {
      AddedAreTheNewNames(nodes, rows, n - 1, force);
      assert rows[..n][..n - 1] == rows[..n - 1];
      NamedSnoc(rows[..n]);
      assert Collides(nodes, rows, n - 1) <==> rows[n - 1].name in nodes || Named(rows[..n - 1], rows[n - 1].name) by {
        assert forall j :: 0 <= j < n - 1 ==> rows[..n - 1][j] == rows[j];
      }
    }
  }

  /** Rows of a file, told by their positions: in the file's order, and these names. */
  predicate Reports(at: seq<nat>, rows: seq<ExportedNode>, n: nat, names: seq<string>) {
    && |at| == |names|
    && (forall i :: 0 <= i < |at| ==> at[i] < n && at[i] < |rows| && rows[at[i]].name == names[i])
    && forall i, j :: 0 <= i < j < |at| ==> at[i] < at[j]
  }

  lemma ReportsMore(at: seq<nat>, rows: seq<ExportedNode>, n: nat, names: seq<string>)
    requires n < |rows| && Reports(at, rows, n, names)
    ensures Reports(at, rows, n + 1, names) && Reports(at + [n], rows, n + 1, names + [rows[n].name])
  {
  }

  /** Each list names its rows in the file's order. */
  lemma {:induction false} ListsKeepTheOrder(nodes: C.Nodes, rows: seq<ExportedNode>, n: nat, force: bool)
      returns (added: seq<nat>, updated: seq<nat>, skipped: seq<nat>)
    requires n <= |rows|
    ensures var t := TallyOf(nodes, rows, n, force);
      Reports(added, rows, n, t.added) && Reports(updated, rows, n, t.updated) && Reports(skipped, rows, n, t.skipped)
  {
    added, updated, skipped := [], [], [];
    if n > 0 {
      added, updated, skipped := ListsKeepTheOrder(nodes, rows, n - 1, force);
      var t := TallyOf(nodes, rows, n - 1, force);
      ReportsMore(added, rows, n - 1, t.added);
      ReportsMore(updated, rows, n - 1, t.updated);
      ReportsMore(skipped, rows, n - 1, t.skipped);
      if !Collides(nodes, rows, n - 1) {
        added := added + [n - 1];
      } else if force {
        updated := updated + [n - 1];
      } else {
        skipped := skipped + [n - 1];
      }
    }
  }

  method Import(config: Config, file: ExportFile, force: bool) returns (result: Result<Tally, string>)
    modifies config
    ensures result.Err? <==> file.format != FORMAT
    ensures result.Err? ==> config.nodes == old(config.nodes) && config.default_ == old(config.default_)
    ensures result.Ok? ==>
      && config.nodes == MergeRows(old(config.nodes), file.nodes, force)
      && config.default_ == MergeDefault(old(config.default_), file.default_, config.nodes)
      && result.value == TallyOf(old(config.nodes), file.nodes, |file.nodes|, force)
    ensures old(Consistent(config.default_, config.nodes)) ==> Consistent(config.default_, config.nodes)
  {
    if file.format != FORMAT {
      return Err(file.format);
    }
    ghost var nodes := config.nodes;
    var rows := file.nodes;
    var added, updated, skipped: seq<string> := [], [], [];
    for i := 0 to |rows|
      invariant config.nodes == MergeRows(nodes, rows[..i], force) && config.default_ == old(config.default_)
      invariant Tally(added, updated, skipped) == TallyOf(nodes, rows, i, force)
      invariant nodes.Keys <= config.nodes.Keys
    {
      var row := rows[i];
      var collides := row.name in config.nodes;
      CollidesWhenPresent(nodes, rows, i, force);
      assert rows[..i + 1][..i] == rows[..i];
      if collides && !force {
        skipped := skipped + [row.name];
        continue;
      }
      if collides {
        updated := updated + [row.name];
      } else {
        added := added + [row.name];
      }
      config.Add(row.name, row.Entry());
    }
    assert rows[..|rows|] == rows;
    if config.default_.None? && file.default_.Some? && file.default_.value in config.nodes {
      config.default_ := file.default_;
    }
    result := Ok(Tally(added, updated, skipped));
  }

  lemma CollidesWhenPresent(nodes: C.Nodes, rows: seq<ExportedNode>, i: nat, force: bool)
    requires i < |rows|
    ensures rows[i].name in MergeRows(nodes, rows[..i], force) <==> Collides(nodes, rows, i)
  {
    MergeRowsKeys(nodes, rows[..i], force);
    assert forall j :: 0 <= j < i ==> rows[..i][j] == rows[j];
  }

  /** Exported and imported into an empty configuration, a set of nodes comes back as it was. */
  lemma ExportThenImportRestores(default_: Option<string>, nodes: C.Nodes, rows: seq<ExportedNode>, force: bool)
    requires Lists(rows, nodes)
    ensures MergeRows(map[], rows, force) == nodes
    ensures MergeDefault(None, default_, MergeRows(map[], rows, force)) == default_ <==> Consistent(default_, nodes)
  {
    var merged := MergeRows(map[], rows, force);
    MergeRowsKeys(map[], rows, force);
    if force {
      ForceKeepsTheLast(map[], rows);
    } else {
      MergeKeepsTheFirst(map[], rows);
    }
    forall name
      ensures name in merged <==> name in nodes
      ensures name in merged ==> merged[name] == nodes[name]
    {
      if Named(rows, name) {
        var i :| 0 <= i < |rows| && rows[i].name == name;
        assert !Collides(map[], rows, i) && LastOfName(rows, i);
      }
    }
  }

  datatype Command =
    | AddNode(name: string, entry: NodeEntry, asDefault: bool)
    | RemoveNode(name: string)
    | ChooseDefault(name: string)
    | ImportFile(file: ExportFile, force: bool)

  method Run(config: Config, commands: seq<Command>)
    requires Consistent(config.default_, config.nodes)
    modifies config
    ensures Consistent(config.default_, config.nodes)
  {
    for i := 0 to |commands|
      invariant Consistent(config.default_, config.nodes)
    {
      match commands[i] {
        case AddNode(name, entry, asDefault) =>
          config.Add(name, entry);
          if asDefault {
            var _ := config.SetDefault(name);
          }
        case RemoveNode(name) => var _ := config.Remove(name);
        case ChooseDefault(name) => var _ := config.SetDefault(name);
        case ImportFile(file, force) => var _ := Import(config, file, force);
      }
    }
  }

  /** One configuration whose default names nothing: it is exported, and not imported. */
  lemma OneDefaultIsLost(force: bool)
    ensures var chosen := Some("gone");
      !Consistent(chosen, map[]) && Lists([], map[])
      && MergeDefault(None, chosen, MergeRows(map[], [], force)) == None
  {
  }
}
