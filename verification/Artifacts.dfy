/** The files of a report, and what they do not depend on.

    A report is written either as one combined file or as one file per contract.  Both hold the
    same rows; and neither depends on how the shard loop happened to cut the period.  The frozen
    input fixes every filename, as the resolved template of its contract.
 */
module Artifacts {
  import opened Options
  import opened UsageDict
  import opened Shards
  import opened Rendering
  import Gnocchi
  import ShardedUsage

  // ---- one contract's rows are a subsequence of the combined rows ----

  function ForContract(rows: seq<Row>, contract: string): seq<Row> {
    if rows == [] then []
    else ForContract(rows[..|rows| - 1], contract)
         + if rows[|rows| - 1].contract == contract then [rows[|rows| - 1]] else []
  }

  lemma {:induction false} ForContractConcat(a: seq<Row>, b: seq<Row>, contract: string)
    ensures ForContract(a + b, contract) == ForContract(a, contract) + ForContract(b, contract)
  {
    if b == [] {
      assert a + b == a;
    } else {
      assert (a + b)[..|a + b| - 1] == a + b[..|b| - 1];
      ForContractConcat(a, b[..|b| - 1], contract);
    }
  }

  lemma ForContractOne(row: Row, contract: string)
    ensures ForContract([row], contract) == if row.contract == contract then [row] else []
  {
    var one := [row];
    assert one[..|one| - 1] == [];
  }

  /** Choosing one contract keeps, in order, exactly that contract's rows of any larger choice. */
  lemma {:induction false} SelectForContract(lines: seq<Line>, contracts: set<string>, contract: string)
    requires contract in contracts && Select(lines, contracts).Some?
    ensures Select(lines, {contract}) == Some(ForContract(Select(lines, contracts).value, contract))
  {
    if lines != [] {
      var init, last := lines[..|lines| - 1], lines[|lines| - 1];
      SelectForContract(init, contracts, contract);
      var rows := Select(init, contracts).value;
      var more := SelectLine(last, contracts).value;
      ForContractConcat(rows, more, contract);
      if more != [] {
        ForContractOne(more[0], contract);
        assert more == [more[0]];
      }
    }
  }

  /** A choice of contracts can be written exactly when each of its contracts can. */
  lemma {:induction false} SelectFailsTogether(lines: seq<Line>, contracts: set<string>)
    ensures Select(lines, contracts).Some? <==> forall c :: c in contracts ==> Select(lines, {c}).Some?
  {
    if lines != [] {
      var init, last := lines[..|lines| - 1], lines[|lines| - 1];
      SelectFailsTogether(init, contracts);
      assert SelectLine(last, contracts).Some?
        <==> forall c :: c in contracts ==> SelectLine(last, {c}).Some? by {
        if ContractOf(last) in contracts {
          assert SelectLine(last, {ContractOf(last)}) == SelectLine(last, contracts);
        }
      }
    }
  }

  lemma {:induction false} SelectOnlyChosen(lines: seq<Line>, contracts: set<string>)
    requires Select(lines, contracts).Some?
    ensures forall row :: row in Select(lines, contracts).value ==> row.contract in contracts
  {
    if lines != [] {
      SelectOnlyChosen(lines[..|lines| - 1], contracts);
    }
  }

  /** The combined report and the per-contract reports stand or fall together, and each of the
      latter is its contract's subsequence of the former. */
  lemma ReportPartition(sn: Snapshot, usage: UsageByMetric, contracts: set<string>)
    requires contracts != {} && contracts <= Numbers(sn.contracts)
    ensures Report(sn, usage, contracts).Some?
       <==> forall c :: c in contracts ==> Report(sn, usage, {c}).Some?
    ensures Report(sn, usage, contracts).Some? ==>
              forall c :: c in contracts ==>
                Report(sn, usage, {c}) == Some(ForContract(Report(sn, usage, contracts).value, c))
    ensures Report(sn, usage, contracts).Some? ==>
              forall row :: row in Report(sn, usage, contracts).value ==> row.contract in contracts
  {
    var c0 :| c0 in contracts;
    if MeteredLines(sn, sn.plan, usage).Some? {
      var lines := MeteredLines(sn, sn.plan, usage).value + SyntheticLines(sn);
      SelectFailsTogether(lines, contracts);
      if Select(lines, contracts).Some? {
        SelectOnlyChosen(lines, contracts);
        forall c | c in contracts
          ensures Select(lines, {c}) == Some(ForContract(Select(lines, contracts).value, c))
        {
          SelectForContract(lines, contracts, c);
        }
      }
    } else {
      assert Report(sn, usage, {c0}).None?;
    }
  }

  lemma {:induction false} ForContractCount(rows: seq<Row>, contract: string, row: Row)
    ensures multiset(ForContract(rows, contract))[row] == if row.contract == contract then multiset(rows)[row] else 0
  {
    if rows != [] {
      ForContractCount(rows[..|rows| - 1], contract, row);
      assert rows == rows[..|rows| - 1] + [rows[|rows| - 1]];
    }
  }

  lemma {:induction false} TotalCostConcat(a: seq<Row>, b: seq<Row>)
    ensures TotalCost(a + b) == TotalCost(a) + TotalCost(b)
  {
    if a == [] {
      assert a + b == b;
    } else {
      assert (a + b)[1..] == a[1..] + b;
      TotalCostConcat(a[1..], b);
    }
  }

  lemma {:induction false} TotalCostPermutation(a: seq<Row>, b: seq<Row>)
    requires multiset(a) == multiset(b)
    ensures TotalCost(a) == TotalCost(b)
  {
    if a == [] {
      assert |b| == |multiset(b)| == |multiset(a)| == 0;
    } else {
      var i := Pick(a, b);
      TotalCostPermutation(a[1..], b[..i] + b[i + 1..]);
      assert b == b[..i] + b[i..];
      TotalCostConcat(b[..i], b[i..]);
      TotalCostConcat(b[..i], b[i + 1..]);
    }
  }

  // ---- writing the files ----

  datatype File = File(name: string, rows: seq<Row>)

  /** The filename of the combined file, and of each contract's file. */
  datatype Names = Names(whole: string, each: map<string, string>)

  function NameOf(names: Names, contract: string): string {
    if contract in names.each then names.each[contract] else contract
  }

  datatype Rendered = Files(files: seq<File>) | Empty | DuplicateName | GenerationFailed

  /** One file per contract that has rows. */
  function FilesFor(sn: Snapshot, usage: UsageByMetric, contracts: seq<string>, names: Names)
    : seq<File>
  {
    if contracts == [] then []
    else FilesFor(sn, usage, contracts[..|contracts| - 1], names)
         + FileFor(sn, usage, contracts[|contracts| - 1], names)
  }

  function FileFor(sn: Snapshot, usage: UsageByMetric, contract: string, names: Names): seq<File> {
    match Report(sn, usage, {contract})
    case None => []
    case Some(rows) => if rows == [] then [] else [File(NameOf(names, contract), rows)]
  }

  ghost predicate Writable(sn: Snapshot, usage: UsageByMetric, contracts: seq<string>) {
    forall c :: c in contracts ==> Report(sn, usage, {c}).Some?
  }

  predicate DistinctNames(files: seq<File>) {
    forall i, j :: 0 <= i < j < |files| ==> files[i].name != files[j].name
  }

  /** The files of a snapshot: the combined one, or one per contract with rows under distinct names;
      none when a row cannot be made, a name repeats or there is nothing to write. */
  ghost function FilesOf(sn: Snapshot, usage: UsageByMetric, perContract: bool, names: Names): Option<seq<File>> {
    if perContract then
      var numbers := NumberList(sn.contracts);
      var files := FilesFor(sn, usage, numbers, names);
      if Writable(sn, usage, numbers) && DistinctNames(files) && files != [] then Some(files) else None
    else
      match Report(sn, usage, Numbers(sn.contracts))
      case None => None
      case Some(rows) => if rows == [] then None else Some([File(names.whole, rows)])
  }

  method RenderFiles(sn: Snapshot, usage: UsageByMetric, perContract: bool, names: Names)
    returns (r: Rendered)
    ensures r.Files? <==> FilesOf(sn, usage, perContract, names).Some?
    ensures r.Files? ==> FilesOf(sn, usage, perContract, names) == Some(r.files)
  {
    if perContract {
      r := RenderPerContract(sn, usage, NumberList(sn.contracts), names);
      return;
    }
    var rows := RenderBilling(sn, usage, Numbers(sn.contracts));
    if rows.None? {
      return GenerationFailed;
    }
    if rows.value == [] {
      return Empty;
    }
    return Files([File(names.whole, rows.value)]);
  }

  function NumberList(cs: seq<Contract>): (r: seq<string>)
    ensures |r| == |cs| && forall i :: 0 <= i < |r| ==> r[i] == cs[i].number
  {
    seq(|cs|, i requires 0 <= i < |cs| => cs[i].number)
  }

  method RenderPerContract(sn: Snapshot, usage: UsageByMetric, contracts: seq<string>, names: Names)
    returns (r: Rendered)
    ensures var files := FilesFor(sn, usage, contracts, names);
            && (r.Files? <==> Writable(sn, usage, contracts) && DistinctNames(files) && files != [])
            && (r.Files? ==> r.files == files)
            && (r.Empty? ==> Writable(sn, usage, contracts) && files == [])
            && (r.DuplicateName? ==> !DistinctNames(files))
            && (r.GenerationFailed? ==> !Writable(sn, usage, contracts))
  {
    var outputs: seq<File> := [];
    var filenames: set<string> := {};
    for i := 0 to |contracts|
      invariant Writable(sn, usage, contracts[..i])
      invariant outputs == FilesFor(sn, usage, contracts[..i], names) && DistinctNames(outputs)
      invariant filenames == NameSet(outputs)
    {
      FilesStep(sn, usage, contracts, i, names);
      FilesPrefix(sn, usage, contracts, i + 1, names);
      var rows := RenderBilling(sn, usage, {contracts[i]});
      if rows.None? {
        return GenerationFailed;
      }
      if rows.value != [] {
        var file := File(NameOf(names, contracts[i]), rows.value);
        NamesSnoc(outputs, file);
        if file.name in filenames {
          NotDistinct(outputs + [file], FilesFor(sn, usage, contracts, names));
          return DuplicateName;
        }
        filenames := filenames + {file.name};
        outputs := outputs + [file];
      }
    }
    assert contracts[..|contracts|] == contracts;
    return if outputs == [] then Empty else Files(outputs);
  }

  function NameSet(files: seq<File>): set<string> {
    set f | f in files :: f.name
  }

  lemma FilesStep(sn: Snapshot, usage: UsageByMetric, contracts: seq<string>, i: nat, names: Names)
    requires i < |contracts|
    ensures Writable(sn, usage, contracts[..i + 1])
       <==> Writable(sn, usage, contracts[..i]) && Report(sn, usage, {contracts[i]}).Some?
    ensures Report(sn, usage, {contracts[i]}).None? ==> !Writable(sn, usage, contracts)
    ensures FilesFor(sn, usage, contracts[..i + 1], names)
         == (var before := FilesFor(sn, usage, contracts[..i], names);
             var r := Report(sn, usage, {contracts[i]});
             if r.None? || r.value == [] then before else before + [File(NameOf(names, contracts[i]), r.value)])
  {
    assert contracts[..i + 1] == contracts[..i] + [contracts[i]];
    assert contracts[..i + 1][..i] == contracts[..i];
    assert contracts[i] in contracts;
  }

  lemma NamesSnoc(files: seq<File>, file: File)
    ensures NameSet(files + [file]) == NameSet(files) + {file.name}
    ensures DistinctNames(files + [file]) <==> DistinctNames(files) && file.name !in NameSet(files)
  {
    var more := files + [file];
    assert more[|files|] == file;
    if file.name in NameSet(files) {
      var k :| 0 <= k < |files| && files[k].name == file.name;
      assert more[k].name == more[|files|].name;
    }
    if !DistinctNames(files) {
      var i, j :| 0 <= i < j < |files| && files[i].name == files[j].name;
      assert more[i].name == more[j].name;
    }
  }

  lemma NotDistinct(part: seq<File>, files: seq<File>)
    requires part <= files && !DistinctNames(part)
    ensures !DistinctNames(files)
  {
    var i, j :| 0 <= i < j < |part| && part[i].name == part[j].name;
    assert files[i].name == files[j].name;
  }

  lemma {:induction false} FilesPrefix(sn: Snapshot, usage: UsageByMetric, contracts: seq<string>, n: nat,
                                       names: Names)
    requires n <= |contracts|
    ensures FilesFor(sn, usage, contracts[..n], names) <= FilesFor(sn, usage, contracts, names)
    decreases |contracts| - n
  {
    if n == |contracts| {
      assert contracts[..n] == contracts;
    } else {
      FilesPrefix(sn, usage, contracts, n + 1, names);
      assert contracts[..n + 1][..n] == contracts[..n];
    }
  }

  // ---- both modes hold the same rows and the same total ----

  /** The rows of several files, one after the other. */
  function RowsIn(files: seq<File>): seq<Row> {
    if files == [] then [] else RowsIn(files[..|files| - 1]) + files[|files| - 1].rows
  }

  lemma {:induction false} NamedFile(sn: Snapshot, usage: UsageByMetric, contracts: seq<string>, names: Names, c: string)
    requires c in contracts && Report(sn, usage, {c}).Some? && Report(sn, usage, {c}).value != []
    ensures NameOf(names, c) in NameSet(FilesFor(sn, usage, contracts, names))
    ensures FilesFor(sn, usage, contracts, names) != []
  {
    hide Report;
    var init, last := contracts[..|contracts| - 1], contracts[|contracts| - 1];
    if last == c {
      var files := FilesFor(sn, usage, contracts, names);
      assert files[|files| - 1].name == NameOf(names, c);
    } else {
      NamedFile(sn, usage, init, names, c);
      var before := FilesFor(sn, usage, init, names);
      assert forall f :: f in before ==> f in FilesFor(sn, usage, contracts, names);
    }
  }

  /** Under distinct names every row of the combined report is in the files as often as it is in the
      report, also when a contract is listed twice. */
  lemma {:induction false} FileRows(sn: Snapshot, usage: UsageByMetric, contracts: seq<string>, names: Names,
                                    rows: seq<Row>, row: Row)
    requires DistinctNames(FilesFor(sn, usage, contracts, names))
    requires forall c :: c in contracts ==> Report(sn, usage, {c}) == Some(ForContract(rows, c))
    ensures multiset(RowsIn(FilesFor(sn, usage, contracts, names)))[row]
         == if row.contract in contracts then multiset(rows)[row] else 0
  {
    if contracts != [] {
      hide *;
      var init, last := contracts[..|contracts| - 1], contracts[|contracts| - 1];
      LastFile(sn, usage, contracts, names, rows, row);
      FileRows(sn, usage, init, names, rows, row);
      ForContractCount(rows, last, row);
    } else {
      NoFiles(sn, usage, names);
    }
  }

  lemma NoFiles(sn: Snapshot, usage: UsageByMetric, names: Names)
    ensures RowsIn(FilesFor(sn, usage, [], names)) == []
  {
  }

  /** What the last contract adds: its rows, unless it was listed before, when it had none. */
  lemma LastFile(sn: Snapshot, usage: UsageByMetric, contracts: seq<string>, names: Names, rows: seq<Row>, row: Row)
    requires contracts != [] && DistinctNames(FilesFor(sn, usage, contracts, names))
    requires forall c :: c in contracts ==> Report(sn, usage, {c}) == Some(ForContract(rows, c))
    ensures var init, last := contracts[..|contracts| - 1], contracts[|contracts| - 1];
            && DistinctNames(FilesFor(sn, usage, init, names))
            && (forall c :: c in contracts <==> c in init || c == last)
            && (last in init ==> ForContract(rows, last) == [])
            && multiset(RowsIn(FilesFor(sn, usage, contracts, names)))[row]
               == multiset(RowsIn(FilesFor(sn, usage, init, names)))[row] + multiset(ForContract(rows, last))[row]
  {
    hide Report, ForContract, DistinctNames, NameOf, NameSet, RowsIn;
    var init, last := contracts[..|contracts| - 1], contracts[|contracts| - 1];
    assert contracts == init + [last];
    var before := FilesFor(sn, usage, init, names);
    if ForContract(rows, last) != [] {
      var file := File(NameOf(names, last), ForContract(rows, last));
      assert FilesFor(sn, usage, contracts, names) == before + [file];
      NamesSnoc(before, file);
      RowsSnoc(before, file);
      if last in init {
        NamedFile(sn, usage, init, names, last);
      }
    } else {
      assert FilesFor(sn, usage, contracts, names) == before;
    }
  }

  lemma RowsSnoc(files: seq<File>, file: File)
    ensures RowsIn(files + [file]) == RowsIn(files) + file.rows
  {
    assert (files + [file])[..|files|] == files;
  }

  lemma NumbersListed(cs: seq<Contract>)
    ensures forall c :: c in NumberList(cs) <==> c in Numbers(cs)
  {
    forall c ensures c in NumberList(cs) <==> c in Numbers(cs) {
      if c in Numbers(cs) {
        var k :| 0 <= k < |cs| && cs[k].number == c;
        assert NumberList(cs)[k] == c;
      }
      if c in NumberList(cs) {
        var k :| 0 <= k < |cs| && NumberList(cs)[k] == c;
        assert cs[k].number == c;
      }
    }
  }

  lemma {:induction false} NoFilesNoRows(sn: Snapshot, usage: UsageByMetric, contracts: seq<string>, names: Names)
    ensures FilesFor(sn, usage, contracts, names) != [] ==>
              exists c :: c in contracts && Report(sn, usage, {c}).Some? && Report(sn, usage, {c}).value != []
  {
    hide Report;
    if contracts != [] {
      NoFilesNoRows(sn, usage, contracts[..|contracts| - 1], names);
      assert contracts == contracts[..|contracts| - 1] + [contracts[|contracts| - 1]];
    }
  }

  lemma {:induction false} ForContractEmpty(rows: seq<Row>, c: string)
    ensures ForContract(rows, c) == [] <==> forall row :: row in rows ==> row.contract != c
  {
    if rows != [] {
      ForContractEmpty(rows[..|rows| - 1], c);
      assert rows == rows[..|rows| - 1] + [rows[|rows| - 1]];
    }
  }

  /** The two modes write the same report.  Per-contract files are written exactly when the combined
      file is and no filename repeats; and together they then hold its rows, each as often, and its
      total cost. */
  lemma BothModesAgree(sn: Snapshot, usage: UsageByMetric, names: Names)
    ensures var whole, each := FilesOf(sn, usage, false, names), FilesOf(sn, usage, true, names);
            && (each.Some? <==> whole.Some? && DistinctNames(FilesFor(sn, usage, NumberList(sn.contracts), names)))
            && (each.Some? ==>
                  && multiset(RowsIn(each.value)) == multiset(RowsIn(whole.value))
                  && TotalCost(RowsIn(each.value)) == TotalCost(RowsIn(whole.value)))
  {
    hide Report, ForContract, DistinctNames, FilesFor, TotalCost;
    var numbers := NumberList(sn.contracts);
    var files := FilesFor(sn, usage, numbers, names);
    NumbersListed(sn.contracts);
    NoFilesNoRows(sn, usage, numbers, names);
    if Numbers(sn.contracts) != {} {
      ReportPartition(sn, usage, Numbers(sn.contracts));
      if Report(sn, usage, Numbers(sn.contracts)).Some? {
        var rows := Report(sn, usage, Numbers(sn.contracts)).value;
        FilesIffRows(sn, usage, numbers, names, rows);
        if DistinctNames(files) && rows != [] {
          SameContents(sn, usage, numbers, names, rows);
          OneFile(File(names.whole, rows));
        }
      }
    } else {
      NothingToReport(sn, usage, names);
    }
  }

  lemma OneFile(f: File)
    ensures RowsIn([f]) == f.rows
  {
    var one := [f];
    assert one[..0] == [];
    assert RowsIn(one) == RowsIn(one[..0]) + one[0].rows;
  }

  lemma FilesIffRows(sn: Snapshot, usage: UsageByMetric, contracts: seq<string>, names: Names, rows: seq<Row>)
    requires forall c :: c in contracts ==> Report(sn, usage, {c}) == Some(ForContract(rows, c))
    requires forall row :: row in rows ==> row.contract in contracts
    ensures FilesFor(sn, usage, contracts, names) != [] <==> rows != []
  {
    hide Report, ForContract;
    NoFilesNoRows(sn, usage, contracts, names);
    if rows != [] {
      var row := rows[0];
      assert row in rows;
      ForContractEmpty(rows, row.contract);
      NamedFile(sn, usage, contracts, names, row.contract);
    } else if c :| c in contracts && ForContract(rows, c) != [] {
      ForContractEmpty(rows, c);
    }
  }

  lemma SameContents(sn: Snapshot, usage: UsageByMetric, contracts: seq<string>, names: Names, rows: seq<Row>)
    requires DistinctNames(FilesFor(sn, usage, contracts, names))
    requires forall c :: c in contracts ==> Report(sn, usage, {c}) == Some(ForContract(rows, c))
    requires forall row :: row in rows ==> row.contract in contracts
    ensures multiset(RowsIn(FilesFor(sn, usage, contracts, names))) == multiset(rows)
    ensures TotalCost(RowsIn(FilesFor(sn, usage, contracts, names))) == TotalCost(rows)
  {
    hide Report, ForContract, FilesFor, DistinctNames;
    var all := RowsIn(FilesFor(sn, usage, contracts, names));
    forall row ensures multiset(all)[row] == multiset(rows)[row] {
      FileRows(sn, usage, contracts, names, rows, row);
      if row in multiset(rows) {
        assert row in rows;
      }
    }
    TotalCostPermutation(all, rows);
  }

  lemma {:induction false} NobodyChosen(lines: seq<Line>)
    ensures Select(lines, {}) == Some([])
  {
    if lines != [] {
      NobodyChosen(lines[..|lines| - 1]);
      JoinUnit(Some([]));
      assert SelectLine(lines[|lines| - 1], {}) == Some([]);
    }
  }

  lemma NothingToReport(sn: Snapshot, usage: UsageByMetric, names: Names)
    requires Numbers(sn.contracts) == {}
    ensures FilesOf(sn, usage, false, names).None? && FilesOf(sn, usage, true, names).None?
  {
    hide MeteredLines, SyntheticLines;
    NumbersListed(sn.contracts);
    NoFilesNoRows(sn, usage, NumberList(sn.contracts), names);
    var lines := if MeteredLines(sn, sn.plan, usage).Some? then MeteredLines(sn, sn.plan, usage).value + SyntheticLines(sn) else [];
    NobodyChosen(lines);
  }

  // ---- the rows do not depend on the order of usage, nor on sharding ----

  lemma SelectAround(lines: seq<Line>, i: nat, contracts: set<string>)
    requires i < |lines|
    ensures var rest := Select(lines[..i] + lines[i + 1..], contracts);
            var one := SelectLine(lines[i], contracts);
            && (Select(lines, contracts).Some? <==> rest.Some? && one.Some?)
            && (Select(lines, contracts).Some? ==>
                  multiset(Select(lines, contracts).value) == multiset(one.value) + multiset(rest.value))
  {
    assert lines == lines[..i] + [lines[i]] + lines[i + 1..];
    SelectConcat(lines[..i] + [lines[i]], lines[i + 1..], contracts);
    SelectConcat(lines[..i], [lines[i]], contracts);
    SelectConcat(lines[..i], lines[i + 1..], contracts);
    SelectOne(lines[i], contracts);
  }

  lemma {:induction false} SelectPermutation(a: seq<Line>, b: seq<Line>, contracts: set<string>)
    requires multiset(a) == multiset(b)
    ensures SameRows(Select(a, contracts), Select(b, contracts))
  {
    if a == [] {
      assert |b| == |multiset(b)| == |multiset(a)| == 0;
    } else {
      var i := Pick(a, b);
      SelectPermutation(a[1..], b[..i] + b[i + 1..], contracts);
      SelectAround(a, 0, contracts);
      assert a[..0] + a[1..] == a[1..];
      SelectAround(b, i, contracts);
    }
  }

  /** Two outcomes that both fail, or hold the same rows up to order. */
  ghost predicate SameRows(a: Option<seq<Row>>, b: Option<seq<Row>>) {
    (a.Some? <==> b.Some?) && (a.Some? ==> multiset(a.value) == multiset(b.value))
  }

  lemma {:induction false} UsageLinesPermutation(sn: Snapshot, product: Product, a: seq<Entry<Meter>>,
                                                 b: seq<Entry<Meter>>)
    requires multiset(a) == multiset(b)
    ensures multiset(UsageLines(sn, product, a)) == multiset(UsageLines(sn, product, b))
  {
    if a == [] {
      assert |b| == |multiset(b)| == |multiset(a)| == 0;
    } else {
      var i := Pick(a, b);
      UsageLinesPermutation(sn, product, a[1..], b[..i] + b[i + 1..]);
      assert b == b[..i] + b[i..];
      UsageLinesConcat(sn, product, b[..i], b[i..]);
      UsageLinesConcat(sn, product, b[..i], b[i + 1..]);
    }
  }

  /** The records agree, metric by metric, up to order. */
  ghost predicate SameUsage(sn: Snapshot, a: UsageByMetric, b: UsageByMetric) {
    forall p :: p in sn.plan ==>
      multiset(ShardedUsage.Lookup(a, p.metric)) == multiset(ShardedUsage.Lookup(b, p.metric))
  }

  lemma ProductPermutation(sn: Snapshot, p: Product, a: UsageByMetric, b: UsageByMetric)
    requires multiset(ShardedUsage.Lookup(a, p.metric)) == multiset(ShardedUsage.Lookup(b, p.metric))
    ensures ProductUsage(sn, p, a).Some? <==> ProductUsage(sn, p, b).Some?
    ensures ProductUsage(sn, p, a).Some? ==>
              multiset(ProductUsage(sn, p, a).value) == multiset(ProductUsage(sn, p, b).value)
  {
    var x, y := ShardedUsage.Lookup(a, p.metric), ShardedUsage.Lookup(b, p.metric);
    assert |x| == |multiset(x)| == |multiset(y)| == |y|;
    CanonicalPermutation(x, y, sn.volumeTypes);
  }

  lemma {:induction false} MeteredPermutation(sn: Snapshot, ps: seq<Product>, a: UsageByMetric, b: UsageByMetric)
    requires SameUsage(sn, a, b) && forall p :: p in ps ==> p in sn.plan
    ensures MeteredLines(sn, ps, a).Some? <==> MeteredLines(sn, ps, b).Some?
    ensures MeteredLines(sn, ps, a).Some? ==>
              multiset(MeteredLines(sn, ps, a).value) == multiset(MeteredLines(sn, ps, b).value)
  {
    if ps != [] {
      var init, p := ps[..|ps| - 1], ps[|ps| - 1];
      MeteredPermutation(sn, init, a, b);
      assert p in ps;
      ProductPermutation(sn, p, a, b);
      if ProductUsage(sn, p, a).Some? {
        UsageLinesPermutation(sn, p, ProductUsage(sn, p, a).value, ProductUsage(sn, p, b).value);
      }
    }
  }

  /** A report is determined, up to the order of its rows, by the records of each metric. */
  lemma ReportPermutation(sn: Snapshot, a: UsageByMetric, b: UsageByMetric, contracts: set<string>)
    requires SameUsage(sn, a, b)
    ensures SameRows(Report(sn, a, contracts), Report(sn, b, contracts))
  {
    hide MeteredLines, SyntheticLines, Select;
    MeteredPermutation(sn, sn.plan, a, b);
    if MeteredLines(sn, sn.plan, a).Some? {
      var x, y := MeteredLines(sn, sn.plan, a).value, MeteredLines(sn, sn.plan, b).value;
      SelectPermutation(x + SyntheticLines(sn), y + SyntheticLines(sn), contracts);
    }
  }

  /** Two outcomes that both write nothing, or write files of the same names, in the same order, with
      the same rows up to order. */
  ghost predicate SameFiles(a: Option<seq<File>>, b: Option<seq<File>>) {
    (a.Some? <==> b.Some?) && (a.Some? ==> SameFileList(a.value, b.value))
  }

  ghost predicate SameFileList(a: seq<File>, b: seq<File>) {
    |a| == |b| && forall i :: 0 <= i < |a| ==> a[i].name == b[i].name && multiset(a[i].rows) == multiset(b[i].rows)
  }

  lemma {:induction false} FilesForPermutation(sn: Snapshot, a: UsageByMetric, b: UsageByMetric, contracts: seq<string>,
                                               names: Names)
    requires SameUsage(sn, a, b)
    ensures SameFileList(FilesFor(sn, a, contracts, names), FilesFor(sn, b, contracts, names))
    ensures Writable(sn, a, contracts) <==> Writable(sn, b, contracts)
  {
    if contracts != [] {
      hide Report, SameUsage, FileFor, SameFileList;
      var init, last := contracts[..|contracts| - 1], contracts[|contracts| - 1];
      assert contracts == init + [last];
      FilesForPermutation(sn, a, b, init, names);
      FileForPermutation(sn, a, b, last, names);
      SameFilesConcat(FilesFor(sn, a, init, names), FilesFor(sn, b, init, names),
                      FileFor(sn, a, last, names), FileFor(sn, b, last, names));
    }
  }

  lemma FileForPermutation(sn: Snapshot, a: UsageByMetric, b: UsageByMetric, contract: string, names: Names)
    requires SameUsage(sn, a, b)
    ensures SameFileList(FileFor(sn, a, contract, names), FileFor(sn, b, contract, names))
    ensures Report(sn, a, {contract}).Some? <==> Report(sn, b, {contract}).Some?
  {
    hide Report, SameUsage;
    ReportPermutation(sn, a, b, {contract});
    var x, y := Report(sn, a, {contract}), Report(sn, b, {contract});
    assert x.Some? ==> |x.value| == |multiset(x.value)| == |multiset(y.value)| == |y.value|;
  }

  lemma SameFilesConcat(a: seq<File>, b: seq<File>, c: seq<File>, d: seq<File>)
    requires SameFileList(a, b) && SameFileList(c, d)
    ensures SameFileList(a + c, b + d)
  {
  }

  /** The files of a report are determined, up to the order of their rows, by the records of each
      metric. */
  lemma FilesPermutation(sn: Snapshot, a: UsageByMetric, b: UsageByMetric, perContract: bool, names: Names)
    requires SameUsage(sn, a, b)
    ensures SameFiles(FilesOf(sn, a, perContract, names), FilesOf(sn, b, perContract, names))
  {
    hide Report, SameUsage, FilesFor, Writable;
    if perContract {
      FilesForPermutation(sn, a, b, NumberList(sn.contracts), names);
    } else {
      ReportPermutation(sn, a, b, Numbers(sn.contracts));
      var x, y := Report(sn, a, Numbers(sn.contracts)), Report(sn, b, Numbers(sn.contracts));
      assert x.Some? ==> |x.value| == |multiset(x.value)| == |multiset(y.value)| == |y.value|;
    }
  }

  /** What one faithful query of the whole period per metric would hand to rendering. */
  ghost predicate WholeUsage(store: seq<ShardedUsage.Sample>, plan: ShardedUsage.Plan, additive: set<string>,
                             answers: string -> seq<Gnocchi.Response>, whole: UsageByMetric)
    requires ShardedUsage.Period(plan) > 0.0
  {
    forall m :: m in plan.scope.metrics ==>
      var q := ShardedUsage.WholeQuery(plan, m in additive, m);
      AccumulateMeaning(Gnocchi.AllCharges(q, answers(m)));
      && ShardedUsage.FaithfulReply(store, plan, q, m, plan.scope.projects, answers(m))
      && ShardedUsage.Lookup(whole, m) == Entries(Accumulate(Gnocchi.AllCharges(q, answers(m))))
  }

  lemma FinishedTableUsage(sn: Snapshot, store: seq<ShardedUsage.Sample>, plan: ShardedUsage.Plan,
                           t: seq<Shard>, additive: set<string>, answers: string -> seq<Gnocchi.Response>,
                           whole: UsageByMetric)
    requires ShardedUsage.Period(plan) > 0.0
    requires forall p :: p in sn.plan ==> p.metric in plan.scope.metrics
    requires Tiled(plan.scope, t) && ShardedUsage.TableFaithful(store, plan, t) && FirstPending(t) == |t|
    requires WholeUsage(store, plan, additive, answers, whole)
    ensures SameUsage(sn, ShardedUsage.Merged(t), whole)
  {
    hide Tiled;
    var merged := ShardedUsage.Merged(t);
    AccumulateMeaning(ShardedUsage.Checkpointed(t));
    forall p | p in sn.plan
      ensures multiset(ShardedUsage.Lookup(merged, p.metric)) == multiset(ShardedUsage.Lookup(whole, p.metric))
    {
      var m := p.metric;
      ShardedUsage.GroupedMeaning(Entries(Accumulate(ShardedUsage.Checkpointed(t))), m);
      ShardedUsage.ShardedEqualsUnsharded(store, plan, t, m, m in additive, answers(m));
    }
  }

  /** A finished table of faithful checkpoints renders what the unsharded query renders, up to the
      order of rows: for any choice of contracts, and in the files of either mode. */
  lemma FinishedTableRows(sn: Snapshot, store: seq<ShardedUsage.Sample>, plan: ShardedUsage.Plan,
                          t: seq<Shard>, additive: set<string>, answers: string -> seq<Gnocchi.Response>,
                          whole: UsageByMetric, contracts: set<string>, perContract: bool, names: Names)
    requires ShardedUsage.Period(plan) > 0.0
    requires forall p :: p in sn.plan ==> p.metric in plan.scope.metrics
    requires Tiled(plan.scope, t) && ShardedUsage.TableFaithful(store, plan, t) && FirstPending(t) == |t|
    requires WholeUsage(store, plan, additive, answers, whole)
    ensures SameRows(Report(sn, ShardedUsage.Merged(t), contracts), Report(sn, whole, contracts))
    ensures SameFiles(FilesOf(sn, ShardedUsage.Merged(t), perContract, names), FilesOf(sn, whole, perContract, names))
  {
    hide Tiled, Report, SameUsage, FilesOf, WholeUsage, ShardedUsage.TableFaithful;
    FinishedTableUsage(sn, store, plan, t, additive, answers, whole);
    ReportPermutation(sn, ShardedUsage.Merged(t), whole, contracts);
    FilesPermutation(sn, ShardedUsage.Merged(t), whole, perContract, names);
  }

  /** The rows of a report do not depend on how its period was split, retried and resumed: every
      run of the shard loop that ends with nothing pending renders what the unsharded query would
      have rendered. */
  lemma ShardingInvisible(sn: Snapshot, store: seq<ShardedUsage.Sample>, plan: ShardedUsage.Plan,
                          os: seq<Outcome>, additive: set<string>,
                          answers: string -> seq<Gnocchi.Response>,
                          whole: UsageByMetric, contracts: set<string>, perContract: bool, names: Names)
    requires ValidScope(plan.scope) && ShardedUsage.Period(plan) > 0.0
    requires forall p :: p in sn.plan ==> p.metric in plan.scope.metrics
    requires ShardedUsage.TruthfulRun(store, plan, Planned(plan.scope), os)
    requires FirstPending(Replay(Planned(plan.scope), os)) == |Replay(Planned(plan.scope), os)|
    requires WholeUsage(store, plan, additive, answers, whole)
    ensures SameRows(Report(sn, ShardedUsage.Merged(Replay(Planned(plan.scope), os)), contracts),
                     Report(sn, whole, contracts))
    ensures SameFiles(FilesOf(sn, ShardedUsage.Merged(Replay(Planned(plan.scope), os)), perContract, names),
                      FilesOf(sn, whole, perContract, names))
  {
    PlannedInv(plan.scope);
    ReplayInv(plan.scope, Planned(plan.scope), os);
    ShardedUsage.ReplayFaithful(store, plan, Planned(plan.scope), os);
    FinishedTableRows(sn, store, plan, Replay(Planned(plan.scope), os), additive, answers, whole, contracts, perContract,
                      names);
  }
}
