/**
 Bounded export of failure diagnostics. Files do not change during an export; a failing file
 fails before anything of it is written.
 */
module Publish {
  import opened Common

  type Bytes = seq<bv8>

  const CHUNK := 65536
  const REPORT_LIMIT := 1024 * 1024

  datatype Kind = Report | Trace | Text

  /** A selected file: its size on disk, and its content once a compressed log is expanded. */
  datatype Candidate = Candidate(path: string, kind: Kind, stat: nat, content: Bytes) {
    predicate Compressed() {
      kind.Text? && EndsWith(path, ".log.gz")
    }

    predicate Consistent() {
      !Compressed() ==> stat == |content|
    }

    function ExportPath(): string {
      if Compressed() then path[..|path| - |".gz"|] else path
    }
  }

  datatype Limits = Limits(total: int, text: int, trace: int) {
    predicate Valid() {
      total >= 1 && text >= 1 && trace >= 1
    }
  }

  datatype Reason = JobBudget | TraceLimit | ReportLimit | RemainingBudget | TextLimit

  datatype Record =
    | Skipped(reason: Reason)
    | Copied(payload: Bytes)
    | Truncated(payload: Bytes, reason: Reason)
    | ReadFailed
  {
    predicate Exported() {
      Copied? || Truncated?
    }

    function Size(): nat {
      if Exported() then |payload| else 0
    }
  }

  predicate EndsWith(s: string, suffix: string) {
    |suffix| <= |s| && s[|s| - |suffix|..] == suffix
  }

  // ---- tails ----

  function Tail(s: Bytes, limit: nat): Bytes {
    if |s| <= limit then s else s[|s| - limit..]
  }

  lemma TailAbsorbs(s: Bytes, t: Bytes, limit: nat)
    ensures Tail(Tail(s, limit) + t, limit) == Tail(s + t, limit)
  {
  }

  /** Seek to the tail of a plain file and read it. */
  method ReadPlainTail(content: Bytes, limit: nat) returns (tail: Bytes, size: nat)
    ensures tail == Tail(content, limit) && size == |content|
  {
    size := |content|;
    var start := if size - limit > 0 then size - limit else 0;
    var end := if start + limit < size then start + limit else size;
    tail := content[start..end];
  }

  /** Stream an expanded log in chunks, keeping only the tail. */
  method ReadStreamedTail(content: Bytes, limit: nat) returns (tail: Bytes, size: nat)
    requires limit > 0
    ensures tail == Tail(content, limit) && size == |content|
  {
    tail, size := [], 0;
    while size < |content|
      invariant size <= |content| && tail == Tail(content[..size], limit)
    {
      var end := if size + CHUNK < |content| then size + CHUNK else |content|;
      var chunk := content[size..end];
      TailAbsorbs(content[..size], chunk, limit);
      assert content[..size] + chunk == content[..end];
      size := size + |chunk|;
      tail := Tail(tail + chunk, limit);
    }
    assert content[..size] == content;
  }

  method ReadTail(c: Candidate, limit: nat) returns (tail: Bytes, size: nat)
    requires limit > 0
    ensures tail == Tail(c.content, limit) && size == |c.content|
  {
    if c.Compressed() {
      tail, size := ReadStreamedTail(c.content, limit);
    } else {
      tail, size := ReadPlainTail(c.content, limit);
    }
  }

  // ---- export ----

  function Used(records: seq<Record>): nat {
    if records == [] then 0 else Used(records[..|records| - 1]) + records[|records| - 1].Size()
  }

  /** What a record says about its file, given the bytes that were left for it. */
  predicate Truthful(c: Candidate, r: Record, limits: Limits, remaining: int) {
    match r
    case Copied(payload) =>
      && payload == c.content && |payload| <= remaining
      && match c.kind {
         case Report => |payload| <= REPORT_LIMIT
         case Trace => |payload| <= limits.trace
         case Text => |payload| <= limits.text
         }
    case Truncated(payload, reason) =>
      && c.kind.Text? && |payload| < |c.content| && payload == c.content[|c.content| - |payload|..]
      && (reason.JobBudget? || reason.TextLimit?)
      && |payload| == (if reason.JobBudget? then remaining else limits.text)
      && |payload| <= remaining && |payload| <= limits.text
    case Skipped(reason) =>
      (match reason
       case JobBudget => remaining < 1
       case TraceLimit => c.kind.Trace? && c.stat > limits.trace
       case ReportLimit => c.kind.Report? && c.stat > REPORT_LIMIT
       case RemainingBudget => !c.kind.Text? && c.stat > remaining
       case TextLimit => false)
    case ReadFailed => true
  }

  function Least(a: int, b: int): int {
    if a < b then a else b
  }

  /** The record of a file that can be read. */
  function Decide(c: Candidate, limits: Limits, remaining: int): Record
    requires limits.Valid()
  {
    if remaining < 1 then Skipped(JobBudget)
    else if c.kind.Trace? && c.stat > limits.trace then Skipped(TraceLimit)
    else if c.kind.Report? && c.stat > REPORT_LIMIT then Skipped(ReportLimit)
    else if !c.kind.Text? then if c.stat > remaining then Skipped(RemainingBudget) else Copied(c.content)
    else
      var tail := Tail(c.content, Least(limits.text, remaining));
      if |tail| < |c.content| then Truncated(tail, if remaining < limits.text then JobBudget else TextLimit)
      else Copied(tail)
  }

  lemma DecideIsTruthful(c: Candidate, limits: Limits, remaining: int)
    requires c.Consistent() && limits.Valid()
    ensures Truthful(c, Decide(c, limits, remaining), limits, remaining)
  {
  }

  /** Decide about one file, which may turn out unreadable. */
  method ExportOne(c: Candidate, limits: Limits, remaining: int) returns (r: Record)
    requires c.Consistent() && limits.Valid()
    ensures r == ReadFailed || r == Decide(c, limits, remaining)
    ensures Truthful(c, r, limits, remaining)
  {
    DecideIsTruthful(c, limits, remaining);
    var fails := *;
    if fails {
      return ReadFailed;
    }
    if remaining < 1 || (c.kind.Trace? && c.stat > limits.trace) {
      return Skipped(if remaining < 1 then JobBudget else TraceLimit);
    }
    if !c.kind.Text? {
      if c.kind.Report? && c.stat > REPORT_LIMIT {
        return Skipped(ReportLimit);
      }
      if c.stat > remaining {
        return Skipped(RemainingBudget);
      }
      return Copied(c.content);
    }
    var payload, size := ReadTail(c, Least(limits.text, remaining));
    if |payload| < size {
      r := Truncated(payload, if remaining < limits.text then JobBudget else TextLimit);
    } else {
      r := Copied(payload);
    }
  }

  /** The last exported record with this export path, if any. */
  function LastAt(candidates: seq<Candidate>, records: seq<Record>, path: string): Option<Bytes>
    requires |records| <= |candidates|
  {
    if records == [] then None
    else
      var n := |records| - 1;
      if records[n].Exported() && candidates[n].ExportPath() == path then Some(records[n].payload)
      else LastAt(candidates, records[..n], path)
  }

  function Stored(files: map<string, Bytes>, path: string): Option<Bytes> {
    if path in files then Some(files[path]) else None
  }

  predicate TruthfulAt(candidates: seq<Candidate>, records: seq<Record>, limits: Limits, i: nat) {
    i < |records| <= |candidates| ==> Truthful(candidates[i], records[i], limits, limits.total - Used(records[..i]))
  }

  /** Record i is one of the two that its file can get under the budget the earlier records left. */
  predicate MayRecordAt(candidates: seq<Candidate>, records: seq<Record>, limits: Limits, i: nat)
    requires limits.Valid()
  {
    i < |records| <= |candidates| ==>
      records[i] == ReadFailed || records[i] == Decide(candidates[i], limits, limits.total - Used(records[..i]))
  }

  /** The records of some export: each file is decided in turn, or cannot be read. */
  ghost predicate IsExport(candidates: seq<Candidate>, records: seq<Record>, limits: Limits) {
    && limits.Valid() && |records| <= |candidates|
    && forall i: nat {:trigger MayRecordAt(candidates, records, limits, i)} ::
         MayRecordAt(candidates, records, limits, i)
  }

  lemma ExportExtends(candidates: seq<Candidate>, records: seq<Record>, r: Record, limits: Limits)
    requires IsExport(candidates, records, limits) && |records| < |candidates|
    requires r == ReadFailed || r == Decide(candidates[|records|], limits, limits.total - Used(records))
    ensures IsExport(candidates, records + [r], limits) && Used(records + [r]) == Used(records) + r.Size()
  {
    var more := records + [r];
    assert more[..|records|] == records;
    forall i: nat
      ensures MayRecordAt(candidates, more, limits, i)
    {
      assert MayRecordAt(candidates, records, limits, i);
      if i < |records| {
        assert more[..i] == records[..i];
      }
    }
  }

  /** Whatever fails, every record of an export is truthful. */
  lemma ExportsAreTruthful(candidates: seq<Candidate>, records: seq<Record>, limits: Limits, i: nat)
    requires IsExport(candidates, records, limits) && forall c <- candidates :: c.Consistent()
    ensures TruthfulAt(candidates, records, limits, i)
  {
    assert MayRecordAt(candidates, records, limits, i);
    if i < |records| {
      assert candidates[i] in candidates;
      DecideIsTruthful(candidates[i], limits, limits.total - Used(records[..i]));
    }
  }

  /**
   Export the selected files in order. The exported bytes add up to `used` within the total
   limit, and the export holds at each path the last payload written there.
   */
  method Export(candidates: seq<Candidate>, limits: Limits)
    returns (r: Result<seq<Record>>, used: int, files: map<string, Bytes>)
    requires forall c <- candidates :: c.Consistent()
    ensures r.Ok? <==> limits.Valid()
    ensures r.Ok? ==> |r.value| == |candidates| && IsExport(candidates, r.value, limits)
    ensures r.Ok? ==> forall i: nat {:trigger TruthfulAt(candidates, r.value, limits, i)} ::
                        TruthfulAt(candidates, r.value, limits, i)
    ensures r.Ok? ==> used == Used(r.value) <= limits.total
    ensures r.Ok? ==> forall path :: Stored(files, path) == LastAt(candidates, r.value, path)
  {
    used, files := 0, map[];
    if !limits.Valid() {
      return Error("diagnostic size limits must be positive"), 0, map[];
    }
    var records := [];
    for i := 0 to |candidates|
      invariant |records| == i && used == Used(records) <= limits.total
      invariant IsExport(candidates, records, limits)
      invariant forall path :: Stored(files, path) == LastAt(candidates, records, path)
    {
      var c := candidates[i];
      var record := ExportOne(c, limits, limits.total - used);
      ExportExtends(candidates, records, record, limits);
      assert (records + [record])[..i] == records;
      records := records + [record];
      if record.Exported() {
        used := used + record.Size();
        files := files[c.ExportPath() := record.payload];
      }
    }
    forall i: nat
      ensures TruthfulAt(candidates, records, limits, i)
    {
      ExportsAreTruthful(candidates, records, limits, i);
    }
    r := Ok(records);
  }

  // ---- what the export holds ----

  /** The payload of record i is what the export holds at its path. */
  predicate Intact(candidates: seq<Candidate>, records: seq<Record>, i: nat)
    requires i < |records| <= |candidates|
  {
    records[i].Exported() ==> LastAt(candidates, records, candidates[i].ExportPath()) == Some(records[i].payload)
  }

  /** Both are exported to one path. */
  predicate Share(candidates: seq<Candidate>, records: seq<Record>, i: nat, j: nat)
    requires i < |records| <= |candidates| && j < |records|
  {
    records[i].Exported() && records[j].Exported() && candidates[i].ExportPath() == candidates[j].ExportPath()
  }

  lemma {:induction false} SomeRecordIsLast(candidates: seq<Candidate>, records: seq<Record>, i: nat) returns (j: nat)
    requires i < |records| <= |candidates| && records[i].Exported()
    ensures j < |records| && Share(candidates, records, i, j)
    ensures LastAt(candidates, records, candidates[i].ExportPath()) == Some(records[j].payload)
  {
    var n := |records| - 1;
    if Share(candidates, records, i, n) {
      j := n;
    } else {
      j := SomeRecordIsLast(candidates, records[..n], i);
    }
  }

  lemma DistinctPathsKeepPayloads(candidates: seq<Candidate>, records: seq<Record>, i: nat)
    requires i < |records| <= |candidates|
    requires forall j, k :: 0 <= j < k < |candidates| ==> candidates[j].ExportPath() != candidates[k].ExportPath()
    ensures Intact(candidates, records, i)
  {
    if records[i].Exported() {
      var j := SomeRecordIsLast(candidates, records, i);
      assert j == i;
    }
  }

  // ---- which names are safe to export together ----

  /** What is known of a file before it is read. */
  datatype Name = Name(path: string, kind: Kind)

  function NameOf(c: Candidate): Name {
    Name(c.path, c.kind)
  }

  ghost predicate AreNamed(candidates: seq<Candidate>, names: seq<Name>) {
    |candidates| == |names| && forall i :: 0 <= i < |names| ==> NameOf(candidates[i]) == names[i]
  }

  function ExportPathOf(n: Name): string {
    Candidate(n.path, n.kind, 0, []).ExportPath()
  }

  ghost predicate KeepsAll(candidates: seq<Candidate>, records: seq<Record>) {
    |records| <= |candidates| && forall i: nat :: i < |records| ==> Intact(candidates, records, i)
  }

  /** Whatever the files contain, whatever the limits and whatever fails, every exported payload stays. */
  ghost predicate AreSafe(names: seq<Name>) {
    forall candidates: seq<Candidate>, records: seq<Record>, limits ::
      AreNamed(candidates, names) && (forall c <- candidates :: c.Consistent()) && IsExport(candidates, records, limits)
      ==> KeepsAll(candidates, records)
  }

  const FIRST: Bytes := [1]

  const SECOND: Bytes := [2]

  /** Files with these names, of which i and j hold one byte each and the others nothing. */
  function Pair(names: seq<Name>, i: nat, j: nat): seq<Candidate> {
    seq(|names|, m requires 0 <= m < |names| =>
      var content := if m == i then FIRST else if m == j then SECOND else [];
      Candidate(names[m].path, names[m].kind, |content|, content))
  }

  /** The export in which all but i and j cannot be read. */
  function PairRecords(n: nat, i: nat, j: nat): seq<Record> {
    seq(n, m requires 0 <= m < n => if m == i then Copied(FIRST) else if m == j then Copied(SECOND) else ReadFailed)
  }

  lemma {:induction false} UsedByPair(n: nat, i: nat, j: nat, m: nat)
    requires i < j < n && m <= n
    ensures Used(PairRecords(n, i, j)[..m]) == (if m <= i then 0 else if m <= j then 1 else 2)
  {
    if m > 0 {
      var records := PairRecords(n, i, j);
      assert records[..m][..m - 1] == records[..m - 1] && records[..m][m - 1] == records[m - 1];
      UsedByPair(n, i, j, m - 1);
    }
  }

  lemma PairIsExported(names: seq<Name>, i: nat, j: nat)
    requires i < j < |names|
    ensures IsExport(Pair(names, i, j), PairRecords(|names|, i, j), Limits(2, 1, 1))
    ensures AreNamed(Pair(names, i, j), names) && forall c: Candidate <- Pair(names, i, j) :: c.Consistent()
  {
    var candidates, records, limits := Pair(names, i, j), PairRecords(|names|, i, j), Limits(2, 1, 1);
    forall m: nat
      ensures MayRecordAt(candidates, records, limits, m)
    {
      if m < |names| {
        UsedByPair(|names|, i, j, m);
      }
    }
  }

  lemma {:induction false} SecondReplacesFirst(names: seq<Name>, i: nat, j: nat, m: nat)
    requires i < j < m <= |names| && ExportPathOf(names[i]) == ExportPathOf(names[j])
    ensures LastAt(Pair(names, i, j), PairRecords(|names|, i, j)[..m], ExportPathOf(names[i])) == Some(SECOND)
  {
    var candidates, records := Pair(names, i, j), PairRecords(|names|, i, j)[..m];
    assert records[..m - 1] == PairRecords(|names|, i, j)[..m - 1];
    assert candidates[j].ExportPath() == ExportPathOf(names[j]);
    if m - 1 > j {
      SecondReplacesFirst(names, i, j, m - 1);
    }
  }

  ghost predicate PathsDiffer(names: seq<Name>) {
    forall i, j :: 0 <= i < j < |names| ==> ExportPathOf(names[i]) != ExportPathOf(names[j])
  }

  lemma DifferentPathsAreSafe(names: seq<Name>, candidates: seq<Candidate>, records: seq<Record>)
    requires PathsDiffer(names) && AreNamed(candidates, names) && |records| <= |candidates|
    ensures KeepsAll(candidates, records)
  {
    forall i | 0 <= i < |candidates|
      ensures candidates[i].ExportPath() == ExportPathOf(names[i])
    {
      assert NameOf(candidates[i]) == names[i];
    }
    forall i: nat | i < |records|
      ensures Intact(candidates, records, i)
    {
      DistinctPathsKeepPayloads(candidates, records, i);
    }
  }

  lemma SharedPathIsUnsafe(names: seq<Name>, i: nat, j: nat)
    requires i < j < |names| && ExportPathOf(names[i]) == ExportPathOf(names[j])
    ensures !KeepsAll(Pair(names, i, j), PairRecords(|names|, i, j))
  {
    var candidates, records := Pair(names, i, j), PairRecords(|names|, i, j);
    assert records[..|names|] == records;
    SecondReplacesFirst(names, i, j, |names|);
    assert candidates[i].ExportPath() == ExportPathOf(names[i]);
    assert !Intact(candidates, records, i);
  }

  /** Names are safe to export together exactly when no two of them have the same export path. */
  lemma NamesAreSafeIffPathsDiffer(names: seq<Name>)
    ensures AreSafe(names) <==> PathsDiffer(names)
  {
    if PathsDiffer(names) {
      forall candidates: seq<Candidate>, records: seq<Record>, limits |
        AreNamed(candidates, names) && IsExport(candidates, records, limits)
        ensures KeepsAll(candidates, records)
      {
        DifferentPathsAreSafe(names, candidates, records);
      }
    } else {
      var i: nat, j: nat :| i < j < |names| && ExportPathOf(names[i]) == ExportPathOf(names[j]);
      PairIsExported(names, i, j);
      SharedPathIsUnsafe(names, i, j);
    }
  }

  lemma EndsWithLast(s: string, suffix: string)
    requires EndsWith(s, suffix) && suffix != ""
    ensures s != "" && s[|s| - 1] == suffix[|suffix| - 1]
  {
    assert s[|s| - |suffix|..][|suffix| - 1] == suffix[|suffix| - 1];
  }

  /** A plain log and its compressed neighbour share one export path, so they are not safe together. */
  lemma CompressedNeighboursClash(name: string)
    ensures !AreSafe([Name(name + ".log", Text), Name(name + ".log.gz", Text)])
  {
    var names := [Name(name + ".log", Text), Name(name + ".log.gz", Text)];
    var zipped := names[1].path;
    assert zipped[|zipped| - |".log.gz"|..] == ".log.gz";
    assert ExportPathOf(names[1]) == name + ".log";
    assert !EndsWith(names[0].path, ".log.gz") by {
      if EndsWith(names[0].path, ".log.gz") {
        EndsWithLast(names[0].path, ".log.gz");
        assert false;
      }
    }
    assert ExportPathOf(names[0]) == ExportPathOf(names[1]);
    NamesAreSafeIffPathsDiffer(names);
  }

  /** Equal contents do not help: the budget left for the second copy may cut it, and the whole first one is gone. */
  lemma EqualNeighboursMayBeCut(a: Candidate, b: Candidate, first: bv8, second: bv8)
    requires a.kind.Text? && b.kind.Text? && a.ExportPath() == b.ExportPath()
    requires a.content == b.content == [first, second] && a.Consistent() && b.Consistent()
    ensures var records := [Copied([first, second]), Truncated([second], JobBudget)];
            IsExport([a, b], records, Limits(3, 2, 1)) && !KeepsAll([a, b], records)
  {
    var records := [Copied([first, second]), Truncated([second], JobBudget)];
    assert records[..0] == [] && records[..1] == [records[0]] && records[..1][..0] == [];
    forall i: nat
      ensures MayRecordAt([a, b], records, Limits(3, 2, 1), i)
    {
    }
    assert !Intact([a, b], records, 0);
  }
}
