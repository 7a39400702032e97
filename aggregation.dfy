/**
 * The usage analytics pipeline (models/usage/buildAggregation.ts): the stages the builder
 * emits, and an evaluator that gives those stages their database meaning over a
 * collection of usage records.
 */
module Aggregation {
  import opened Wrappers
  import opened Enums
  import opened Common
  import opened Schema
  import opened EntityRepo

  /** The date filter; each bound is a timestamp, absent when not supplied or empty. */
  datatype Filters = Filters(startDate: Option<int>, endDate: Option<int>)

  datatype TopN = TopN(property: string, n: int)

  /** `UsageAnalyticInput`: filters, requested metrics, optional grouping field and top-N. */
  datatype UsageAnalyticInput = UsageAnalyticInput(
    filters: Filters, metrics: seq<string>, dimension: Option<string>, topN: Option<TopN>)

  /** The `$group` document: the `_id` expression and which accumulators are present. */
  datatype GroupStage = GroupStage(idField: Option<string>, totalTokens: bool, totalCost: bool, uniqSessions: bool)

  datatype Stage =
    | Match(gte: Option<int>, lte: Option<int>, comment: Option<string>)  // { $match: { createdAt: { $gte, $lte } } }
    | Group(group: GroupStage)                                             // { $group: ... }
    | AddTotalSessions                                                     // { $addFields: { total_sessions: { $size: '$uniq_sessions' } } }
    | ProjectOutUniqSessions                                               // { $project: { uniq_sessions: 0 } }
    | Sort(property: string)                                               // { $sort: { [property]: -1 } }
    | Limit(n: int)                                                        // { $limit: n }

  const TotalTokens: string := "total_tokens"
  const TotalCost: string := "total_cost"
  const TotalSessions: string := "total_sessions"

  // ---------------------------------------------------------------- builder

  /** `addFilterStage`: one `$match` on `createdAt` holding whichever bounds were supplied, or nothing. */
  method AddFilterStage(filters: Filters, pipeline: seq<Stage>) returns (p: seq<Stage>)
    ensures filters.startDate.Some? || filters.endDate.Some? ==>
      p == pipeline + [Match(filters.startDate, filters.endDate, None)]
    ensures filters.startDate.None? && filters.endDate.None? ==> p == pipeline
  {
    var gte: Option<int> := None;
    var lte: Option<int> := None;
    if filters.endDate.Some? {
      lte := filters.endDate;
    }
    if filters.startDate.Some? {
      gte := filters.startDate;
    }
    p := pipeline;
    if gte.Some? || lte.Some? {
      p := p + [Match(gte, lte, None)];
    }
  }

  /** The `$group` the builder emits for a dimension and a list of metrics. */
  function GroupFor(dimension: Option<string>, metrics: seq<string>): GroupStage
  {
    GroupStage(if Present(dimension) then Some("$" + dimension.value) else None,
      TotalTokens in metrics, TotalCost in metrics, TotalSessions in metrics)
  }

  /**
   * `addGroupStage`: group by `$<dimension>` (everything in one group without one),
   * with an accumulator per recognised metric and none for any other name; when
   * sessions are requested, turn the session set into its size and drop the set.
   */
  method AddGroupStage(dimension: Option<string>, metrics: seq<string>, pipeline: seq<Stage>)
    returns (p: seq<Stage>, group: GroupStage)
    ensures group.idField == (if Present(dimension) then Some("$" + dimension.value) else None)
    ensures group.totalTokens <==> TotalTokens in metrics
    ensures group.totalCost <==> TotalCost in metrics
    ensures group.uniqSessions <==> TotalSessions in metrics
    ensures p == pipeline + [Group(group)] +
      (if TotalSessions in metrics then [AddTotalSessions, ProjectOutUniqSessions] else [])
  {
    group := GroupStage(if Present(dimension) then Some("$" + dimension.value) else None, false, false, false);
    var i := 0;
    while i < |metrics|
      invariant 0 <= i <= |metrics|
      invariant group.idField == (if Present(dimension) then Some("$" + dimension.value) else None)
      invariant group.totalTokens <==> TotalTokens in metrics[..i]
      invariant group.totalCost <==> TotalCost in metrics[..i]
      invariant group.uniqSessions <==> TotalSessions in metrics[..i]
    {
      assert metrics[..i + 1] == metrics[..i] + [metrics[i]];
      if metrics[i] == TotalTokens {
        group := group.(totalTokens := true);
      } else if metrics[i] == TotalCost {
        group := group.(totalCost := true);
      } else if metrics[i] == TotalSessions {
        group := group.(uniqSessions := true);
      }
      i := i + 1;
    }
    assert metrics[..|metrics|] == metrics;
    p := pipeline + [Group(group)];
    if TotalSessions in metrics {
      p := p + [AddTotalSessions, ProjectOutUniqSessions];
    }
  }

  /** `addTopNStage`: a descending sort on the property and a limit, when top-N is requested. */
  method AddTopNStage(topN: Option<TopN>, pipeline: seq<Stage>) returns (p: seq<Stage>)
    ensures topN.Some? ==> p == pipeline + [Sort(topN.value.property), Limit(topN.value.n)]
    ensures topN.None? ==> p == pipeline
  {
    p := pipeline;
    if topN.Some? {
      p := p + [Sort(topN.value.property)];
      p := p + [Limit(topN.value.n)];
    }
  }

  /** The pipeline for an input: filter, then group, then top-N. */
  function PipelineFor(input: UsageAnalyticInput): (p: seq<Stage>)
    ensures 1 <= |p| <= 6
    ensures Group(GroupFor(input.dimension, input.metrics)) in p
    ensures AddTotalSessions in p <==> TotalSessions in input.metrics
    ensures input.topN.None? ==> forall i :: 0 <= i < |p| ==> !p[i].Sort? && !p[i].Limit?
  {
    (if input.filters.startDate.Some? || input.filters.endDate.Some?
     then [Match(input.filters.startDate, input.filters.endDate, None)] else []) +
    [Group(GroupFor(input.dimension, input.metrics))] +
    (if TotalSessions in input.metrics then [AddTotalSessions, ProjectOutUniqSessions] else []) +
    (if input.topN.Some? then [Sort(input.topN.value.property), Limit(input.topN.value.n)] else [])
  }

  /** `buildAggregation`. */
  method BuildAggregation(input: UsageAnalyticInput) returns (pipeline: seq<Stage>)
    ensures pipeline == PipelineFor(input)
  {
    pipeline := [];
    pipeline := AddFilterStage(input.filters, pipeline);
    var group;
    pipeline, group := AddGroupStage(input.dimension, input.metrics, pipeline);
    pipeline := AddTopNStage(input.topN, pipeline);
  }

  /**
   * Shape of every built pipeline: a `$match` exactly when a date bound is given and
   * then only first, exactly one `$group`, and the sort and limit last.
   */
  lemma PipelineShape(input: UsageAnalyticInput)
    ensures var p := PipelineFor(input);
      var g := if input.filters.startDate.Some? || input.filters.endDate.Some? then 1 else 0;
      ((exists i :: 0 <= i < |p| && p[i].Match?) <==> g == 1) &&
      (forall i :: 0 <= i < |p| && p[i].Match? ==> i == 0) &&
      (forall i :: 0 <= i < |p| && p[i].Group? ==> i == g) && p[g] == Group(GroupFor(input.dimension, input.metrics)) &&
      (input.topN.Some? ==> p[|p| - 2] == Sort(input.topN.value.property) && p[|p| - 1] == Limit(input.topN.value.n))
  {
    var p := PipelineFor(input);
    if input.filters.startDate.Some? || input.filters.endDate.Some? {
      assert p[0].Match?;
    }
  }

  // ---------------------------------------------------------------- comments

  /** The stage with the request comment attached when it is a `$match`. */
  function WithComment(s: Stage, comment: string): Stage
  {
    if s.Match? then s.(comment := Some(comment)) else s
  }

  /** `aggregate`'s loop: attach the request comment to every `$match` stage, in place. */
  method AttachComment(pipeline: array<Stage>, comment: string)
    modifies pipeline
    ensures forall i :: 0 <= i < pipeline.Length ==> pipeline[i] == WithComment(old(pipeline[i]), comment)
  {
    var i := 0;
    while i < pipeline.Length
      invariant 0 <= i <= pipeline.Length
      invariant forall j :: 0 <= j < i ==> pipeline[j] == WithComment(old(pipeline[j]), comment)
      invariant forall j :: i <= j < pipeline.Length ==> pipeline[j] == old(pipeline[j])
    {
      if pipeline[i].Match? {
        pipeline[i] := pipeline[i].(comment := Some(comment));
      }
      i := i + 1;
    }
  }

  // ---------------------------------------------------------------- evaluation

  /** A group key: null, a string, a number or a date. */
  datatype Key = NullKey | StrKey(s: string) | NumKey(r: real) | DateKey(t: int)

  /** One output document of the pipeline. */
  datatype Row = Row(id: Key, totalTokens: Option<int>, totalCost: Option<real>,
                     uniqSessions: Option<set<Id>>, totalSessions: Option<int>)

  /** The documents flowing between stages: usage records before the group, rows after it. */
  datatype Docs = Records(records: seq<Usage>) | Rows(rows: seq<Row>)

  /** The value of the field path `$<field>` on a usage record; null when absent or unknown. */
  function FieldKey(u: Usage, path: Option<string>): Key
  {
    if path.None? then NullKey
    else match path.value
      case "$_id" => StrKey(u.id)
      case "$agentId" => StrKey(u.agentId)
      case "$provider" => StrKey(u.provider.Tag())
      case "$sessionId" => StrKey(u.sessionId)
      case "$generativeResponseId" => if u.generativeResponseId.Some? then StrKey(u.generativeResponseId.value) else NullKey
      case "$tokensIn" => NumKey(u.tokensIn as real)
      case "$tokensOut" => NumKey(u.tokensOut as real)
      case "$totalTokens" => NumKey(u.totalTokens as real)
      case "$cost" => NumKey(u.cost)
      case "$createdAt" => DateKey(u.createdAt)
      case "$createdById" => StrKey(u.createdById)
      case "$updatedById" => StrKey(u.updatedById)
      case _ => NullKey
  }

  /** The `$match` condition on `createdAt`. */
  function InRange(gte: Option<int>, lte: Option<int>): Usage -> bool
  {
    (u: Usage) => (gte.Some? ==> u.createdAt >= gte.value) && (lte.Some? ==> u.createdAt <= lte.value)
  }

  function RowHasKey(k: Key): Row -> bool
  {
    (r: Row) => r.id == k
  }

  /** The records of one group: those whose key is `k`, in collection order. */
  function WithKey(records: seq<Usage>, path: Option<string>, k: Key): seq<Usage>
  {
    if |records| == 0 then []
    else
      var last := records[|records| - 1];
      WithKey(records[..|records| - 1], path, k) + (if FieldKey(last, path) == k then [last] else [])
  }

  function SumTokens(rs: seq<Usage>): int
  {
    if |rs| == 0 then 0 else SumTokens(rs[..|rs| - 1]) + rs[|rs| - 1].totalTokens
  }

  function SumCost(rs: seq<Usage>): real
  {
    if |rs| == 0 then 0.0 else SumCost(rs[..|rs| - 1]) + rs[|rs| - 1].cost
  }

  function SessionsOf(rs: seq<Usage>): set<Id>
  {
    if |rs| == 0 then {} else SessionsOf(rs[..|rs| - 1]) + {rs[|rs| - 1].sessionId}
  }

  /** The accumulators a group starts with, from its first record. */
  function NewRow(k: Key, u: Usage, g: GroupStage): Row
  {
    Row(k, if g.totalTokens then Some(u.totalTokens) else None,
           if g.totalCost then Some(u.cost) else None,
           if g.uniqSessions then Some({u.sessionId}) else None, None)
  }

  /** `$sum` and `$addToSet` taking one more record in. */
  function Absorb(row: Row, u: Usage): Row
  {
    row.(totalTokens := if row.totalTokens.Some? then Some(row.totalTokens.value + u.totalTokens) else None,
         totalCost := if row.totalCost.Some? then Some(row.totalCost.value + u.cost) else None,
         uniqSessions := if row.uniqSessions.Some? then Some(row.uniqSessions.value + {u.sessionId}) else None)
  }

  /** Feed one record to the running groups: into its group if it exists, else a new group at the end. */
  function AddRecord(rows: seq<Row>, u: Usage, g: GroupStage): seq<Row>
  {
    var k := FieldKey(u, g.idField);
    match FirstIndex(rows, RowHasKey(k))
    case Some(j) => rows[j := Absorb(rows[j], u)]
    case None => rows + [NewRow(k, u, g)]
  }

  /** `$group` over records, groups in order of first appearance. */
  function GroupRecords(records: seq<Usage>, g: GroupStage): seq<Row>
  {
    if |records| == 0 then [] else AddRecord(GroupRecords(records[..|records| - 1], g), records[|records| - 1], g)
  }

  /** What a group's row must hold: the sums and the session set over exactly its records. */
  ghost predicate RowTotals(row: Row, rs: seq<Usage>, g: GroupStage)
  {
    row.totalTokens == (if g.totalTokens then Some(SumTokens(rs)) else None) &&
    row.totalCost == (if g.totalCost then Some(SumCost(rs)) else None) &&
    row.uniqSessions == (if g.uniqSessions then Some(SessionsOf(rs)) else None) &&
    row.totalSessions.None?
  }

  lemma WithKeySnoc(records: seq<Usage>, u: Usage, path: Option<string>, k: Key)
    ensures WithKey(records + [u], path, k) == WithKey(records, path, k) + (if FieldKey(u, path) == k then [u] else [])
  {
    assert (records + [u])[..|records|] == records;
  }

  lemma {:induction false} WithKeyNone(records: seq<Usage>, path: Option<string>, k: Key)
    requires forall i :: 0 <= i < |records| ==> FieldKey(records[i], path) != k
    ensures WithKey(records, path, k) == []
  {
    if |records| > 0 {
      WithKeyNone(records[..|records| - 1], path, k);
    }
  }

  /** The running groups have distinct keys and every record seen so far has its group. */
  ghost predicate KeysCover(rows: seq<Row>, records: seq<Usage>, g: GroupStage)
  {
    (forall i, j :: 0 <= i < j < |rows| ==> rows[i].id != rows[j].id) &&
    (forall u :: u in records ==> exists i :: 0 <= i < |rows| && rows[i].id == FieldKey(u, g.idField))
  }

  lemma AddRecordKeys(rows: seq<Row>, records: seq<Usage>, u: Usage, g: GroupStage)
    requires KeysCover(rows, records, g)
    ensures KeysCover(AddRecord(rows, u, g), records + [u], g)
  {
    var k := FieldKey(u, g.idField);
    var rows' := AddRecord(rows, u, g);
    match FirstIndex(rows, RowHasKey(k))
    case Some(j) =>
      assert forall i :: 0 <= i < |rows| ==> rows'[i].id == rows[i].id;
      assert rows'[j].id == k;
    case None =>
      assert rows' == rows + [NewRow(k, u, g)];
      assert rows'[|rows|].id == k;
      forall v | v in records
        ensures exists i :: 0 <= i < |rows'| && rows'[i].id == FieldKey(v, g.idField)
      {
        var i :| 0 <= i < |rows| && rows[i].id == FieldKey(v, g.idField);
        assert rows'[i] == rows[i];
      }
  }

  lemma {:induction false} GroupKeys(records: seq<Usage>, g: GroupStage)
    ensures KeysCover(GroupRecords(records, g), records, g)
  {
    if |records| > 0 {
      var prefix := records[..|records| - 1];
      assert records == prefix + [records[|records| - 1]];
      GroupKeys(prefix, g);
      AddRecordKeys(GroupRecords(prefix, g), prefix, records[|records| - 1], g);
    }
  }

  /** The group a record joins: its row absorbs the record and its record list grows by it. */
  lemma AbsorbTotals(row: Row, rs: seq<Usage>, u: Usage, g: GroupStage)
    requires RowTotals(row, rs, g)
    ensures RowTotals(Absorb(row, u), rs + [u], g)
  {
    assert (rs + [u])[..|rs|] == rs;
  }

  /** A new group: its row is started from the record, and the record is its only one. */
  lemma NewRowTotals(rows: seq<Row>, prefix: seq<Usage>, u: Usage, g: GroupStage)
    requires KeysCover(rows, prefix, g)
    requires FirstIndex(rows, RowHasKey(FieldKey(u, g.idField))).None?
    ensures WithKey(prefix + [u], g.idField, FieldKey(u, g.idField)) == [u]
    ensures RowTotals(NewRow(FieldKey(u, g.idField), u, g), [u], g)
  {
    var k := FieldKey(u, g.idField);
    forall n | 0 <= n < |prefix| ensures FieldKey(prefix[n], g.idField) != k {
      assert prefix[n] in prefix;
    }
    WithKeyNone(prefix, g.idField, k);
    WithKeySnoc(prefix, u, g.idField, k);
    assert [u][..0] == [];
    assert SumTokens([u]) == u.totalTokens;
    assert SumCost([u]) == u.cost;
    assert SessionsOf([u]) == {u.sessionId};
  }

  lemma AddRecordTotals(rows: seq<Row>, prefix: seq<Usage>, u: Usage, g: GroupStage)
    requires KeysCover(rows, prefix, g)
    requires forall i :: 0 <= i < |rows| ==> RowTotals(rows[i], WithKey(prefix, g.idField, rows[i].id), g)
    ensures var rows' := AddRecord(rows, u, g);
      forall i :: 0 <= i < |rows'| ==> RowTotals(rows'[i], WithKey(prefix + [u], g.idField, rows'[i].id), g)
  {
    var k := FieldKey(u, g.idField);
    var rows' := AddRecord(rows, u, g);
    forall i | 0 <= i < |rows'|
      ensures RowTotals(rows'[i], WithKey(prefix + [u], g.idField, rows'[i].id), g)
    {
      var key := rows'[i].id;
      WithKeySnoc(prefix, u, g.idField, key);
      match FirstIndex(rows, RowHasKey(k))
      case Some(j) =>
        if i == j {
          assert rows'[j] == Absorb(rows[j], u) && key == k;
          assert RowTotals(rows[j], WithKey(prefix, g.idField, k), g);
          AbsorbTotals(rows[j], WithKey(prefix, g.idField, k), u, g);
          assert WithKey(prefix + [u], g.idField, key) == WithKey(prefix, g.idField, k) + [u];
        } else {
          assert rows'[i] == rows[i];
          assert RowHasKey(k)(rows[j]);
          assert key != k;
          assert WithKey(prefix + [u], g.idField, key) == WithKey(prefix, g.idField, key);
          assert RowTotals(rows[i], WithKey(prefix, g.idField, key), g);
        }
      case None =>
        if i == |rows| {
          assert rows'[i] == NewRow(k, u, g) && key == k;
          NewRowTotals(rows, prefix, u, g);
          assert WithKey(prefix + [u], g.idField, key) == [u];
        } else {
          assert rows'[i] == rows[i];
          assert !RowHasKey(k)(rows[i]);
          assert key != k;
          assert WithKey(prefix + [u], g.idField, key) == WithKey(prefix, g.idField, key);
          assert RowTotals(rows[i], WithKey(prefix, g.idField, key), g);
        }
    }
  }

  /**
   * Grouping is correct: one row per distinct key, every record's key has a row, and
   * each row's totals are the sums (and the session set) over exactly the records with
   * its key.
   */
  lemma {:induction false} GroupTotals(records: seq<Usage>, g: GroupStage)
    ensures var rows := GroupRecords(records, g);
      (forall i, j :: 0 <= i < j < |rows| ==> rows[i].id != rows[j].id) &&
      (forall u :: u in records ==> exists i :: 0 <= i < |rows| && rows[i].id == FieldKey(u, g.idField)) &&
      (forall i :: 0 <= i < |rows| ==> RowTotals(rows[i], WithKey(records, g.idField, rows[i].id), g))
  {
    GroupKeys(records, g);
    if |records| > 0 {
      var prefix := records[..|records| - 1];
      assert records == prefix + [records[|records| - 1]];
      GroupTotals(prefix, g);
      AddRecordTotals(GroupRecords(prefix, g), prefix, records[|records| - 1], g);
    }
  }

  // ---------------------------------------------------------------- sorting

  /** The value `$sort` compares; a missing field sorts below every number. */
  function SortValue(row: Row, property: string): Option<real>
  {
    if property == TotalTokens && row.totalTokens.Some? then Some(row.totalTokens.value as real)
    else if property == TotalCost && row.totalCost.Some? then Some(row.totalCost.value)
    else if property == TotalSessions && row.totalSessions.Some? then Some(row.totalSessions.value as real)
    else None
  }

  /** `a` may come before `b` in a descending order. */
  predicate AtLeast(a: Option<real>, b: Option<real>)
  {
    b.None? || (a.Some? && a.value >= b.value)
  }

  ghost predicate SortedDesc(rows: seq<Row>, property: string)
  {
    forall i, j :: 0 <= i < j < |rows| ==> AtLeast(SortValue(rows[i], property), SortValue(rows[j], property))
  }

  function Insert(x: Row, rows: seq<Row>, property: string): (r: seq<Row>)
    requires SortedDesc(rows, property)
    ensures SortedDesc(r, property)
    ensures multiset(r) == multiset(rows) + multiset{x}
  {
    if |rows| == 0 then [x]
    else if AtLeast(SortValue(rows[0], property), SortValue(x, property)) then
      var tail := Insert(x, rows[1..], property);
      assert rows == [rows[0]] + rows[1..];
      assert forall j :: 0 <= j < |tail| ==> tail[j] in multiset(rows[1..]) + multiset{x};
      [rows[0]] + tail
    else
      [x] + rows
  }

  /** `{ $sort: { [property]: -1 } }`: the same rows, in descending order of the property. */
  function SortDesc(rows: seq<Row>, property: string): (r: seq<Row>)
    ensures SortedDesc(r, property)
    ensures multiset(r) == multiset(rows)
  {
    if |rows| == 0 then []
    else
      assert rows == [rows[0]] + rows[1..];
      Insert(rows[0], SortDesc(rows[1..], property), property)
  }

  // ---------------------------------------------------------------- pipeline

  /** Every row carries a session set. */
  function HaveSessionSets(rows: seq<Row>): (b: bool)
    ensures b <==> forall i :: 0 <= i < |rows| ==> rows[i].uniqSessions.Some?
  {
    |rows| == 0 || (rows[0].uniqSessions.Some? && HaveSessionSets(rows[1..]))
  }

  /** `$addFields: { total_sessions: { $size: '$uniq_sessions' } }` on every row. */
  function SizeSessions(rows: seq<Row>): (r: seq<Row>)
    ensures |r| == |rows|
    ensures forall i :: 0 <= i < |r| ==> r[i] == rows[i].(totalSessions :=
      if rows[i].uniqSessions.Some? then Some(|rows[i].uniqSessions.value|) else None)
  {
    if |rows| == 0 then []
    else
      var row := rows[0];
      [row.(totalSessions := if row.uniqSessions.Some? then Some(|row.uniqSessions.value|) else None)]
        + SizeSessions(rows[1..])
  }

  /** `$project: { uniq_sessions: 0 }` on every row. */
  function DropSessions(rows: seq<Row>): (r: seq<Row>)
    ensures |r| == |rows|
    ensures forall i :: 0 <= i < |r| ==> r[i] == rows[i].(uniqSessions := None)
  {
    if |rows| == 0 then [] else [rows[0].(uniqSessions := None)] + DropSessions(rows[1..])
  }

  /** `$limit: n`: the first `n` rows. */
  function Take(rows: seq<Row>, n: int): (r: seq<Row>)
    requires n > 0
    ensures |r| == if n < |rows| then n else |rows|
    ensures r <= rows
  {
    if n < |rows| then rows[..n] else rows
  }

  const Unsupported: Error := Failure("stage not applicable to these documents")

  /** One stage's effect. The builder never puts a stage where it does not apply. */
  function RunStage(s: Stage, docs: Docs): (r: Result<Docs>)
    ensures r.Ok? && s.Match? ==> docs.Records? && r.value.Records? && |r.value.records| <= |docs.records|
    ensures r.Ok? && !s.Match? ==> r.value.Rows?
    ensures r.Ok? && docs.Records? ==> s.Match? || s.Group?
    ensures r.Ok? && docs.Rows? && (s.Sort? || s.AddTotalSessions? || s.ProjectOutUniqSessions?) ==>
      |r.value.rows| == |docs.rows|
  {
    match s
    case Match(gte, lte, _) =>
      if docs.Records? then Ok(Records(Filter(docs.records, InRange(gte, lte)))) else Err(Unsupported)
    case Group(g) =>
      if docs.Records? then Ok(Rows(GroupRecords(docs.records, g))) else Err(Unsupported)
    case AddTotalSessions =>
      if docs.Records? then Err(Unsupported)
      else if !HaveSessionSets(docs.rows) then Err(Failure("The argument to $size must be an array"))
      else Ok(Rows(SizeSessions(docs.rows)))
    case ProjectOutUniqSessions =>
      if docs.Records? then Err(Unsupported) else Ok(Rows(DropSessions(docs.rows)))
    case Sort(property) =>
      if docs.Records? then Err(Unsupported) else Ok(Rows(SortDesc(docs.rows, property)))
    case Limit(n) =>
      if docs.Records? then Err(Unsupported)
      else if n <= 0 then Err(Failure("the limit must be positive"))
      else Ok(Rows(Take(docs.rows, n)))
  }

  /** The stages applied in order; the first failing stage fails the aggregation. */
  function Run(p: seq<Stage>, docs: Docs): Result<Docs>
  {
    if |p| == 0 then Ok(docs)
    else match RunStage(p[0], docs)
      case Err(e) => Err(e)
      case Ok(next) => Run(p[1..], next)
  }

  /** `model.aggregate(pipeline)` over the usage collection. */
  function Aggregate(p: seq<Stage>, records: seq<Usage>): (r: Result<seq<Row>>)
    ensures |p| == 0 ==> r.Err?
    ensures r.Ok? ==> Run(p, Records(records)) == Ok(Rows(r.value))
    ensures Run(p, Records(records)).Err? ==> r == Err(Run(p, Records(records)).error)
  {
    match Run(p, Records(records))
    case Err(e) => Err(e)
    case Ok(docs) => if docs.Rows? then Ok(docs.rows) else Err(Unsupported)
  }

  /** Attaching the request comment does not change what the aggregation computes. */
  lemma {:induction false} CommentIsInert(p: seq<Stage>, comment: string, docs: Docs)
    ensures Run(seq(|p|, i requires 0 <= i < |p| => WithComment(p[i], comment)), docs) == Run(p, docs)
  {
    if |p| > 0 {
      var q := seq(|p|, i requires 0 <= i < |p| => WithComment(p[i], comment));
      var tail := seq(|p| - 1, i requires 0 <= i < |p| - 1 => WithComment(p[1..][i], comment));
      assert q[1..] == tail;
      assert RunStage(q[0], docs) == RunStage(p[0], docs);
      match RunStage(p[0], docs)
      case Err(_) =>
      case Ok(next) => CommentIsInert(p[1..], comment, next);
    }
  }

  lemma {:induction false} RunAppend(p: seq<Stage>, q: seq<Stage>, docs: Docs)
    ensures Run(p + q, docs) == match Run(p, docs) case Err(e) => Err(e) case Ok(next) => Run(q, next)
  {
    if |p| > 0 {
      assert (p + q)[0] == p[0];
      assert (p + q)[1..] == p[1..] + q;
      match RunStage(p[0], docs)
      case Err(_) =>
      case Ok(next) => RunAppend(p[1..], q, next);
    } else {
      assert p + q == q;
    }
  }

  // ---------------------------------------------------------------- analytics results

  /** The records the `$match` stage lets through (all of them when no date bound is given). */
  function Matched(f: Filters, records: seq<Usage>): seq<Usage>
  {
    if f.startDate.Some? || f.endDate.Some? then Filter(records, InRange(f.startDate, f.endDate)) else records
  }

  /** The rows an analytics query yields before its top-N stages. */
  function Totals(input: UsageAnalyticInput, records: seq<Usage>): seq<Row>
  {
    var rows := GroupRecords(Matched(input.filters, records), GroupFor(input.dimension, input.metrics));
    if TotalSessions in input.metrics then DropSessions(SizeSessions(rows)) else rows
  }

  /** What one output row reports for the records of its group, per requested metric. */
  ghost predicate ReportsMetrics(row: Row, rs: seq<Usage>, metrics: seq<string>)
  {
    row.totalTokens == (if TotalTokens in metrics then Some(SumTokens(rs)) else None) &&
    row.totalCost == (if TotalCost in metrics then Some(SumCost(rs)) else None) &&
    row.totalSessions == (if TotalSessions in metrics then Some(|SessionsOf(rs)|) else None) &&
    row.uniqSessions.None?
  }

  /**
   * Usage analytics are correct: one row per distinct value of the dimension among the
   * matched records, and each row's metrics are the token sum, the cost sum and the
   * number of distinct sessions of exactly the records in its group.
   */
  lemma TotalsCorrect(input: UsageAnalyticInput, records: seq<Usage>)
    ensures var rows := Totals(input, records);
      var matched := Matched(input.filters, records);
      var path := GroupFor(input.dimension, input.metrics).idField;
      (forall i, j :: 0 <= i < j < |rows| ==> rows[i].id != rows[j].id) &&
      (forall u :: u in matched ==> exists i :: 0 <= i < |rows| && rows[i].id == FieldKey(u, path)) &&
      (forall i :: 0 <= i < |rows| ==> ReportsMetrics(rows[i], WithKey(matched, path, rows[i].id), input.metrics))
  {
    var g := GroupFor(input.dimension, input.metrics);
    var grouped := GroupRecords(Matched(input.filters, records), g);
    GroupTotals(Matched(input.filters, records), g);
    var rows := Totals(input, records);
    assert |rows| == |grouped|;
    assert forall i :: 0 <= i < |rows| ==> rows[i].id == grouped[i].id;
    forall u | u in Matched(input.filters, records)
      ensures exists i :: 0 <= i < |rows| && rows[i].id == FieldKey(u, g.idField)
    {
      var i :| 0 <= i < |grouped| && grouped[i].id == FieldKey(u, g.idField);
      assert rows[i].id == grouped[i].id;
    }
    forall i | 0 <= i < |rows|
      ensures ReportsMetrics(rows[i], WithKey(Matched(input.filters, records), g.idField, rows[i].id), input.metrics)
    {
      assert RowTotals(grouped[i], WithKey(Matched(input.filters, records), g.idField, grouped[i].id), g);
    }
  }

  lemma RunPair(a: Stage, b: Stage, docs: Docs)
    ensures Run([a, b], docs) == match RunStage(a, docs) case Err(e) => Err(e) case Ok(next) => RunStage(b, next)
  {
    assert [a, b][1..] == [b];
    assert [b][1..] == [];
    match RunStage(a, docs)
    case Err(_) =>
    case Ok(next) =>
      assert Run([a, b], docs) == Run([b], next);
      match RunStage(b, next)
      case Err(_) =>
      case Ok(last) => assert Run([b], next) == Run([], last);
  }

  /** Turning session sets into their sizes and dropping the sets, on rows that all carry a set. */
  lemma RunSessionStages(rows: seq<Row>)
    ensures HaveSessionSets(rows) ==>
      Run([AddTotalSessions, ProjectOutUniqSessions], Rows(rows)) == Ok(Rows(DropSessions(SizeSessions(rows))))
  {
    var sized := SizeSessions(rows);
    assert [AddTotalSessions, ProjectOutUniqSessions][1..] == [ProjectOutUniqSessions];
    assert [ProjectOutUniqSessions][1..] == [];
    assert Run([ProjectOutUniqSessions], Rows(sized)) == Run([], Rows(DropSessions(sized)));
  }

  lemma RunMatchPart(f: Filters, records: seq<Usage>)
    ensures Run(if f.startDate.Some? || f.endDate.Some? then [Match(f.startDate, f.endDate, None)] else [],
                Records(records)) == Ok(Records(Matched(f, records)))
  {
    var part := if f.startDate.Some? || f.endDate.Some? then [Match(f.startDate, f.endDate, None)] else [];
    if |part| > 0 {
      assert part[1..] == [];
    }
  }

  lemma RunSessionPart(input: UsageAnalyticInput, records: seq<Usage>)
    ensures var g := GroupFor(input.dimension, input.metrics);
      Run(if TotalSessions in input.metrics then [AddTotalSessions, ProjectOutUniqSessions] else [],
          Rows(GroupRecords(Matched(input.filters, records), g))) == Ok(Rows(Totals(input, records)))
  {
    var g := GroupFor(input.dimension, input.metrics);
    var grouped := GroupRecords(Matched(input.filters, records), g);
    var part := if TotalSessions in input.metrics then [AddTotalSessions, ProjectOutUniqSessions] else [];
    if TotalSessions in input.metrics {
      GroupTotals(Matched(input.filters, records), g);
      RunSessionStages(grouped);
    }
  }

  lemma RunTopStages(property: string, n: int, rows: seq<Row>)
    ensures var r := Run([Sort(property), Limit(n)], Rows(rows));
      (n <= 0 ==> r.Err?) && (n > 0 ==> r == Ok(Rows(Take(SortDesc(rows, property), n))))
  {
    var sorted := SortDesc(rows, property);
    assert [Sort(property), Limit(n)][1..] == [Limit(n)];
    assert RunStage(Sort(property), Rows(rows)) == Ok(Rows(sorted));
    assert Run([Sort(property), Limit(n)], Rows(rows)) == Run([Limit(n)], Rows(sorted));
    assert [Limit(n)][1..] == [];
  }

  /**
   * What the built pipeline returns: the totals when no top-N is asked for; the first
   * `n` of them in descending order of the property when it is; an error when the
   * limit is not positive. Every other stage always applies.
   */
  lemma AggregateOutcome(input: UsageAnalyticInput, records: seq<Usage>)
    ensures var r := Aggregate(PipelineFor(input), records);
      (input.topN.None? ==> r == Ok(Totals(input, records))) &&
      (input.topN.Some? && input.topN.value.n <= 0 ==> r.Err?) &&
      (input.topN.Some? && input.topN.value.n > 0 ==>
        r == Ok(Take(SortDesc(Totals(input, records), input.topN.value.property), input.topN.value.n)))
  {
    var f := input.filters;
    var g := GroupFor(input.dimension, input.metrics);
    var matchPart := if f.startDate.Some? || f.endDate.Some? then [Match(f.startDate, f.endDate, None)] else [];
    var sessionPart := if TotalSessions in input.metrics then [AddTotalSessions, ProjectOutUniqSessions] else [];
    var topPart := if input.topN.Some? then [Sort(input.topN.value.property), Limit(input.topN.value.n)] else [];
    var rest := [Group(g)] + (sessionPart + topPart);
    assert PipelineFor(input) == matchPart + rest;
    RunAppend(matchPart, rest, Records(records));
    RunMatchPart(f, records);
    var grouped := GroupRecords(Matched(f, records), g);
    assert rest[0] == Group(g) && rest[1..] == sessionPart + topPart;
    assert Run(rest, Records(Matched(f, records))) == Run(sessionPart + topPart, Rows(grouped));
    RunAppend(sessionPart, topPart, Rows(grouped));
    RunSessionPart(input, records);
    if input.topN.Some? {
      RunTopStages(input.topN.value.property, input.topN.value.n, Totals(input, records));
    } else {
      assert topPart == [] && sessionPart + topPart == sessionPart;
    }
  }

  /** Top-N results: at most `n` rows, in descending order, each one a row of the totals. */
  lemma TopNRows(input: UsageAnalyticInput, records: seq<Usage>)
    requires input.topN.Some?
    ensures var r := Aggregate(PipelineFor(input), records);
      r.Ok? ==> (|r.value| <= input.topN.value.n && SortedDesc(r.value, input.topN.value.property) &&
        forall i :: 0 <= i < |r.value| ==> r.value[i] in Totals(input, records))
  {
    AggregateOutcome(input, records);
    var r := Aggregate(PipelineFor(input), records);
    if r.Ok? {
      var sorted := SortDesc(Totals(input, records), input.topN.value.property);
      forall i | 0 <= i < |r.value| ensures r.value[i] in Totals(input, records) {
        assert r.value[i] == sorted[i];
        assert sorted[i] in multiset(sorted);
      }
    }
  }

  /**
   * For records of one provider, whose cost is their total tokens per thousand times
   * the provider's price, a group's total cost is its total tokens per thousand times
   * that price.
   */
  lemma {:induction false} GroupCostFollowsTokens(rs: seq<Usage>, price: real)
    requires forall i :: 0 <= i < |rs| ==> rs[i].cost == rs[i].totalTokens as real / 1000.0 * price
    ensures SumCost(rs) == SumTokens(rs) as real / 1000.0 * price
  {
    if |rs| > 0 {
      var prefix, last := rs[..|rs| - 1], rs[|rs| - 1];
      GroupCostFollowsTokens(prefix, price);
      var a, b := SumTokens(prefix) as real, last.totalTokens as real;
      assert (a + b) / 1000.0 * price == a / 1000.0 * price + b / 1000.0 * price;
    }
  }
}
