/** Batched import: DatabaseImporter of backend/architecture/data_portability.py. */
module DataImport {
  import opened Options

  type Entity = string
  type Field = string
  type Value = string
  type Record = map<Field, Value>
  type Row = map<Field, Value>
  type Table = map<Value, Row>

  const ID: Field := "id"
  const BATCH_SIZE := 100

  /** The statement binds every field of the schema, needs the id column to find a row, and needs another to set. */
  predicate Complete(r: Record, fields: seq<Field>) {
    ID in fields && (exists f :: f in fields && f != ID) && forall f :: f in fields ==> f in r
  }

  function Bound(r: Record, fields: seq<Field>): Row {
    map f | f in fields && f in r :: r[f]
  }

  /** INSERT, or on a row with the same id UPDATE of every schema field but the id. */
  function Upsert(t: Table, r: Record, fields: seq<Field>): Table
    requires ID in r
  {
    if r[ID] in t then t[r[ID] := t[r[ID]] + (Bound(r, fields) - {ID})] else t[r[ID] := Bound(r, fields)]
  }

  predicate HaveIds(rs: seq<Record>) {
    forall k :: 0 <= k < |rs| ==> ID in rs[k]
  }

  /** The records applied one after the other. */
  function Upserted(t: Table, rs: seq<Record>, fields: seq<Field>): Table
    requires HaveIds(rs)
    decreases |rs|
  {
    if rs == [] then t else Upsert(Upserted(t, rs[..|rs| - 1], fields), rs[|rs| - 1], fields)
  }

  // ----- What an import is for -----

  /** The last record that bears an id. */
  function LastWith(rs: seq<Record>, id: Value): (r: Option<Record>)
    requires HaveIds(rs)
    ensures r.None? ==> forall k :: 0 <= k < |rs| ==> rs[k][ID] != id
    ensures r.Some? ==>
      exists k :: 0 <= k < |rs| && rs[k] == r.value && rs[k][ID] == id && forall j :: k < j < |rs| ==> rs[j][ID] != id
    decreases |rs|
  {
    if rs == [] then None
    else if rs[|rs| - 1][ID] == id then Some(rs[|rs| - 1])
    else LastWith(rs[..|rs| - 1], id)
  }

  /** The old table overridden by the records, the last one of each id winning; columns outside the schema are kept. */
  function Overridden(t: Table, rs: seq<Record>, fields: seq<Field>): Table
    requires HaveIds(rs)
  {
    map id | id in t.Keys + set k | 0 <= k < |rs| :: rs[k][ID] ::
      match LastWith(rs, id)
      case None => if id in t then t[id] else map[]
      case Some(last) => (if id in t then t[id] else map[]) + Bound(last, fields)
  }

  /** Each row is stored under its id. */
  ghost predicate WellKeyed(t: Table) {
    forall id :: id in t ==> ID in t[id] && t[id][ID] == id
  }

  ghost predicate AllComplete(rs: seq<Record>, fields: seq<Field>) {
    forall k :: 0 <= k < |rs| ==> Complete(rs[k], fields)
  }

  lemma UpsertKeepsWellKeyed(t: Table, r: Record, fields: seq<Field>)
    requires WellKeyed(t) && Complete(r, fields)
    ensures WellKeyed(Upsert(t, r, fields))
  {
  }

  /** One row after one upsert. */
  lemma UpsertRow(t: Table, r: Record, fields: seq<Field>, id: Value)
    requires WellKeyed(t) && Complete(r, fields)
    ensures id in Upsert(t, r, fields) <==> id in t || id == r[ID]
    ensures id in t && id != r[ID] ==> Upsert(t, r, fields)[id] == t[id]
    ensures id == r[ID] ==> Upsert(t, r, fields)[id] == (if id in t then t[id] else map[]) + Bound(r, fields)
  {
    if id == r[ID] {
      assert map[] + Bound(r, fields) == Bound(r, fields);
      if id in t {
        assert t[id] + (Bound(r, fields) - {ID}) == t[id] + Bound(r, fields);
      }
    }
  }

  /** A complete record leaves nothing of what an earlier one set. */
  lemma BoundOverrides(row: Row, earlier: Record, later: Record, fields: seq<Field>)
    requires Complete(earlier, fields) && Complete(later, fields)
    ensures (row + Bound(earlier, fields)) + Bound(later, fields) == row + Bound(later, fields)
  {
  }

  lemma OverriddenRow(t: Table, rs: seq<Record>, fields: seq<Field>, id: Value)
    requires HaveIds(rs)
    ensures id in Overridden(t, rs, fields) <==> id in t || LastWith(rs, id).Some?
    ensures id in t && LastWith(rs, id).None? ==> Overridden(t, rs, fields)[id] == t[id]
    ensures LastWith(rs, id).Some? ==>
      Overridden(t, rs, fields)[id] == (if id in t then t[id] else map[]) + Bound(LastWith(rs, id).value, fields)
  {
  }

  lemma LastIsComplete(rs: seq<Record>, fields: seq<Field>, id: Value)
    requires AllComplete(rs, fields) && HaveIds(rs) && LastWith(rs, id).Some?
    ensures Complete(LastWith(rs, id).value, fields)
  {
  }

  /** Applying the records in order is overriding by the last record of each id. */
  lemma {:induction false} UpsertsOverride(t: Table, rs: seq<Record>, fields: seq<Field>)
    requires WellKeyed(t) && HaveIds(rs) && AllComplete(rs, fields)
    ensures Upserted(t, rs, fields) == Overridden(t, rs, fields)
    ensures WellKeyed(Upserted(t, rs, fields))
    decreases |rs|
  {
    hide Upsert, Overridden, Bound;
    if rs == [] {
      forall id ensures id in Overridden(t, rs, fields) <==> id in t
        ensures id in t ==> Overridden(t, rs, fields)[id] == t[id]
      {
        OverriddenRow(t, rs, fields, id);
      }
    } else {
      var front, r := rs[..|rs| - 1], rs[|rs| - 1];
      UpsertsOverride(t, front, fields);
      var before, after := Overridden(t, front, fields), Overridden(t, rs, fields);
      var upserted := Upsert(before, r, fields);
      UpsertKeepsWellKeyed(before, r, fields);
      forall id ensures id in upserted <==> id in after
        ensures id in after ==> upserted[id] == after[id]
      {
        RowAgrees(t, rs, fields, id);
      }
      assert upserted == after;
    }
  }

  /** What an import makes of table t, column by column: a row that a record names has the last such record's value in
      every field of the schema and keeps its other columns; every other row stays, and no row appears unnamed. */
  ghost predicate Imported(t: Table, t': Table, rs: seq<Record>, fields: seq<Field>)
    requires HaveIds(rs)
  {
    && (forall id :: id in t' <==> id in t || Names(rs, id))
    && (forall id :: id in t && !Names(rs, id) ==> t'[id] == t[id])
    && (forall id, k: nat :: IsLast(rs, id, k) ==>
      HasColumns(t'[id], if id in t then t[id] else map[], rs[k], fields))
  }

  ghost predicate Names(rs: seq<Record>, id: Value)
    requires HaveIds(rs)
  {
    exists k :: 0 <= k < |rs| && rs[k][ID] == id
  }

  /** The k-th record is the last that bears the id. */
  ghost predicate IsLast(rs: seq<Record>, id: Value, k: nat)
    requires HaveIds(rs)
  {
    k < |rs| && rs[k][ID] == id && forall j :: k < j < |rs| ==> rs[j][ID] != id
  }

  ghost predicate HasColumns(row: Row, before: Row, r: Record, fields: seq<Field>) {
    && (forall f :: f in fields ==> f in r && f in row && row[f] == r[f])
    && (forall f :: f !in fields ==> (f in row <==> f in before))
    && (forall f :: f !in fields && f in row ==> row[f] == before[f])
  }

  lemma BoundHasColumns(before: Row, r: Record, fields: seq<Field>)
    requires Complete(r, fields)
    ensures HasColumns(before + Bound(r, fields), before, r, fields)
  {
  }

  lemma LastIsLast(rs: seq<Record>, id: Value, k: nat)
    requires HaveIds(rs) && IsLast(rs, id, k)
    ensures LastWith(rs, id) == Some(rs[k])
    decreases |rs|
  {
    if k < |rs| - 1 {
      LastIsLast(rs[..|rs| - 1], id, k);
    }
  }

  lemma LastNames(rs: seq<Record>, id: Value)
    requires HaveIds(rs)
    ensures LastWith(rs, id).Some? <==> Names(rs, id)
  {
  }

  /** Overriding by the last record of each id sets exactly those columns. */
  lemma ColumnsAreTheLastRecords(t: Table, rs: seq<Record>, fields: seq<Field>)
    requires HaveIds(rs) && AllComplete(rs, fields)
    ensures Imported(t, Overridden(t, rs, fields), rs, fields)
  {
    var t' := Overridden(t, rs, fields);
    assert forall k :: 0 <= k < |rs| ==> Complete(rs[k], fields);
    hide Overridden, Bound, HasColumns, LastWith, Complete, Names;
    forall id
      ensures id in t' <==> id in t || Names(rs, id)
      ensures id in t && !Names(rs, id) ==> t'[id] == t[id]
    {
      OverriddenRow(t, rs, fields, id);
      LastNames(rs, id);
    }
    forall id, k: nat | IsLast(rs, id, k)
      ensures id in t' && HasColumns(t'[id], if id in t then t[id] else map[], rs[k], fields)
    {
      OverriddenRow(t, rs, fields, id);
      LastIsLast(rs, id, k);
      BoundHasColumns(if id in t then t[id] else map[], rs[k], fields);
    }
  }

  lemma RowAgrees(t: Table, rs: seq<Record>, fields: seq<Field>, id: Value)
    requires rs != [] && HaveIds(rs) && AllComplete(rs, fields)
    requires var before := Overridden(t, rs[..|rs| - 1], fields); WellKeyed(before)
    ensures var upserted, after := Upsert(Overridden(t, rs[..|rs| - 1], fields), rs[|rs| - 1], fields),
      Overridden(t, rs, fields);
      (id in upserted <==> id in after) && (id in after ==> upserted[id] == after[id])
  {
    hide Upsert, Overridden, Bound;
    var front, r := rs[..|rs| - 1], rs[|rs| - 1];
    UpsertRow(Overridden(t, front, fields), r, fields, id);
    OverriddenRow(t, front, fields, id);
    OverriddenRow(t, rs, fields, id);
    if id == r[ID] && LastWith(front, id).Some? {
      LastIsComplete(front, fields, id);
      BoundOverrides(if id in t then t[id] else map[], LastWith(front, id).value, r, fields);
    }
  }

  lemma {:induction false} UpsertedConcat(t: Table, a: seq<Record>, b: seq<Record>, fields: seq<Field>)
    requires HaveIds(a) && HaveIds(b)
    ensures HaveIds(a + b) && Upserted(t, a + b, fields) == Upserted(Upserted(t, a, fields), b, fields)
    decreases |b|
  {
    if b == [] {
      assert a + b == a;
    } else {
      UpsertedConcat(t, a, b[..|b| - 1], fields);
      assert (a + b)[..|a + b| - 1] == a + b[..|b| - 1];
    }
  }

  // ----- The importer -----

  /** What the database answers: whether the snapshot query runs, whether it takes the k-th record, and the commit. */
  datatype Answers = Answers(snapshot: bool, takes: nat -> bool, commit: bool)

  /** Every record is complete and taken by the database. */
  ghost predicate Importable(rs: seq<Record>, fields: seq<Field>, answers: Answers) {
    AllComplete(rs, fields) && Takes(answers, 0, |rs|)
  }

  /** The database takes the records from the first position up to the last. */
  ghost predicate Takes(answers: Answers, first: nat, last: nat) {
    forall k :: first <= k < last ==> answers.takes(k)
  }

  class Importer {
    /** The committed tables, and what the open transaction sees. */
    var committed: map<Entity, Table>
    var working: map<Entity, Table>
    var rollbackData: map<Entity, Table>

    ghost predicate Valid()
      reads this
    {
      working == committed && forall e :: e in committed ==> WellKeyed(committed[e])
    }

    /** Applies one batch, whose first record is the offset-th of the import; false stands for the exception. */
    method ImportBatch(e: Entity, batch: seq<Record>, fields: seq<Field>, answers: Answers, offset: nat)
      returns (ok: bool)
      modifies this`working
      ensures ok <==>
        (batch != [] ==> e in old(working)) && AllComplete(batch, fields) && Takes(answers, offset, offset + |batch|)
      ensures ok ==> HaveIds(batch)
      ensures ok && batch == [] ==> working == old(working)
      ensures ok && batch != [] ==> working == old(working)[e := Upserted(old(working)[e], batch, fields)]
    {
      hide Upsert, Upserted, Complete, AllComplete, HaveIds;
      BatchStart(batch, fields, old(working));
      for k := 0 to |batch|
        invariant HaveIds(batch[..k]) && AllComplete(batch[..k], fields)
        invariant k > 0 ==> e in old(working)
        invariant Takes(answers, offset, offset + k)
        invariant k == 0 ==> working == old(working)
        invariant k > 0 ==> working == old(working)[e := Upserted(old(working)[e], batch[..k], fields)]
      {
        var record := batch[k];
        if e !in working || !Complete(record, fields) || !answers.takes(offset + k) {
          RecordRefused(batch, k, fields);
          return false;
        }
        OneMoreRecord(old(working)[e], batch, k, fields);
        working := working[e := Upsert(working[e], record, fields)];
      }
      assert batch[..|batch|] == batch;
      return true;
    }

    /** All or nothing, whatever the batch size: on success the table is the old one overridden by the records, on
        failure nothing changed. */
    method ImportData(e: Entity, data: Option<seq<Record>>, fields: seq<Field>, answers: Answers,
                      batchSize: nat := BATCH_SIZE)
      returns (ok: bool)
      requires Valid() && batchSize >= 1
      modifies this
      ensures Valid()
      ensures ok <==>
        && data.Some? && answers.commit
        && (data.value != [] ==> e in old(committed) && ID in fields && exists f :: f in fields && f != ID)
        && (forall k, f :: 0 <= k < |data.value| && f in fields ==> f in data.value[k])
        && (forall k: nat :: k < |data.value| ==> answers.takes(k))
      ensures !ok ==> committed == old(committed)
      ensures ok && data.value == [] ==> committed == old(committed)
      ensures ok ==> HaveIds(data.value)
      ensures ok && data.value != [] ==>
        committed == old(committed)[e := Overridden(old(committed)[e], data.value, fields)] &&
        Imported(old(committed)[e], committed[e], data.value, fields)
      ensures rollbackData == if data.Some? && answers.snapshot && e in old(committed)
        then old(rollbackData)[e := old(committed)[e]] else old(rollbackData)
    {
      hide Upserted, Overridden, Complete, Imported;
      if data.None? {
        return false;
      }
      var records := data.value;
      ImportableExactly(records, fields, answers);
      if answers.snapshot && e in working {
        rollbackData := rollbackData[e := working[e]];
      }
      var i := 0;
      while i < |records|
        invariant 0 <= i <= |records|
        invariant committed == old(committed)
        invariant rollbackData == if answers.snapshot && e in old(committed)
          then old(rollbackData)[e := old(committed)[e]] else old(rollbackData)
        invariant i > 0 ==> e in old(committed)
        invariant HaveIds(records[..i]) && AllComplete(records[..i], fields)
        invariant Takes(answers, 0, i)
        invariant working == if i == 0 then committed else committed[e := Upserted(committed[e], records[..i], fields)]
      {
        var end := if i + batchSize < |records| then i + batchSize else |records|;
        var batch := records[i..end];
        var imported := ImportBatch(e, batch, fields, answers, i);
        if !imported {
          working := committed;
          BatchOfImportable(records, fields, answers, i, end);
          return false;
        }
        BatchJoins(records, fields, answers, i, end);
        assert e in committed;
        UpsertedConcat(committed[e], records[..i], batch, fields);
        UpsertedNothing(committed[e], fields);
        i := end;
      }
      assert records[..i] == records;
      if !answers.commit {
        working := committed;
        return false;
      }
      if records != [] {
        UpsertsOverride(committed[e], records, fields);
        ColumnsAreTheLastRecords(committed[e], records, fields);
      }
      committed := working;
      return true;
    }
  }

  lemma ImportableExactly(rs: seq<Record>, fields: seq<Field>, answers: Answers)
    ensures Importable(rs, fields, answers) <==>
      && (rs != [] ==> ID in fields && exists f :: f in fields && f != ID)
      && (forall k, f :: 0 <= k < |rs| && f in fields ==> f in rs[k])
      && (forall k: nat :: k < |rs| ==> answers.takes(k))
  {
    if rs != [] && AllComplete(rs, fields) {
      assert Complete(rs[0], fields);
    }
  }

  lemma BatchStart(batch: seq<Record>, fields: seq<Field>, tables: map<Entity, Table>)
    ensures HaveIds(batch[..0]) && AllComplete(batch[..0], fields)
    ensures forall e :: e in tables ==> Upserted(tables[e], batch[..0], fields) == tables[e]
  {
  }

  lemma RecordRefused(batch: seq<Record>, k: nat, fields: seq<Field>)
    requires k < |batch|
    ensures AllComplete(batch, fields) ==> Complete(batch[k], fields)
  {
  }

  lemma OneMoreRecord(t: Table, batch: seq<Record>, k: nat, fields: seq<Field>)
    requires k < |batch| && HaveIds(batch[..k]) && AllComplete(batch[..k], fields) && Complete(batch[k], fields)
    ensures HaveIds(batch[..k + 1]) && AllComplete(batch[..k + 1], fields) && ID in batch[k]
    ensures Upserted(t, batch[..k + 1], fields) == Upsert(Upserted(t, batch[..k], fields), batch[k], fields)
  {
    hide Upsert;
    assert batch[..k + 1][..k] == batch[..k];
  }

  lemma UpsertedNothing(t: Table, fields: seq<Field>)
    ensures Upserted(t, [], fields) == t
  {
  }

  /** A batch of an importable import is importable. */
  lemma BatchOfImportable(rs: seq<Record>, fields: seq<Field>, answers: Answers, i: nat, end: nat)
    requires i < end <= |rs|
    ensures Importable(rs, fields, answers) ==> AllComplete(rs[i..end], fields) && Takes(answers, i, end)
  {
  }

  lemma BatchJoins(rs: seq<Record>, fields: seq<Field>, answers: Answers, i: nat, end: nat)
    requires i < end <= |rs| && AllComplete(rs[..i], fields) && AllComplete(rs[i..end], fields)
    requires Takes(answers, 0, i) && Takes(answers, i, end)
    ensures rs[..end] == rs[..i] + rs[i..end] && AllComplete(rs[..end], fields) && Takes(answers, 0, end)
  {
    hide Complete;
  }
}
