/** The `peer` table: rows keyed by guid, with a unique index on id. */
module Database {
  import opened Net

  datatype Row = Row(id: string, uuid: Bytes, pk: Bytes, infoIp: Option<Ip>)
  type Rows = map<Bytes, Row>

  ghost predicate HasId(rows: Rows, id: string) {
    exists g :: g in rows && rows[g].id == id
  }

  /** The unique index on id; the primary key is the map itself. */
  ghost predicate UniqueIds(rows: Rows) {
    forall g, h :: g in rows && h in rows && rows[g].id == rows[h].id ==> g == h
  }

  /** The index, and what every writer of this server stores. */
  ghost predicate WellFormed(rows: Rows) {
    UniqueIds(rows) && forall g :: g in rows ==> g != [] && rows[g].uuid != []
  }

  /** The guid of the row with this id. */
  ghost function Find(rows: Rows, id: string): (r: Option<Bytes>)
    ensures r.Some? <==> HasId(rows, id)
    ensures r.Some? ==> r.value in rows && rows[r.value].id == id
  {
    if HasId(rows, id) then
      var g :| g in rows && rows[g].id == id;
      Some(g)
    else None
  }

  // ---------- The three statements, each allowed to fail ----------

  /** Insert under a new guid; a taken guid or id violates a constraint. */
  ghost function Inserted(rows: Rows, guid: Bytes, row: Row, writeOk: bool): (Rows, bool) {
    if !writeOk || guid in rows || HasId(rows, row.id) then (rows, false) else (rows[guid := row], true)
  }

  /** `update peer set id=?, pk=?, info=? where guid=?`: the uuid column is not written. */
  ghost function Updated(rows: Rows, guid: Bytes, id: string, pk: Bytes, infoIp: Option<Ip>, writeOk: bool): (Rows, bool) {
    if !writeOk then (rows, false)
    else if guid !in rows then (rows, true)
    else if exists g :: g in rows && g != guid && rows[g].id == id then (rows, false)
    else (rows[guid := rows[guid].(id := id, pk := pk, infoIp := infoIp)], true)
  }

  /** What a registration does to the table: a record without guid is inserted under a new one, another
      updates its own row. */
  ghost function Written(rows: Rows, guid: Bytes, row: Row, newGuid: Bytes, writeOk: bool): (Rows, bool) {
    if guid == [] then Inserted(rows, newGuid, row, writeOk)
    else Updated(rows, guid, row.id, row.pk, row.infoIp, writeOk)
  }

  // ---------- What every statement keeps ----------

  /** No row is ever deleted, renamed or given another uuid. */
  ghost predicate RowsKept(rows: Rows, rows': Rows) {
    forall g :: g in rows ==> g in rows' && rows'[g].id == rows[g].id && rows'[g].uuid == rows[g].uuid
  }

  /** A guid that is no mere blank points at the row of this id. */
  predicate Anchors(rows: Rows, guid: Bytes, id: string) {
    guid != [] ==> guid in rows && rows[guid].id == id
  }

  /** With such a guid a registration's write keeps every row, whatever it says and whether or not it
      succeeds; the guid it leaves in the record is such a one again. */
  lemma WrittenKeeps(rows: Rows, guid: Bytes, row: Row, newGuid: Bytes, writeOk: bool)
    requires UniqueIds(rows) && Anchors(rows, guid, row.id)
    ensures var (rows', ok) := Written(rows, guid, row, newGuid, writeOk);
            && UniqueIds(rows') && RowsKept(rows, rows')
            && (guid == [] && ok ==> newGuid in rows' && rows'[newGuid] == row && !HasId(rows, row.id))
  {
    assert forall g :: g in rows && rows[g].id == row.id ==> HasId(rows, row.id);
  }

  /** Each write with its exact condition and effect: a new row needs a new guid and a new id; an update needs that
      no other row has the id, writes everything but the uuid, and is no failure if the row is gone. */
  lemma WriteIff(rows: Rows, guid: Bytes, row: Row, newGuid: Bytes, writeOk: bool)
    ensures var (rows', ok) := Written(rows, guid, row, newGuid, writeOk);
            && (ok <==> writeOk && if guid == [] then newGuid !in rows && !HasId(rows, row.id)
                                   else guid in rows ==> forall g :: g in rows && rows[g].id == row.id ==> g == guid)
            && rows' == if !ok then rows
                        else if guid == [] then rows[newGuid := row]
                        else if guid in rows then rows[guid := Row(row.id, rows[guid].uuid, row.pk, row.infoIp)]
                        else rows
  {
  }

  lemma InsertKeeps(rows: Rows, guid: Bytes, row: Row, writeOk: bool)
    requires WellFormed(rows) && guid != [] && row.uuid != []
    ensures var (rows', ok) := Inserted(rows, guid, row, writeOk);
            && WellFormed(rows') && RowsKept(rows, rows')
            && (forall x :: HasId(rows', x) <==> HasId(rows, x) || (ok && x == row.id))
            && (ok <==> writeOk && guid !in rows && !HasId(rows, row.id))
            && rows' == if ok then rows[guid := row] else rows
  {
    var (rows', ok) := Inserted(rows, guid, row, writeOk);
    if ok {
      assert guid in rows' && rows'[guid].id == row.id;
      forall x | HasId(rows, x) ensures HasId(rows', x) {
        var g :| g in rows && rows[g].id == x;
        assert g in rows' && rows'[g].id == x;
      }
    }
  }

  /** An update under the row's own id cannot hit the unique index, so only the write itself can fail. */
  lemma UpdateKeeps(rows: Rows, guid: Bytes, pk: Bytes, infoIp: Option<Ip>, writeOk: bool)
    requires WellFormed(rows) && guid in rows
    ensures var (rows', ok) := Updated(rows, guid, rows[guid].id, pk, infoIp, writeOk);
            && WellFormed(rows') && RowsKept(rows, rows')
            && (forall x :: HasId(rows', x) <==> HasId(rows, x))
            && ok == writeOk
            && rows' == if ok then rows[guid := rows[guid].(pk := pk, infoIp := infoIp)] else rows
  {
    var (rows', ok) := Updated(rows, guid, rows[guid].id, pk, infoIp, writeOk);
    forall x
      ensures HasId(rows', x) <==> HasId(rows, x)
    {
      if HasId(rows, x) {
        var g :| g in rows && rows[g].id == x;
        assert g in rows' && rows'[g].id == x;
      }
    }
  }

  class Table {
    var rows: Rows

    ghost predicate Valid()
      reads this
    {
      UniqueIds(rows)
    }

    constructor (rows: Rows)
      requires UniqueIds(rows)
      ensures Valid() && this.rows == rows
    {
      this.rows := rows;
    }

    /** `readOk` is false when the query fails; the caller cannot tell that from no row. */
    method GetPeer(id: string, readOk: bool) returns (r: Option<(Bytes, Row)>)
      requires Valid()
      ensures r.Some? <==> readOk && HasId(rows, id)
      ensures r.Some? ==> Find(rows, id) == Some(r.value.0) && r.value.1 == rows[r.value.0]
    {
      if readOk && id in (set g | g in rows :: rows[g].id) {
        var g :| g in rows && rows[g].id == id;
        return Some((g, rows[g]));
      }
      return None;
    }

    method InsertPeer(guid: Bytes, row: Row, writeOk: bool) returns (ok: bool)
      requires Valid()
      modifies this
      ensures Valid()
      ensures (rows, ok) == Inserted(old(rows), guid, row, writeOk)
    {
      ok := writeOk && guid !in rows && row.id !in (set g | g in rows :: rows[g].id);
      if ok {
        rows := rows[guid := row];
      }
    }

    method UpdatePk(guid: Bytes, id: string, pk: Bytes, infoIp: Option<Ip>, writeOk: bool) returns (ok: bool)
      requires Valid()
      modifies this
      ensures Valid()
      ensures (rows, ok) == Updated(old(rows), guid, id, pk, infoIp, writeOk)
    {
      ok := writeOk;
      if writeOk && guid in rows {
        ok := id !in (set g | g in rows && g != guid :: rows[g].id);
        if ok {
          rows := rows[guid := rows[guid].(id := id, pk := pk, infoIp := infoIp)];
        }
      }
    }
  }
}
