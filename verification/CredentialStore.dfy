/** The settings store: the methods that read and write the credential table. */
module CredentialStore {
  import opened Options
  import opened Base64
  import opened Envelope
  import opened Credentials

  /** What the store hands out about a row: never the envelope, only whether there is one. */
  datatype CredentialRecord = CredentialRecord(id: Id, provider: string, model: string, baseUrl: string,
                                               keyFingerprint: string, keyHint: string, hasKey: bool, status: Status,
                                               connection: string, lastTestedAt: Option<nat>,
                                               approvalRequestId: string, createdAt: nat, updatedAt: nat)

  function RecordOf(row: Row): CredentialRecord {
    CredentialRecord(row.id, row.provider, row.model, row.baseUrl, row.keyFingerprint, row.keyHint, row.envelope != [],
                     row.status, row.connection, row.lastTestedAt, row.approvalRequestId, row.createdAt, row.updatedAt)
  }

  function Projected(row: Option<Row>): Option<CredentialRecord> {
    if row.Some? then Some(RecordOf(row.value)) else None
  }

  /** The provider's key in use, as far as the table shows it. */
  predicate HasActiveKey(rows: seq<Row>, provider: string) {
    exists row | row in rows :: row.provider == provider && row.status == Active && row.envelope != []
  }

  lemma {:induction false} NewRowIsFound(rows: seq<Row>, row: Row)
    requires forall other | other in rows :: other.id != row.id
    ensures Get(rows + [row], row.id) == Some(row)
  {
    if rows == [] {
      assert [] + [row] == [row];
    } else {
      assert (rows + [row])[0] == rows[0] && (rows + [row])[1..] == rows[1..] + [row];
      NewRowIsFound(rows[1..], row);
    }
  }

  lemma KeptKey(t: Table, provider: string)
    requires TableOk(t)
    ensures var current := Newest(t.rows, provider);
      HasActiveKey(t.rows, provider) <==>
        current.Some? && Get(t.rows, current.value.id).Some? && Get(t.rows, current.value.id).value.envelope != []
  {
    var current := Newest(t.rows, provider);
    if current.Some? {
      RowsWithEqualIds(t.rows, Get(t.rows, current.value.id).value, current.value);
      forall row | row in t.rows && row.provider == provider && row.status == Active
        ensures row == current.value
      {
      }
    }
  }

  /** What the row of a staging call shows. */
  lemma StagedRowShows(keys: Keys, t: Table, s: Step)
    requires s.Stage? && !Refused(keys, s) && TableOk(t) && Seals(keys.box)
    ensures var row := StagedRow(keys, t, s);
      && row.id == t.nextId && row.provider == s.provider && row.model == s.model && row.baseUrl == s.baseUrl
      && row.status == Staged && row.connection == "not_configured" && row.lastTestedAt == None
      && row.approvalRequestId == "" && row.createdAt == row.updatedAt == s.now
      && (row.envelope != [] <==> s.apiKey != [] || (s.keepExisting && HasActiveKey(t.rows, s.provider)))
  {
    hide Newest, Get, HasActiveKey;
    KeptKey(t, s.provider);
  }

  /** The table after a staging call: the provider's staged row gone, all other rows in order, then the new one. */
  lemma StagedRowIsFound(keys: Keys, t: Table, s: Step)
    requires s.Stage? && !Refused(keys, s) && TableOk(t)
    ensures Get(Next(keys, t, s).rows, t.nextId) == Some(StagedRow(keys, t, s))
  {
    hide Newest, Get;
    assert StagedRow(keys, t, s).id == t.nextId;
    NewRowIsFound(Delete(t.rows, Where(s.provider, Some(Staged), None)), StagedRow(keys, t, s));
  }

  lemma PromotedRowIsFound(rows: seq<Row>, w: Where, row: Row, approval: string, now: nat)
    requires DistinctIds(rows) && row in rows && !Hits(w, row)
    ensures Get(Promote(Delete(rows, w), row.id, approval, now), row.id) == Some(Promoted(row, approval, now))
  {
    DeleteKeepsTable(rows, w);
    var kept := Delete(rows, w);
    var k :| 0 <= k < |kept| && kept[k] == row;
    var promoted := Promote(kept, row.id, approval, now);
    assert promoted[k] == Promoted(row, approval, now);
    var found := Get(promoted, row.id);
    var i :| 0 <= i < |promoted| && promoted[i] == found.value;
    assert kept[i].id == row.id;
  }

  class AssistantSettingsStore {
    const keys: Keys
    var rows: seq<Row>
    var nextId: Id

    constructor (keys: Keys)
      ensures this.keys == keys && Table() == EMPTY
    {
      this.keys := keys;
      rows, nextId := [], 0;
    }

    ghost function Table(): Table
      reads this
    {
      Credentials.Table(rows, nextId)
    }

    method GetCredential(id: Id) returns (r: Option<CredentialRecord>)
      ensures r == Projected(Get(rows, id))
    {
      var row := Get(rows, id);
      r := Projected(row);
    }

    method ActiveCredential(provider: string) returns (r: Option<CredentialRecord>)
      ensures r == Projected(Newest(rows, provider))
    {
      var row := Newest(rows, provider);
      r := Projected(row);
    }

    /** Seal the key of a new staged row, which takes the place of the provider's staged row. */
    method StageCredential(provider: string, model: string, baseUrl: string, apiKey: string, keepExisting: bool,
                           nonce: seq<Byte>, now: nat)
      returns (r: Result<Option<CredentialRecord>>)
      modifies this
      ensures Table() == Next(keys, old(Table()), Stage(provider, model, baseUrl, apiKey, keepExisting, nonce, now))
      ensures r.Err? <==> Refused(keys, Stage(provider, model, baseUrl, apiKey, keepExisting, nonce, now))
      ensures r.Ok? ==> r.value == Projected(Get(rows, old(nextId)))
      ensures r.Ok? && old(TableOk(Table())) && Seals(keys.box) ==>
        && r.value.Some?
        && var record := r.value.value;
           && record.id == old(nextId) && record.provider == provider
           && record.model == model && record.baseUrl == baseUrl
           && record.status == Staged && record.connection == "not_configured" && record.lastTestedAt == None
           && record.approvalRequestId == "" && record.createdAt == record.updatedAt == now
           && (record.hasKey <==> apiKey != [] || (keepExisting && HasActiveKey(old(rows), provider)))
    {
      hide Delete, Hits, Get, Newest, MaskedHint, Fingerprint, TableOk, Seals, HasActiveKey;
      ghost var call := Stage(provider, model, baseUrl, apiKey, keepExisting, nonce, now);
      ghost var before := Table();
      var envelope, keyFingerprint, keyHint := "", "", "";
      if apiKey != [] {
        var sealed := keys.box.encrypt(nonce, apiKey, provider);
        if sealed.Err? {
          return Err(sealed.error);
        }
        envelope := sealed.value;
        keyFingerprint, keyHint := Fingerprint(keys, apiKey), MaskedHint(apiKey);
      } else if keepExisting {
        var current := ActiveCredential(provider);
        if current.Some? {
          var row := Get(rows, current.value.id);
          envelope := if row.Some? then row.value.envelope else [];
          keyFingerprint, keyHint := current.value.keyFingerprint, current.value.keyHint;
        }
      }
      var id := nextId;
      nextId := nextId + 1;
      rows := Delete(rows, Where(provider, Some(Staged), None));
      rows := rows + [Row(id, provider, model, baseUrl, envelope, keyFingerprint, keyHint, Staged, NOT_CONFIGURED, None,
                          [], now, now)];
      var record := GetCredential(id);
      r := Ok(record);
      assert Table() == Next(keys, before, call);
      if TableOk(before) && Seals(keys.box) {
        StagedRowIsFound(keys, before, call);
        StagedRowShows(keys, before, call);
        assert r.value == Some(RecordOf(StagedRow(keys, before, call)));
      }
    }

    /** Make a staged row the provider's active one; any other id gives None. */
    method ActivateCredential(id: Id, approval: string, now: nat) returns (r: Option<CredentialRecord>)
      modifies this`rows
      ensures Table() == Next(keys, old(Table()), Activate(id, approval, now))
      ensures r.Some? <==> IsStaged(old(Table()), id)
      ensures r.Some? ==> r == Projected(Get(rows, id)) && r.value.status == Active
      ensures r.Some? && old(TableOk(Table())) ==>
        var was := RecordOf(Get(old(rows), id).value);
        r.value == was.(status := Active, connection := if was.hasKey then "connected" else "not_configured",
                        approvalRequestId := approval, updatedAt := now)
    {
      var record := GetCredential(id);
      if record.None? || record.value.status != Staged {
        return None;
      }
      ghost var staged := Get(rows, id).value;
      rows := Delete(rows, Where(record.value.provider, Some(Active), Some(id)));
      assert staged in rows;
      ghost var kept := rows;
      rows := Promote(rows, id, approval, now);
      assert exists i | 0 <= i < |kept| :: kept[i] == staged && rows[i].id == id;
      r := GetCredential(id);
      PromotedIsActive(kept, id, approval, now);
      if TableOk(old(Table())) {
        PromotedRowIsFound(old(rows), Where(staged.provider, Some(Active), Some(id)), staged, approval, now);
      }
    }

    /** Decrypt the active key, for outbound provider calls only. */
    method RevealApiKey(provider: string) returns (r: Result<string>)
      ensures r == Reveal(keys, rows, provider)
    {
      var record := ActiveCredential(provider);
      if record.None? || !record.value.hasKey {
        return Ok([]);
      }
      var row := Get(rows, record.value.id);
      if row.None? || row.value.envelope == [] {
        return Ok([]);
      }
      r := keys.box.decrypt(row.value.envelope, provider);
    }

    method ForgetProvider(provider: string) returns (any: bool)
      modifies this`rows
      ensures Table() == Next(keys, old(Table()), Forget(provider))
      ensures any <==> exists row | row in old(rows) :: row.provider == provider
    {
      var count := |rows|;
      ghost var before := rows;
      rows := Delete(rows, Where(provider, None, None));
      any := |rows| < count;
      DeletedNothing(before, Where(provider, None, None));
    }

    method RecordConnectionStatus(provider: string, status: string, now: nat)
      modifies this`rows
      ensures Table() == Next(keys, old(Table()), Record(provider, status, now))
      ensures |rows| == |old(rows)| && forall i | 0 <= i < |rows| ::
        var was := old(rows)[i];
        rows[i] == if was.provider == provider && was.status == Active
                   then was.(connection := status, lastTestedAt := Some(now), updatedAt := now) else was
    {
      rows := Touch(rows, provider, status, now);
    }
  }

  lemma PromotedIsActive(rows: seq<Row>, id: Id, approval: string, now: nat)
    ensures var r := Get(Promote(rows, id, approval, now), id); r.Some? ==> r.value.status == Active
  {
    var promoted := Promote(rows, id, approval, now);
    var r := Get(promoted, id);
    if r.Some? {
      var i :| 0 <= i < |promoted| && promoted[i] == r.value;
      assert rows[i].id == id;
    }
  }

  /** A DELETE reports a row count of zero exactly when no row matched. */
  lemma {:induction false} DeletedNothing(rows: seq<Row>, w: Where)
    ensures |Delete(rows, w)| < |rows| <==> exists row | row in rows :: Hits(w, row)
  {
    if rows != [] {
      DeletedNothing(rows[1..], w);
      if Hits(w, rows[0]) {
        assert rows[0] in rows;
      } else if row :| row in rows && Hits(w, row) {
        assert row in rows[1..];
      }
    }
  }
}
