/**
 * The provider credential table: stage, activate, forget, record a connection status.
 * The table is refined by a vault that only knows keys in the clear.
 */
module Credentials {
  import opened Options
  import opened Base64
  import opened Envelope

  type Id = nat

  datatype Status = Staged | Active

  const CONNECTED := "connected"
  const NOT_CONFIGURED := "not_configured"

  datatype Row = Row(id: Id, provider: string, model: string, baseUrl: string, envelope: string,
                     keyFingerprint: string, keyHint: string, status: Status, connection: string,
                     lastTestedAt: Option<nat>, approvalRequestId: string, createdAt: nat, updatedAt: nat)

  /** The rows in insertion order; `nextId` stands for the ids not drawn yet. */
  datatype Table = Table(rows: seq<Row>, nextId: Id)

  /** The box under its one key, and the hash behind a key's short identity. */
  datatype Keys = Keys(box: SecretBox, digest: string -> string)

  datatype Step =
    | Stage(provider: string, model: string, baseUrl: string, apiKey: string, keepExisting: bool,
            nonce: seq<Byte>, now: nat)
    | Activate(id: Id, approval: string, now: nat)
    | Forget(provider: string)
    | Record(provider: string, status: string, now: nat)

  const EMPTY := Table([], 0)

  // -------------------------------------------------------------- SQL statements

  /** A WHERE clause: a provider, possibly a status, possibly all rows but one. */
  datatype Where = Where(provider: string, status: Option<Status>, butNot: Option<Id>)

  predicate Hits(w: Where, row: Row) {
    && row.provider == w.provider
    && (w.status.None? || row.status == w.status.value)
    && (w.butNot.None? || row.id != w.butNot.value)
  }

  function Delete(rows: seq<Row>, w: Where): (r: seq<Row>)
    ensures forall row :: row in r <==> row in rows && !Hits(w, row)
    ensures |r| <= |rows|
  {
    if rows == [] then []
    else if Hits(w, rows[0]) then Delete(rows[1..], w)
    else [rows[0]] + Delete(rows[1..], w)
  }

  function Get(rows: seq<Row>, id: Id): (r: Option<Row>)
    ensures r.Some? ==> r.value in rows && r.value.id == id
    ensures r.None? ==> forall row | row in rows :: row.id != id
  {
    if rows == [] then None
    else if rows[0].id == id then Some(rows[0])
    else Get(rows[1..], id)
  }

  /** The provider's active row, the newest if there were several. */
  function Newest(rows: seq<Row>, provider: string): (r: Option<Row>)
    ensures r.Some? ==> r.value in rows && r.value.provider == provider && r.value.status == Active
    ensures r.Some? ==>
      forall row | row in rows && row.provider == provider && row.status == Active :: row.updatedAt <= r.value.updatedAt
    ensures r.None? ==> forall row | row in rows :: !(row.provider == provider && row.status == Active)
  {
    if rows == [] then None
    else
      var rest := Newest(rows[1..], provider);
      if rows[0].provider == provider && rows[0].status == Active
         && (rest.None? || rest.value.updatedAt <= rows[0].updatedAt)
      then Some(rows[0]) else rest
  }

  function Promoted(row: Row, approval: string, now: nat): Row {
    row.(status := Active, connection := if row.envelope != [] then CONNECTED else NOT_CONFIGURED,
         approvalRequestId := approval, updatedAt := now)
  }

  function Promote(rows: seq<Row>, id: Id, approval: string, now: nat): (r: seq<Row>)
    ensures |r| == |rows|
    ensures forall i | 0 <= i < |r| :: r[i] == if rows[i].id == id then Promoted(rows[i], approval, now) else rows[i]
  {
    seq(|rows|, i requires 0 <= i < |rows| =>
      if rows[i].id == id then Promoted(rows[i], approval, now) else rows[i])
  }

  function Touched(row: Row, provider: string, status: string, now: nat): Row {
    if row.provider == provider && row.status == Active then
      row.(connection := status, lastTestedAt := Some(now), updatedAt := now)
    else row
  }

  function Touch(rows: seq<Row>, provider: string, status: string, now: nat): (r: seq<Row>)
    ensures |r| == |rows|
    ensures forall i | 0 <= i < |r| :: r[i] == Touched(rows[i], provider, status, now)
  {
    seq(|rows|, i requires 0 <= i < |rows| => Touched(rows[i], provider, status, now))
  }

  // ------------------------------------------------------------------ the methods

  function Fingerprint(keys: Keys, plaintext: string): string {
    if plaintext == [] then [] else "sha256:" + keys.digest(plaintext)
  }

  /** A key that cannot be sealed is not stored at all: there is no plaintext fallback. */
  predicate Refused(keys: Keys, s: Step)
    requires s.Stage?
  {
    s.apiKey != [] && keys.box.encrypt(s.nonce, s.apiKey, s.provider).Err?
  }

  /** The row a staging call inserts: a new key sealed, or the active row's envelope copied, or no key. */
  function StagedRow(keys: Keys, t: Table, s: Step): Row
    requires s.Stage? && !Refused(keys, s)
  {
    var blank := Row(t.nextId, s.provider, s.model, s.baseUrl, [], [], [], Staged, NOT_CONFIGURED, None, [], s.now, s.now);
    if s.apiKey != [] then
      blank.(envelope := keys.box.encrypt(s.nonce, s.apiKey, s.provider).value,
             keyFingerprint := Fingerprint(keys, s.apiKey), keyHint := MaskedHint(s.apiKey))
    else if s.keepExisting then
      match Newest(t.rows, s.provider)
      case None => blank
      case Some(current) =>
        var row := Get(t.rows, current.id);
        blank.(envelope := if row.Some? then row.value.envelope else [],
               keyFingerprint := current.keyFingerprint, keyHint := current.keyHint)
    else blank
  }

  function Next(keys: Keys, t: Table, s: Step): Table {
    match s
    case Stage(provider, _, _, _, _, _, _) =>
      if Refused(keys, s) then t
      else Table(Delete(t.rows, Where(provider, Some(Staged), None)) + [StagedRow(keys, t, s)], t.nextId + 1)
    case Activate(id, approval, now) =>
      var row := Get(t.rows, id);
      if row.None? || row.value.status != Staged then t
      else t.(rows := Promote(Delete(t.rows, Where(row.value.provider, Some(Active), Some(id))), id, approval, now))
    case Forget(provider) => t.(rows := Delete(t.rows, Where(provider, None, None)))
    case Record(provider, status, now) => t.(rows := Touch(t.rows, provider, status, now))
  }

  function Run(keys: Keys, t: Table, steps: seq<Step>): Table
    decreases steps
  {
    if steps == [] then t else Run(keys, Next(keys, t, steps[0]), steps[1..])
  }

  function Reveal(keys: Keys, rows: seq<Row>, provider: string): Result<string> {
    match Newest(rows, provider)
    case None => Ok([])
    case Some(active) =>
      if active.envelope == [] then Ok([])
      else
        var row := Get(rows, active.id);
        if row.None? || row.value.envelope == [] then Ok([])
        else keys.box.decrypt(row.value.envelope, provider)
  }

  // ------------------------------------------- the specification: keys in the clear

  datatype StagedKey = StagedKey(id: Id, key: string)

  /** Per provider the key in use and the key waiting for approval; the empty string is no key. */
  datatype Vault = Vault(active: map<string, string>, staged: map<string, StagedKey>)

  const NO_KEYS := Vault(map[], map[])

  function Lookup(v: Vault, provider: string): string {
    if provider in v.active then v.active[provider] else []
  }

  function VaultNext(v: Vault, nextId: Id, s: Step): Vault {
    match s
    case Stage(provider, _, _, apiKey, keepExisting, _, _) =>
      var key := if apiKey != [] then apiKey else if keepExisting then Lookup(v, provider) else [];
      v.(staged := v.staged[provider := StagedKey(nextId, key)])
    case Activate(id, _, _) =>
      var providers := set p | p in v.staged && v.staged[p].id == id;
      Vault(map p | p in v.active.Keys + providers :: if p in providers then v.staged[p].key else v.active[p],
            v.staged - providers)
    case Forget(provider) => Vault(v.active - {provider}, v.staged - {provider})
    case Record(_, _, _) => v
  }

  function VaultRun(v: Vault, nextId: Id, steps: seq<Step>): Vault
    decreases steps
  {
    if steps == [] then v
    else VaultRun(VaultNext(v, nextId, steps[0]), if steps[0].Stage? then nextId + 1 else nextId, steps[1..])
  }

  // ------------------------------------------------------------- the invariant

  predicate DistinctIds(rows: seq<Row>) {
    forall i, j | 0 <= i < j < |rows| :: rows[i].id != rows[j].id
  }

  /** At most one staged and at most one active row per provider. */
  predicate OnePerSlot(rows: seq<Row>) {
    forall i, j | 0 <= i < j < |rows| :: !(rows[i].provider == rows[j].provider && rows[i].status == rows[j].status)
  }

  predicate TableOk(t: Table) {
    DistinctIds(t.rows) && OnePerSlot(t.rows) && forall row | row in t.rows :: row.id < t.nextId
  }

  /** The row's envelope opens to `key` under the row's own provider, and what the UI shows of it is that key's. */
  predicate Holds(keys: Keys, row: Row, key: string) {
    && (row.envelope == [] <==> key == [])
    && (key != [] ==> keys.box.decrypt(row.envelope, row.provider) == Ok(key))
    && row.keyFingerprint == Fingerprint(keys, key)
    && row.keyHint == MaskedHint(key)
  }

  predicate RowOk(keys: Keys, row: Row, v: Vault) {
    match row.status
    case Active => row.provider in v.active && Holds(keys, row, v.active[row.provider])
    case Staged =>
      row.provider in v.staged && v.staged[row.provider].id == row.id && Holds(keys, row, v.staged[row.provider].key)
  }

  ghost predicate Covers(rows: seq<Row>, provider: string, status: Status) {
    exists i | 0 <= i < |rows| :: rows[i].provider == provider && rows[i].status == status
  }

  ghost predicate Represents(keys: Keys, t: Table, v: Vault) {
    && TableOk(t)
    && (forall i | 0 <= i < |t.rows| :: RowOk(keys, t.rows[i], v))
    && (forall p | p in v.active :: Covers(t.rows, p, Active))
    && (forall p | p in v.staged :: Covers(t.rows, p, Staged))
  }

  // ------------------------------------------------------------------ table lemmas

  lemma RowsWithEqualIds(rows: seq<Row>, a: Row, b: Row)
    requires DistinctIds(rows) && a in rows && b in rows && a.id == b.id
    ensures a == b
  {
  }

  lemma {:induction false} DeleteKeepsTable(rows: seq<Row>, w: Where)
    ensures DistinctIds(rows) ==> DistinctIds(Delete(rows, w))
    ensures OnePerSlot(rows) ==> OnePerSlot(Delete(rows, w))
  {
    hide Hits;
    if rows != [] {
      DeleteKeepsTable(rows[1..], w);
      var rest := Delete(rows[1..], w);
      forall i | 0 <= i < |rest|
        ensures exists j | 0 < j < |rows| :: rows[j] == rest[i]
      {
        assert rest[i] in rest;
        var j :| 0 <= j < |rows[1..]| && rows[1..][j] == rest[i];
        assert rows[j + 1] == rest[i];
      }
      assert DistinctIds(rows) ==> DistinctIds(rows[1..]);
      assert OnePerSlot(rows) ==> OnePerSlot(rows[1..]);
    }
  }

  lemma CoversMember(rows: seq<Row>, row: Row)
    requires row in rows
    ensures Covers(rows, row.provider, row.status)
  {
  }

  lemma CoveringRow(rows: seq<Row>, provider: string, status: Status) returns (row: Row)
    requires Covers(rows, provider, status)
    ensures row in rows && row.provider == provider && row.status == status
  {
    var i :| 0 <= i < |rows| && rows[i].provider == provider && rows[i].status == status;
    row := rows[i];
  }

  /** The row that `reveal` reads, under the invariant: the only active one. */
  lemma ActiveRow(keys: Keys, t: Table, v: Vault, provider: string)
    requires Represents(keys, t, v)
    ensures provider in v.active <==> Newest(t.rows, provider).Some?
    ensures provider in v.active ==>
      var row := Newest(t.rows, provider).value;
      Get(t.rows, row.id) == Some(row) && Holds(keys, row, v.active[provider])
  {
    if provider in v.active {
      var row := CoveringRow(t.rows, provider, Active);
      var found := Newest(t.rows, provider).value;
      RowsWithEqualIds(t.rows, found, Get(t.rows, found.id).value);
    }
  }

  /** Decryption never fails: what is revealed is the vault's key. */
  lemma RevealIsLookup(keys: Keys, t: Table, v: Vault, provider: string)
    requires Represents(keys, t, v)
    ensures Reveal(keys, t.rows, provider) == Ok(Lookup(v, provider))
  {
    ActiveRow(keys, t, v, provider);
  }

  // -------------------------------------------------- every step keeps the refinement

  lemma StagedRowHolds(keys: Keys, t: Table, v: Vault, s: Step)
    requires Represents(keys, t, v) && Seals(keys.box) && s.Stage?
    ensures !Refused(keys, s)
    ensures var row := StagedRow(keys, t, s);
      && row.id == t.nextId && row.provider == s.provider && row.status == Staged
      && RowOk(keys, row, VaultNext(v, t.nextId, s))
  {
    hide Represents, MaskedHint;
    if s.apiKey != [] {
      assert keys.box.encrypt(s.nonce, s.apiKey, s.provider).Ok?;
    } else if s.keepExisting {
      ActiveRow(keys, t, v, s.provider);
    } else {
      assert MaskedHint([]) == [];
    }
  }

  lemma AddedRow(rows: seq<Row>, row: Row)
    requires DistinctIds(rows) && OnePerSlot(rows)
    requires forall other | other in rows ::
      other.id != row.id && !(other.provider == row.provider && other.status == row.status)
    ensures DistinctIds(rows + [row]) && OnePerSlot(rows + [row])
  {
    forall i | 0 <= i < |rows|
      ensures rows[i].id != row.id && !(rows[i].provider == row.provider && rows[i].status == row.status)
    {
      assert rows[i] in rows;
    }
  }

  /** What survives a deletion still covers every slot the deletion does not hit. */
  lemma CoversAfterDelete(rows: seq<Row>, w: Where, provider: string, status: Status)
    requires Covers(rows, provider, status) && w.butNot.None?
    requires provider != w.provider || (w.status.Some? && w.status.value != status)
    ensures Covers(Delete(rows, w), provider, status)
  {
    var row := CoveringRow(rows, provider, status);
    CoversMember(Delete(rows, w), row);
  }

  lemma RowOkAfterStaging(keys: Keys, row: Row, v: Vault, nextId: Id, s: Step)
    requires s.Stage? && RowOk(keys, row, v) && !Hits(Where(s.provider, Some(Staged), None), row)
    ensures RowOk(keys, row, VaultNext(v, nextId, s))
  {
  }

  lemma RowOkAfterForgetting(keys: Keys, row: Row, v: Vault, nextId: Id, s: Step)
    requires s.Forget? && RowOk(keys, row, v) && !Hits(Where(s.provider, None, None), row)
    ensures RowOk(keys, row, VaultNext(v, nextId, s))
  {
  }

  lemma KeptRow(rows: seq<Row>, w: Where, i: nat) returns (j: nat)
    requires i < |Delete(rows, w)|
    ensures j < |rows| && rows[j] == Delete(rows, w)[i] && !Hits(w, rows[j])
  {
    assert Delete(rows, w)[i] in Delete(rows, w);
    j :| 0 <= j < |rows| && rows[j] == Delete(rows, w)[i];
  }

  lemma StagedTable(t: Table, row: Row, provider: string)
    requires TableOk(t) && row.id == t.nextId && row.provider == provider && row.status == Staged
    ensures TableOk(Table(Delete(t.rows, Where(provider, Some(Staged), None)) + [row], t.nextId + 1))
  {
    var w := Where(provider, Some(Staged), None);
    DeleteKeepsTable(t.rows, w);
    AddedRow(Delete(t.rows, w), row);
  }

  lemma StageUnfolds(keys: Keys, t: Table, v: Vault, s: Step)
    requires s.Stage? && !Refused(keys, s)
    ensures Next(keys, t, s)
         == Table(Delete(t.rows, Where(s.provider, Some(Staged), None)) + [StagedRow(keys, t, s)], t.nextId + 1)
    ensures var r := VaultNext(v, t.nextId, s); r.active == v.active && r.staged.Keys == v.staged.Keys + {s.provider}
  {
  }

  lemma StageRepresents(keys: Keys, t: Table, v: Vault, s: Step)
    requires Represents(keys, t, v) && Seals(keys.box) && s.Stage?
    ensures Represents(keys, Next(keys, t, s), VaultNext(v, t.nextId, s))
  {
    hide RowOk, StagedRow, Seals, Hits, TableOk, Covers, Next, VaultNext;
    StagedRowHolds(keys, t, v, s);
    StageUnfolds(keys, t, v, s);
    var w, row, r := Where(s.provider, Some(Staged), None), StagedRow(keys, t, s), VaultNext(v, t.nextId, s);
    var kept := Delete(t.rows, w);
    StagedTable(t, row, s.provider);
    forall i | 0 <= i < |kept + [row]|
      ensures RowOk(keys, (kept + [row])[i], r)
    {
      if i < |kept| {
        var j := KeptRow(t.rows, w, i);
        RowOkAfterStaging(keys, t.rows[j], v, t.nextId, s);
      }
    }
    forall p | p in r.active
      ensures Covers(kept + [row], p, Active)
    {
      CoversAfterDelete(t.rows, w, p, Active);
      CoversMore(kept, row, p, Active);
    }
    forall p | p in r.staged
      ensures Covers(kept + [row], p, Staged)
    {
      if p == s.provider {
        CoversMember(kept + [row], row);
      } else {
        CoversAfterDelete(t.rows, w, p, Staged);
        CoversMore(kept, row, p, Staged);
      }
    }
  }

  lemma CoversMore(rows: seq<Row>, row: Row, provider: string, status: Status)
    requires Covers(rows, provider, status)
    ensures Covers(rows + [row], provider, status)
  {
    var before := CoveringRow(rows, provider, status);
    CoversMember(rows + [row], before);
  }

  lemma ForgetRepresents(keys: Keys, t: Table, v: Vault, s: Step)
    requires Represents(keys, t, v) && s.Forget?
    ensures Represents(keys, Next(keys, t, s), VaultNext(v, t.nextId, s))
  {
    hide RowOk, Hits, Covers;
    var w, r := Where(s.provider, None, None), VaultNext(v, t.nextId, s);
    var kept := Delete(t.rows, w);
    DeleteKeepsTable(t.rows, w);
    forall i | 0 <= i < |kept|
      ensures RowOk(keys, kept[i], r)
    {
      var j := KeptRow(t.rows, w, i);
      RowOkAfterForgetting(keys, t.rows[j], v, t.nextId, s);
    }
    forall p | p in r.active
      ensures Covers(kept, p, Active)
    {
      CoversAfterDelete(t.rows, w, p, Active);
    }
    forall p | p in r.staged
      ensures Covers(kept, p, Staged)
    {
      CoversAfterDelete(t.rows, w, p, Staged);
    }
  }

  lemma TouchedRow(keys: Keys, row: Row, v: Vault, provider: string, status: string, now: nat)
    ensures var r := Touched(row, provider, status, now);
      r.id == row.id && r.provider == row.provider && r.status == row.status && (RowOk(keys, row, v) ==> RowOk(keys, r, v))
  {
  }

  lemma RecordRepresents(keys: Keys, t: Table, v: Vault, s: Step)
    requires Represents(keys, t, v) && s.Record?
    ensures Represents(keys, Next(keys, t, s), v)
  {
    hide RowOk, Touched;
    var rows := Next(keys, t, s).rows;
    forall i | 0 <= i < |rows|
      ensures rows[i].id == t.rows[i].id && rows[i].provider == t.rows[i].provider && rows[i].status == t.rows[i].status
      ensures RowOk(keys, rows[i], v)
    {
      TouchedRow(keys, t.rows[i], v, s.provider, s.status, s.now);
    }
    forall p, status | Covers(t.rows, p, status)
      ensures Covers(rows, p, status)
    {
      var i :| 0 <= i < |t.rows| && t.rows[i].provider == p && t.rows[i].status == status;
      assert rows[i].provider == p && rows[i].status == status;
    }
  }

  function Others(rows: seq<Row>, row: Row): seq<Row> {
    Delete(rows, Where(row.provider, Some(Active), Some(row.id)))
  }

  /** The deletion before an activation leaves the staged row and no active row of its provider. */
  lemma OthersShape(t: Table, row: Row) returns (k: nat)
    requires TableOk(t) && row in t.rows && row.status == Staged
    ensures var kept := Others(t.rows, row);
      && k < |kept| && kept[k] == row && DistinctIds(kept) && OnePerSlot(kept)
      && forall i | 0 <= i < |kept| :: kept[i] in t.rows && (kept[i].provider == row.provider ==> i == k)
  {
    var kept := Others(t.rows, row);
    DeleteKeepsTable(t.rows, Where(row.provider, Some(Active), Some(row.id)));
    assert row in kept;
    k :| 0 <= k < |kept| && kept[k] == row;
    forall i | 0 <= i < |kept|
      ensures kept[i] in t.rows && (kept[i].provider == row.provider ==> i == k)
    {
      assert kept[i] in kept;
      if kept[i].id == row.id {
        RowsWithEqualIds(t.rows, kept[i], row);
      }
    }
  }

  lemma PromoteOne(rows: seq<Row>, k: nat, approval: string, now: nat)
    requires DistinctIds(rows) && k < |rows|
    ensures Promote(rows, rows[k].id, approval, now) == rows[k := Promoted(rows[k], approval, now)]
  {
  }

  lemma PromotedTable(rows: seq<Row>, k: nat, approval: string, now: nat)
    requires DistinctIds(rows) && OnePerSlot(rows) && k < |rows|
    requires forall i | 0 <= i < |rows| :: rows[i].provider == rows[k].provider ==> i == k
    ensures var r := rows[k := Promoted(rows[k], approval, now)]; DistinctIds(r) && OnePerSlot(r)
  {
  }

  lemma ActivateRepresents(keys: Keys, t: Table, v: Vault, s: Step)
    requires Represents(keys, t, v) && s.Activate?
    ensures Represents(keys, Next(keys, t, s), VaultNext(v, t.nextId, s))
  {
    hide Holds, Promote, Delete, TableOk;
    var found := Get(t.rows, s.id);
    ActivatedProviders(keys, t, v, s.id);
    if found.None? || found.value.status != Staged {
      var r := VaultNext(v, t.nextId, s);
      assert r.active == v.active && r.staged == v.staged;
    } else {
      ActivatedRepresents(keys, t, v, s);
    }
  }

  /** Which provider an activation serves: that of the staged row with the id, or none. */
  lemma ActivatedProviders(keys: Keys, t: Table, v: Vault, id: Id)
    requires Represents(keys, t, v)
    ensures var found := Get(t.rows, id);
      (set p | p in v.staged && v.staged[p].id == id)
      == if found.Some? && found.value.status == Staged then {found.value.provider} else {}
  {
    var found := Get(t.rows, id);
    forall p | p in v.staged && v.staged[p].id == id
      ensures found.Some? && found.value.status == Staged && found.value.provider == p
    {
      var row := CoveringRow(t.rows, p, Staged);
      RowsWithEqualIds(t.rows, row, found.value);
    }
  }

  /** The vault after an activation that serves `provider`. */
  lemma ActivatedVault(v: Vault, nextId: Id, s: Step, provider: string)
    requires s.Activate? && (set p | p in v.staged && v.staged[p].id == s.id) == {provider}
    ensures provider in v.staged
    ensures VaultNext(v, nextId, s) == Vault(v.active[provider := v.staged[provider].key], v.staged - {provider})
  {
    assert provider in (set p | p in v.staged && v.staged[p].id == s.id);
    var r := VaultNext(v, nextId, s);
    assert r.active == v.active[provider := v.staged[provider].key];
  }

  lemma OtherRowOk(keys: Keys, row: Row, v: Vault, provider: string, key: string)
    requires RowOk(keys, row, v) && row.provider != provider
    ensures RowOk(keys, row, Vault(v.active[provider := key], v.staged - {provider}))
  {
  }

  lemma PromotedRowOk(keys: Keys, row: Row, v: Vault, approval: string, now: nat)
    requires RowOk(keys, row, v) && row.status == Staged
    ensures RowOk(keys, Promoted(row, approval, now),
                  Vault(v.active[row.provider := v.staged[row.provider].key], v.staged - {row.provider}))
  {
  }

  lemma CoversAfterPromotion(rows: seq<Row>, row: Row, k: nat, promoted: Row, provider: string, status: Status)
    requires Covers(rows, provider, status) && provider != row.provider
    requires k < |Others(rows, row)| && Others(rows, row)[k].provider == row.provider
    ensures Covers(Others(rows, row)[k := promoted], provider, status)
  {
    var other := CoveringRow(rows, provider, status);
    var kept := Others(rows, row);
    assert other in kept;
    var i :| 0 <= i < |kept| && kept[i] == other;
    assert kept[k := promoted][i] == other;
  }

  lemma ActivatedRepresents(keys: Keys, t: Table, v: Vault, s: Step)
    requires Represents(keys, t, v) && s.Activate?
    requires Get(t.rows, s.id).Some? && Get(t.rows, s.id).value.status == Staged
    ensures Represents(keys, Next(keys, t, s), VaultNext(v, t.nextId, s))
  {
    hide RowOk, Promote, Others, Covers;
    var row := Get(t.rows, s.id).value;
    var promoted := Promoted(row, s.approval, s.now);
    ActivatedProviders(keys, t, v, s.id);
    ActivatedVault(v, t.nextId, s, row.provider);
    var r := VaultNext(v, t.nextId, s);
    var k := OthersShape(t, row);
    var kept := Others(t.rows, row);
    PromoteOne(kept, k, s.approval, s.now);
    PromotedTable(kept, k, s.approval, s.now);
    var rows := kept[k := promoted];
    assert Next(keys, t, s).rows == rows by { ActivateUnfolds(keys, t, s); }
    forall i | 0 <= i < |rows|
      ensures RowOk(keys, rows[i], r) && rows[i].id < t.nextId
    {
      var j :| 0 <= j < |t.rows| && t.rows[j] == kept[i];
      if i == k {
        PromotedRowOk(keys, row, v, s.approval, s.now);
      } else {
        OtherRowOk(keys, kept[i], v, row.provider, v.staged[row.provider].key);
      }
    }
    CoversMember(rows, promoted);
    forall p, status | Covers(t.rows, p, status) && p != row.provider
      ensures Covers(rows, p, status)
    {
      CoversAfterPromotion(t.rows, row, k, promoted, p, status);
    }
  }

  lemma ActivateUnfolds(keys: Keys, t: Table, s: Step)
    requires s.Activate? && Get(t.rows, s.id).Some? && Get(t.rows, s.id).value.status == Staged
    ensures Next(keys, t, s) == t.(rows := Promote(Others(t.rows, Get(t.rows, s.id).value), s.id, s.approval, s.now))
  {
  }

  lemma StepRepresents(keys: Keys, t: Table, v: Vault, s: Step)
    requires Represents(keys, t, v) && Seals(keys.box)
    ensures Represents(keys, Next(keys, t, s), VaultNext(v, t.nextId, s))
    ensures Next(keys, t, s).nextId == if s.Stage? then t.nextId + 1 else t.nextId
  {
    hide Represents, Seals, Delete, Promote, Touch, StagedRow;
    match s
    case Stage(_, _, _, _, _, _, _) =>
      StagedRowHolds(keys, t, v, s);
      StageRepresents(keys, t, v, s);
    case Activate(_, _, _) => ActivateRepresents(keys, t, v, s);
    case Forget(_) => ForgetRepresents(keys, t, v, s);
    case Record(_, _, _) => RecordRepresents(keys, t, v, s);
  }

  lemma {:induction false} RunRepresents(keys: Keys, t: Table, v: Vault, steps: seq<Step>)
    requires Represents(keys, t, v) && Seals(keys.box)
    ensures Represents(keys, Run(keys, t, steps), VaultRun(v, t.nextId, steps))
    decreases steps
  {
    hide Represents, Seals, Next, VaultNext;
    if steps != [] {
      StepRepresents(keys, t, v, steps[0]);
      RunRepresents(keys, Next(keys, t, steps[0]), VaultNext(v, t.nextId, steps[0]), steps[1..]);
    }
  }

  // ---------------------------------------------------------------- over all runs

  /** The encrypted table is as good as keys in the clear: revealing never fails and yields the vault's key. */
  lemma TableRefinesVault(keys: Keys, steps: seq<Step>, provider: string)
    requires Seals(keys.box)
    ensures Reveal(keys, Run(keys, EMPTY, steps).rows, provider) == Ok(Lookup(VaultRun(NO_KEYS, 0, steps), provider))
  {
    RunRepresents(keys, EMPTY, NO_KEYS, steps);
    RevealIsLookup(keys, Run(keys, EMPTY, steps), VaultRun(NO_KEYS, 0, steps), provider);
  }

  /** The same with the real box: an authenticated cipher behind the serialised envelope. */
  lemma EnvelopeTableRefinesVault(cipher: Cipher, digest: string -> string, steps: seq<Step>, provider: string)
    requires Faithful(cipher)
    ensures var keys := Keys(BoxOf(cipher), digest);
      Reveal(keys, Run(keys, EMPTY, steps).rows, provider) == Ok(Lookup(VaultRun(NO_KEYS, 0, steps), provider))
  {
    EnvelopeBoxSeals(cipher);
    TableRefinesVault(Keys(BoxOf(cipher), digest), steps, provider);
  }

  /** Per provider at most one staged and at most one active row, whatever was called. */
  lemma OneStagedAndOneActive(keys: Keys, steps: seq<Step>)
    requires Seals(keys.box)
    ensures OnePerSlot(Run(keys, EMPTY, steps).rows) && DistinctIds(Run(keys, EMPTY, steps).rows)
  {
    RunRepresents(keys, EMPTY, NO_KEYS, steps);
  }

  /** Every stored envelope opens under its own row's provider, to the key its hint and fingerprint are of. */
  lemma EveryEnvelopeOpens(keys: Keys, steps: seq<Step>, i: nat)
    requires Seals(keys.box) && i < |Run(keys, EMPTY, steps).rows|
    requires Run(keys, EMPTY, steps).rows[i].envelope != []
    ensures var row := Run(keys, EMPTY, steps).rows[i];
      var plain := keys.box.decrypt(row.envelope, row.provider);
      plain.Ok? && plain.value != [] && row.keyHint == MaskedHint(plain.value)
      && row.keyFingerprint == Fingerprint(keys, plain.value)
  {
    RunRepresents(keys, EMPTY, NO_KEYS, steps);
    assert RowOk(keys, Run(keys, EMPTY, steps).rows[i], VaultRun(NO_KEYS, 0, steps));
  }

  predicate IsStaged(t: Table, id: Id) {
    Get(t.rows, id).Some? && Get(t.rows, id).value.status == Staged
  }

  ghost predicate IsActive(t: Table, id: Id) {
    exists row | row in t.rows :: row.id == id && row.status == Active
  }

  /** Only an activation makes a row active, and only a row that is staged at that moment. */
  lemma OnlyStagedBecomesActive(keys: Keys, t: Table, v: Vault, s: Step, id: Id)
    requires Represents(keys, t, v)
    requires !IsActive(t, id) && IsActive(Next(keys, t, s), id)
    ensures s.Activate? && s.id == id && IsStaged(t, id)
  {
    hide RowOk, Covers;
    var row :| row in Next(keys, t, s).rows && row.id == id && row.status == Active;
    match s
    case Activate(_, _, _) =>
      var found := Get(t.rows, s.id);
      if found.Some? && found.value.status == Staged {
        var kept := Others(t.rows, found.value);
        var i :| 0 <= i < |kept| && row == if kept[i].id == s.id then Promoted(kept[i], s.approval, s.now) else kept[i];
        assert kept[i] in kept;
      }
    case _ =>
  }

  /** A staged id that is gone from a provider never comes back to it. */
  lemma {:induction false} GoneIsGone(v: Vault, nextId: Id, steps: seq<Step>, provider: string, id: Id)
    requires id < nextId && !(provider in v.staged && v.staged[provider].id == id)
    ensures var r := VaultRun(v, nextId, steps); !(provider in r.staged && r.staged[provider].id == id)
    decreases steps
  {
    if steps != [] {
      var s := steps[0];
      GoneIsGone(VaultNext(v, nextId, s), if s.Stage? then nextId + 1 else nextId, steps[1..], provider, id);
    }
  }

  /** As long as a credential waits for approval, the provider's key in use stays what it was. */
  lemma {:induction false} WaitingLeavesTheActiveKey(v: Vault, nextId: Id, steps: seq<Step>, provider: string, id: Id)
    requires id < nextId && provider in v.staged && v.staged[provider].id == id
    requires var r := VaultRun(v, nextId, steps); provider in r.staged && r.staged[provider].id == id
    ensures var r := VaultRun(v, nextId, steps);
      r.staged[provider] == v.staged[provider] && Lookup(r, provider) == Lookup(v, provider)
    decreases steps
  {
    if steps != [] {
      var s := steps[0];
      var next, n := VaultNext(v, nextId, s), if s.Stage? then nextId + 1 else nextId;
      if provider in next.staged && next.staged[provider].id == id {
        WaitingLeavesTheActiveKey(next, n, steps[1..], provider, id);
      } else {
        GoneIsGone(next, n, steps[1..], provider, id);
      }
    }
  }

  /** The provider whose staged row carries the id drawn by a staging call, any number of steps later. */
  lemma StillStagedUnder(keys: Keys, t: Table, v: Vault, s: Step, steps: seq<Step>)
    requires Represents(keys, t, v) && Seals(keys.box) && s.Stage?
    requires IsStaged(Run(keys, Next(keys, t, s), steps), t.nextId)
    ensures var r := VaultRun(VaultNext(v, t.nextId, s), t.nextId + 1, steps);
      s.provider in r.staged && r.staged[s.provider].id == t.nextId
      && Get(Run(keys, Next(keys, t, s), steps).rows, t.nextId).value.provider == s.provider
  {
    var u, w := Next(keys, t, s), VaultNext(v, t.nextId, s);
    StepRepresents(keys, t, v, s);
    RunRepresents(keys, u, w, steps);
    var late, r := Run(keys, u, steps), VaultRun(w, t.nextId + 1, steps);
    var row := Get(late.rows, t.nextId).value;
    assert RowOk(keys, row, r);
    if row.provider != s.provider {
      if row.provider in v.staged {
        var other := CoveringRow(t.rows, row.provider, Staged);
        assert RowOk(keys, other, v);
      }
      GoneIsGone(w, t.nextId + 1, steps, row.provider, t.nextId);
    }
  }

  /**
   * Activating a credential, however many steps after it was staged, reveals the key it was staged
   * with; staging alone, and everything that left it staged, changed nothing.
   */
  lemma ActivationRevealsTheStagedKey(keys: Keys, t: Table, v: Vault, s: Step, steps: seq<Step>, approval: string, now: nat)
    requires Represents(keys, t, v) && Seals(keys.box) && s.Stage?
    requires IsStaged(Run(keys, Next(keys, t, s), steps), t.nextId)
    ensures var late := Run(keys, Next(keys, t, s), steps);
      var activated := Next(keys, late, Activate(t.nextId, approval, now));
      && Reveal(keys, late.rows, s.provider) == Reveal(keys, t.rows, s.provider)
      && Reveal(keys, activated.rows, s.provider) ==
           if s.apiKey != [] then Ok(s.apiKey)
           else if s.keepExisting then Reveal(keys, t.rows, s.provider)
           else Ok([])
  {
    hide Represents, Seals, Reveal, Next, Get, RowOk;
    var u, w := Next(keys, t, s), VaultNext(v, t.nextId, s);
    StepRepresents(keys, t, v, s);
    RunRepresents(keys, u, w, steps);
    StillStagedUnder(keys, t, v, s, steps);
    var late, r := Run(keys, u, steps), VaultRun(w, t.nextId + 1, steps);
    WaitingLeavesTheActiveKey(w, t.nextId + 1, steps, s.provider, t.nextId);
    var activate := Activate(t.nextId, approval, now);
    StepRepresents(keys, late, r, activate);
    ActivatedProviders(keys, late, r, t.nextId);
    ActivatedVault(r, late.nextId, activate, s.provider);
    RevealIsLookup(keys, t, v, s.provider);
    RevealIsLookup(keys, late, r, s.provider);
    RevealIsLookup(keys, Next(keys, late, activate), VaultNext(r, late.nextId, activate), s.provider);
  }

  /** "Keep existing key" keeps it: from any reachable table, over any steps up to the approval. */
  lemma KeepExistingKeeps(keys: Keys, before: seq<Step>, s: Step, between: seq<Step>, approval: string, now: nat)
    requires Seals(keys.box) && s.Stage? && s.apiKey == [] && s.keepExisting
    requires var t := Run(keys, EMPTY, before); IsStaged(Run(keys, Next(keys, t, s), between), t.nextId)
    ensures var t := Run(keys, EMPTY, before);
      var late := Run(keys, Next(keys, t, s), between);
      var activated := Next(keys, late, Activate(t.nextId, approval, now));
      Reveal(keys, activated.rows, s.provider) == Reveal(keys, late.rows, s.provider) == Reveal(keys, t.rows, s.provider)
  {
    hide Reveal, Next, Seals;
    RunRepresents(keys, EMPTY, NO_KEYS, before);
    ActivationRevealsTheStagedKey(keys, Run(keys, EMPTY, before), VaultRun(NO_KEYS, 0, before), s, between, approval, now);
  }

  predicate NeverStages(steps: seq<Step>, provider: string) {
    forall i | 0 <= i < |steps| :: !(steps[i].Stage? && steps[i].provider == provider)
  }

  lemma {:induction false} VaultForgets(v: Vault, nextId: Id, steps: seq<Step>, provider: string)
    requires provider !in v.active && provider !in v.staged && NeverStages(steps, provider)
    ensures var r := VaultRun(v, nextId, steps); provider !in r.active && provider !in r.staged
    decreases steps
  {
    if steps != [] {
      VaultForgets(VaultNext(v, nextId, steps[0]), if steps[0].Stage? then nextId + 1 else nextId, steps[1..], provider);
    }
  }

  /** Forgetting is final: no approval still under way brings a forgotten key back. */
  lemma ForgottenStaysForgotten(keys: Keys, before: seq<Step>, provider: string, steps: seq<Step>)
    requires Seals(keys.box) && NeverStages(steps, provider)
    ensures Reveal(keys, Run(keys, Next(keys, Run(keys, EMPTY, before), Forget(provider)), steps).rows, provider) == Ok([])
  {
    hide Reveal, Next, Seals, Represents;
    var t, v := Run(keys, EMPTY, before), VaultRun(NO_KEYS, 0, before);
    assert Represents(keys, EMPTY, NO_KEYS) by { EmptyRepresents(keys); }
    RunRepresents(keys, EMPTY, NO_KEYS, before);
    StepRepresents(keys, t, v, Forget(provider));
    var w := VaultNext(v, t.nextId, Forget(provider));
    RunRepresents(keys, Next(keys, t, Forget(provider)), w, steps);
    VaultForgets(w, t.nextId, steps, provider);
    RevealIsLookup(keys, Run(keys, Next(keys, t, Forget(provider)), steps), VaultRun(w, t.nextId, steps), provider);
  }

  lemma EmptyRepresents(keys: Keys)
    ensures Represents(keys, EMPTY, NO_KEYS)
  {
  }
}
