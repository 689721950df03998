/** Selfie Check bindings: two in-memory maps and the `human_bindings` table, kept so that one human stands
    behind one signer, and the copy of the table that outlives the process. */
module SelfieBindings {
  import opened Common

  // ---------------------------------------------------------------- data

  datatype Credential = SelfieCheck | Orb

  datatype Binding = Binding(
    nullifier: string,
    credential: Credential,
    boundAt: nat,
    lastActiveAt: nat,
    expiresAt: nat,
    active: bool)

  datatype Row = Row(signer: string, nullifier: string, boundAt: nat, expiresAt: nat)

  /** Where the table outlives the process: a file rewritten whole, or a database written row by row. */
  datatype Mode = File | Postgres

  /** `bindings` is keyed by checksummed signer, `table` by its lower case; `saved` is the copy of the table
      that a restart finds. */
  datatype State = State(
    mode: Mode,
    bindings: map<string, Binding>,
    nullifierToSigner: map<string, string>,
    table: map<string, Row>,
    saved: map<string, Row>)

  function Empty(mode: Mode): State { State(mode, map[], map[], map[], map[]) }

  const INACTIVITY_WINDOW_MS: nat := 90 * 24 * 60 * 60 * 1000

  datatype Error = Malformed | BadRequest

  // ---------------------------------------------------------------- what the address parser must be

  /** `getAddress` yields checksummed addresses, and one per lower-case spelling. */
  ghost predicate IsChecksumming(env: Env) {
    && (forall a :: env.getAddress(a).Some? ==> IsChecksummed(env, env.getAddress(a).value))
    && (forall a, b :: IsChecksummed(env, a) && IsChecksummed(env, b) && ToLower(a) == ToLower(b) ==> a == b)
  }

  // ---------------------------------------------------------------- operations

  function FromRow(row: Row, now: nat): Binding {
    Binding(row.nullifier, SelfieCheck, row.boundAt, row.boundAt, row.expiresAt, row.expiresAt > now)
  }

  ghost predicate IsHeld(table: map<string, Row>, nullifier: string) {
    exists k :: k in table && table[k].nullifier == nullifier
  }

  /** An answer of the query for the row that holds a nullifier: the first in the table's insertion order,
      which is any of them here. */
  ghost predicate IsAnswer(table: map<string, Row>, nullifier: string, found: Option<Row>) {
    match found
    case None => !IsHeld(table, nullifier)
    case Some(row) => exists k :: k in table && table[k] == row && row.nullifier == nullifier
  }

  ghost function AnyAnswer(table: map<string, Row>, nullifier: string): (found: Option<Row>)
    ensures IsAnswer(table, nullifier, found)
  {
    if IsHeld(table, nullifier) then
      var k :| k in table && table[k].nullifier == nullifier;
      Some(table[k])
    else None
  }

  /** Who a new bind finds to own the nullifier: the index first, then the row found. */
  function Owner(env: Env, s: State, nullifier: string, found: Option<Row>): Option<string> {
    if nullifier in s.nullifierToSigner then Some(s.nullifierToSigner[nullifier])
    else if found.Some? then env.getAddress(found.value.signer)
    else None
  }

  /** The saved copy after one row is inserted: the file takes the whole table, the database the row. */
  function SavedRow(s: State, table: map<string, Row>, k: string): map<string, Row>
    requires k in table
  {
    if s.mode.File? then table else s.saved[k := table[k]]
  }

  /** `bindHumanSigner` from the proof's verification on. */
  function Bind(env: Env, s: State, address: string, nullifier: string, credential: Credential, isVerified: bool,
                found: Option<Row>, now: nat): (State, Result<Binding, Error>)
  {
    var parsed := env.getAddress(address);
    if parsed.None? then (s, Err(Malformed))
    else if !isVerified then (s, Err(BadRequest))
    else
      var signer, owner := parsed.value, Owner(env, s, nullifier, found);
      if owner.Some? && owner.value != signer then (s, Err(BadRequest))
      else
        var binding := Binding(nullifier, credential, now, now, now + INACTIVITY_WINDOW_MS, true);
        var table := s.table[ToLower(signer) := Row(signer, nullifier, now, now + INACTIVITY_WINDOW_MS)];
        (State(s.mode, s.bindings[signer := binding], s.nullifierToSigner[nullifier := signer], table,
               SavedRow(s, table, ToLower(signer))),
         Ok(binding))
  }

  /** Caches a binding that only the table holds. */
  function LoadBinding(s: State, signer: string, now: nat): State {
    if signer !in s.bindings && ToLower(signer) in s.table
    then s.(bindings := s.bindings[signer := FromRow(s.table[ToLower(signer)], now)])
    else s
  }

  function LoadBoth(s: State, signer: string, now: nat): State {
    if signer !in s.bindings && ToLower(signer) in s.table then
      var nullifier := s.table[ToLower(signer)].nullifier;
      LoadBinding(s, signer, now).(nullifierToSigner := s.nullifierToSigner[nullifier := signer])
    else s
  }

  function IsHumanSignerVerified(env: Env, s: State, address: string, now: nat): (State, Result<bool, Error>) {
    var parsed := env.getAddress(address);
    if parsed.None? then (s, Err(Malformed))
    else
      var signer := parsed.value;
      var t := LoadBoth(s, signer, now);
      if signer !in t.bindings || !t.bindings[signer].active then (t, Ok(false))
      else if now > t.bindings[signer].expiresAt then
        (t.(bindings := t.bindings[signer := t.bindings[signer].(active := false)]), Ok(false))
      else (t, Ok(true))
  }

  function GetHumanBinding(env: Env, s: State, address: string, now: nat): (State, Result<Option<Binding>, Error>) {
    var parsed := env.getAddress(address);
    if parsed.None? then (s, Err(Malformed))
    else
      var t := LoadBinding(s, parsed.value, now);
      (t, Ok(if parsed.value in t.bindings then Some(t.bindings[parsed.value]) else None))
  }

  /** `UPDATE human_bindings SET expires_at` on one copy of the table. */
  function Extended(table: map<string, Row>, k: string, expiresAt: nat): map<string, Row> {
    if k in table then table[k := table[k].(expiresAt := expiresAt)] else table
  }

  function TouchActivity(env: Env, s: State, address: string, now: nat): State {
    var parsed := env.getAddress(address);
    if parsed.None? || parsed.value !in s.bindings || !s.bindings[parsed.value].active then s
    else
      var signer, expiresAt := parsed.value, now + INACTIVITY_WINDOW_MS;
      var binding := s.bindings[signer].(lastActiveAt := now, expiresAt := expiresAt);
      var touched := s.(bindings := s.bindings[signer := binding]);
      if ToLower(signer) !in s.table then touched
      else
        var table := Extended(s.table, ToLower(signer), expiresAt);
        touched.(table := table,
                 saved := if s.mode.File? then table else Extended(s.saved, ToLower(signer), expiresAt))
  }

  /** Unlike the other writes, the delete leaves the saved copy alone. */
  function Revoke(env: Env, s: State, address: string): State {
    var parsed := env.getAddress(address);
    if parsed.None? then s
    else
      var signer := parsed.value;
      var forgotten := if signer in s.bindings
                       then s.(bindings := s.bindings - {signer},
                               nullifierToSigner := s.nullifierToSigner - {s.bindings[signer].nullifier})
                       else s;
      forgotten.(table := s.table - {ToLower(signer)})
  }

  /** A write to any other table: the file is rewritten whole. */
  function Save(s: State): State { if s.mode.File? then s.(saved := s.table) else s }

  // ---------------------------------------------------------------- loading

  /** How many rows are taken in: loading stops for good at the first malformed signer. */
  function Loadable(env: Env, rows: seq<Row>): (n: nat)
    ensures n <= |rows|
    ensures forall i :: 0 <= i < n ==> env.getAddress(rows[i].signer).Some?
    ensures n < |rows| ==> env.getAddress(rows[n].signer).None?
  {
    if rows == [] || env.getAddress(rows[0].signer).None? then 0 else 1 + Loadable(env, rows[1..])
  }

  /** Row `i` is the last of a signer. */
  ghost predicate IsLastOfSigner(env: Env, rows: seq<Row>, i: int, signer: string) {
    && 0 <= i < |rows| && env.getAddress(rows[i].signer) == Some(signer)
    && forall j :: i < j < |rows| ==> env.getAddress(rows[j].signer) != Some(signer)
  }

  /** Row `i` is the last that holds a nullifier. */
  ghost predicate IsLastOfNullifier(rows: seq<Row>, i: int, nullifier: string) {
    && 0 <= i < |rows| && rows[i].nullifier == nullifier
    && forall j :: i < j < |rows| ==> rows[j].nullifier != nullifier
  }

  ghost predicate HoldsRows(env: Env, bindings: map<string, Binding>, rows: seq<Row>, now: nat) {
    && (forall i :: 0 <= i < |rows| ==>
          env.getAddress(rows[i].signer).Some? && env.getAddress(rows[i].signer).value in bindings)
    && (forall signer :: signer in bindings ==>
          exists i :: IsLastOfSigner(env, rows, i, signer) && bindings[signer] == FromRow(rows[i], now))
  }

  ghost predicate IndexesRows(env: Env, index: map<string, string>, rows: seq<Row>) {
    && (forall i :: 0 <= i < |rows| ==> rows[i].nullifier in index)
    && (forall nullifier :: nullifier in index ==>
          exists i :: IsLastOfNullifier(rows, i, nullifier)
                      && env.getAddress(rows[i].signer) == Some(index[nullifier]))
  }

  /** Memory holds what these rows say, later rows over earlier ones, and nothing else. */
  ghost predicate IsLoaded(env: Env, bindings: map<string, Binding>, index: map<string, string>, rows: seq<Row>,
                           now: nat)
  {
    HoldsRows(env, bindings, rows, now) && IndexesRows(env, index, rows)
  }

  /** A new process. The table is the saved copy; memory has what the constructor loaded, some of its rows:
      none when the service is built before the table is filled, all when it is built after. */
  ghost predicate Restarts(env: Env, s: State, t: State, early: seq<Row>, now: nat) {
    && (forall i :: 0 <= i < |early| ==> exists k :: k in s.saved && s.saved[k] == early[i])
    && t.mode == s.mode && t.table == s.saved && t.saved == s.saved
    && IsLoaded(env, t.bindings, t.nullifierToSigner, early[..Loadable(env, early)], now)
  }

  // ---------------------------------------------------------------- the invariants

  ghost predicate InPlace(env: Env, table: map<string, Row>) {
    forall k :: k in table ==> k == ToLower(table[k].signer) && IsChecksummed(env, table[k].signer)
  }

  /** No two rows hold one nullifier. */
  ghost predicate Injective(table: map<string, Row>) {
    forall j, k :: j in table && k in table && table[j].nullifier == table[k].nullifier ==> j == k
  }

  ghost predicate MemoryMatches(env: Env, bindings: map<string, Binding>, table: map<string, Row>) {
    forall signer :: signer in bindings ==>
      && IsChecksummed(env, signer)
      && ToLower(signer) in table
      && table[ToLower(signer)].signer == signer
      && table[ToLower(signer)].nullifier == bindings[signer].nullifier
  }

  /** The index contradicts no row. It may say more than the rows do. */
  ghost predicate IndexAgrees(index: map<string, string>, table: map<string, Row>) {
    forall k :: k in table && table[k].nullifier in index ==> index[table[k].nullifier] == table[k].signer
  }

  /** Every row is saved; the saved copy may still have rows that were deleted. */
  ghost predicate IsSaved(table: map<string, Row>, saved: map<string, Row>) {
    forall k :: k in table ==> k in saved && saved[k] == table[k]
  }

  ghost predicate Sound(env: Env, s: State) {
    && InPlace(env, s.table) && InPlace(env, s.saved) && IsSaved(s.table, s.saved)
    && MemoryMatches(env, s.bindings, s.table)
  }

  /** Sound, and no nullifier is held twice, in memory or in the table. */
  ghost predicate Live(env: Env, s: State) {
    && Sound(env, s)
    && Injective(s.table)
    && IndexAgrees(s.nullifierToSigner, s.table)
  }

  /** Not even by a deleted row that a restart would bring back. */
  ghost predicate Consistent(env: Env, s: State) { Live(env, s) && Injective(s.saved) }

  // ---------------------------------------------------------------- the service

  class WorldSelfieService {
    const env: Env
    const mode: Mode
    var humanBindings: map<string, Binding>
    var nullifierToSigner: map<string, string>
    var table: map<string, Row>
    var saved: map<string, Row>

    ghost function View(): State
      reads this
    {
      State(mode, humanBindings, nullifierToSigner, table, saved)
    }

    /** A service over a table that lists these rows so far. */
    constructor (env: Env, mode: Mode, table: map<string, Row>, rows: seq<Row>, now: nat)
      ensures this.env == env && this.mode == mode && this.table == table && saved == table
      ensures IsLoaded(env, humanBindings, nullifierToSigner, rows[..Loadable(env, rows)], now)
    {
      this.env, this.mode := env, mode;
      humanBindings, nullifierToSigner := map[], map[];
      this.table, saved := table, table;
      new;
      LoadFromDatabase(rows, now);
    }

    /** The exception that a malformed signer raises is caught around the whole loop. */
    method LoadFromDatabase(rows: seq<Row>, now: nat)
      requires humanBindings == map[] && nullifierToSigner == map[]
      modifies this`humanBindings, this`nullifierToSigner
      ensures IsLoaded(env, humanBindings, nullifierToSigner, rows[..Loadable(env, rows)], now)
    {
      hide IsLoaded, Loadable;
      NothingIsLoaded(env, now);
      assert rows[..0] == [];
      var i := 0;
      while i < |rows|
        invariant 0 <= i <= Loadable(env, rows)
        invariant IsLoaded(env, humanBindings, nullifierToSigner, rows[..i], now)
      {
        var row := rows[i];
        var parsed := env.getAddress(row.signer);
        if parsed.None? {
          return;
        }
        LoadOneMore(env, rows, i, humanBindings, nullifierToSigner, now);
        humanBindings := humanBindings[parsed.value := FromRow(row, now)];
        nullifierToSigner := nullifierToSigner[row.nullifier := parsed.value];
        i := i + 1;
      }
    }

    /** The table is filled once the database is read, which the shipped start-up does after construction. */
    method DatabaseLoaded(stored: map<string, Row>)
      modifies this`table, this`saved
      ensures table == stored && saved == stored
    {
      table, saved := stored, stored;
    }

    /** `SELECT * FROM human_bindings WHERE nullifier_hash`. */
    method FindHolder(nullifier: string) returns (found: Option<Row>)
      ensures IsAnswer(table, nullifier, found)
    {
      var todo := table.Keys;
      while todo != {}
        invariant todo <= table.Keys
        invariant forall k :: k in table && table[k].nullifier == nullifier ==> k in todo
        decreases |todo|
      {
        var k :| k in todo;
        if table[k].nullifier == nullifier {
          return Some(table[k]);
        }
        todo := todo - {k};
      }
      found := None;
    }

    method BindHumanSigner(address: string, nullifier: string, credential: Credential, isVerified: bool, now: nat)
      returns (reply: Result<Binding, Error>, ghost found: Option<Row>)
      modifies this
      ensures IsAnswer(old(table), nullifier, found)
      ensures (View(), reply) == Bind(env, old(View()), address, nullifier, credential, isVerified, found, now)
    {
      found := AnyAnswer(table, nullifier);
      var parsed := env.getAddress(address);
      if parsed.None? {
        return Err(Malformed), found;
      }
      var signer := parsed.value;
      if !isVerified {
        return Err(BadRequest), found;
      }
      var existing: Option<string> := None;
      if nullifier in nullifierToSigner {
        existing := Some(nullifierToSigner[nullifier]);
      } else {
        var row := FindHolder(nullifier);
        found := row;
        if row.Some? {
          existing := env.getAddress(row.value.signer);
        }
      }
      if existing.Some? && existing.value != signer {
        return Err(BadRequest), found;
      }
      var expiresAt := now + INACTIVITY_WINDOW_MS;
      var binding := Binding(nullifier, credential, now, now, expiresAt, true);
      humanBindings := humanBindings[signer := binding];
      nullifierToSigner := nullifierToSigner[nullifier := signer];
      table := table[ToLower(signer) := Row(signer, nullifier, now, expiresAt)];
      saved := if mode.File? then table else saved[ToLower(signer) := table[ToLower(signer)]];
      reply := Ok(binding);
    }

    method CheckHumanSigner(address: string, now: nat) returns (reply: Result<bool, Error>)
      modifies this
      ensures (View(), reply) == IsHumanSignerVerified(env, old(View()), address, now)
    {
      var parsed := env.getAddress(address);
      if parsed.None? {
        return Err(Malformed);
      }
      var signer := parsed.value;
      if signer !in humanBindings && ToLower(signer) in table {
        var row := table[ToLower(signer)];
        humanBindings := humanBindings[signer := FromRow(row, now)];
        nullifierToSigner := nullifierToSigner[row.nullifier := signer];
      }
      if signer !in humanBindings || !humanBindings[signer].active {
        return Ok(false);
      }
      if now > humanBindings[signer].expiresAt {
        humanBindings := humanBindings[signer := humanBindings[signer].(active := false)];
        return Ok(false);
      }
      reply := Ok(true);
    }

    method FetchHumanBinding(address: string, now: nat) returns (reply: Result<Option<Binding>, Error>)
      modifies this`humanBindings
      ensures (View(), reply) == GetHumanBinding(env, old(View()), address, now)
    {
      var parsed := env.getAddress(address);
      if parsed.None? {
        return Err(Malformed);
      }
      var signer := parsed.value;
      if signer !in humanBindings {
        if ToLower(signer) in table {
          humanBindings := humanBindings[signer := FromRow(table[ToLower(signer)], now)];
        }
      }
      reply := Ok(if signer in humanBindings then Some(humanBindings[signer]) else None);
    }

    method Touch(address: string, now: nat)
      modifies this
      ensures View() == TouchActivity(env, old(View()), address, now)
    {
      var parsed := env.getAddress(address);
      if parsed.None? || parsed.value !in humanBindings || !humanBindings[parsed.value].active {
        return;
      }
      var signer := parsed.value;
      var expiresAt := now + INACTIVITY_WINDOW_MS;
      var binding := humanBindings[signer].(lastActiveAt := now);
      binding := binding.(expiresAt := expiresAt);
      humanBindings := humanBindings[signer := binding];
      if ToLower(signer) in table {
        table := table[ToLower(signer) := table[ToLower(signer)].(expiresAt := expiresAt)];
        saved := if mode.File? then table else Extended(saved, ToLower(signer), expiresAt);
      }
    }

    method RevokeHumanBinding(address: string)
      modifies this
      ensures View() == Revoke(env, old(View()), address)
    {
      var parsed := env.getAddress(address);
      if parsed.None? {
        return;
      }
      var signer := parsed.value;
      if signer in humanBindings {
        var nullifier := humanBindings[signer].nullifier;
        humanBindings := humanBindings - {signer};
        nullifierToSigner := nullifierToSigner - {nullifier};
      }
      table := table - {ToLower(signer)};
    }
  }

  // ---------------------------------------------------------------- loading row by row

  lemma NothingIsLoaded(env: Env, now: nat)
    ensures IsLoaded(env, map[], map[], [], now)
  {
  }

  lemma HoldOneMore(env: Env, rows: seq<Row>, row: Row, bindings: map<string, Binding>, now: nat)
    requires env.getAddress(row.signer).Some? && HoldsRows(env, bindings, rows, now)
    ensures HoldsRows(env, bindings[env.getAddress(row.signer).value := FromRow(row, now)], rows + [row], now)
  {
    var more := rows + [row];
    var after := bindings[env.getAddress(row.signer).value := FromRow(row, now)];
    assert more[|rows|] == row;
    forall signer | signer in after
      ensures exists i :: IsLastOfSigner(env, more, i, signer) && after[signer] == FromRow(more[i], now)
    {
      if signer == env.getAddress(row.signer).value {
        assert IsLastOfSigner(env, more, |rows|, signer);
      } else {
        var i :| IsLastOfSigner(env, rows, i, signer) && bindings[signer] == FromRow(rows[i], now);
        assert IsLastOfSigner(env, more, i, signer);
      }
    }
  }

  lemma IndexOneMore(env: Env, rows: seq<Row>, row: Row, index: map<string, string>)
    requires env.getAddress(row.signer).Some? && IndexesRows(env, index, rows)
    ensures IndexesRows(env, index[row.nullifier := env.getAddress(row.signer).value], rows + [row])
  {
    var more := rows + [row];
    var after := index[row.nullifier := env.getAddress(row.signer).value];
    assert more[|rows|] == row;
    forall nullifier | nullifier in after
      ensures exists i :: IsLastOfNullifier(more, i, nullifier)
                          && env.getAddress(more[i].signer) == Some(after[nullifier])
    {
      if nullifier == row.nullifier {
        assert IsLastOfNullifier(more, |rows|, nullifier);
      } else {
        var i :| IsLastOfNullifier(rows, i, nullifier) && env.getAddress(rows[i].signer) == Some(index[nullifier]);
        assert IsLastOfNullifier(more, i, nullifier);
      }
    }
  }

  /** One more row loaded. */
  lemma LoadOneMore(env: Env, rows: seq<Row>, i: nat, bindings: map<string, Binding>, index: map<string, string>,
                    now: nat)
    requires i < |rows| && env.getAddress(rows[i].signer).Some?
    requires IsLoaded(env, bindings, index, rows[..i], now)
    ensures var signer := env.getAddress(rows[i].signer).value;
            IsLoaded(env, bindings[signer := FromRow(rows[i], now)], index[rows[i].nullifier := signer],
                     rows[..i + 1], now)
  {
    hide HoldsRows, IndexesRows;
    HoldOneMore(env, rows[..i], rows[i], bindings, now);
    IndexOneMore(env, rows[..i], rows[i], index);
    assert rows[..i + 1] == rows[..i] + [rows[i]];
  }

  // ---------------------------------------------------------------- steps and runs

  datatype Event =
    | Bound(address: string, nullifier: string, credential: Credential, isVerified: bool, found: Option<Row>, now: nat)
    | Checked(address: string, now: nat)
    | Fetched(address: string, now: nat)
    | Touched(address: string, now: nat)
    | Revoked(address: string)
      // a write to any other table
    | SavedFile
    | Restarted(early: seq<Row>, now: nat)

  ghost predicate Step(env: Env, s: State, e: Event, t: State) {
    match e
    case Bound(address, nullifier, credential, isVerified, found, now) =>
      && IsAnswer(s.table, nullifier, found)
      && t == Bind(env, s, address, nullifier, credential, isVerified, found, now).0
    case Checked(address, now) => t == IsHumanSignerVerified(env, s, address, now).0
    case Fetched(address, now) => t == GetHumanBinding(env, s, address, now).0
    case Touched(address, now) => t == TouchActivity(env, s, address, now)
    case Revoked(address) => t == Revoke(env, s, address)
    case SavedFile => t == Save(s)
    case Restarted(early, now) => Restarts(env, s, t, early, now)
  }

  ghost predicate StepAt(env: Env, trace: seq<State>, events: seq<Event>, i: nat)
    requires |trace| == |events| + 1 && i < |events|
  {
    Step(env, trace[i], events[i], trace[i + 1])
  }

  ghost predicate IsRun(env: Env, trace: seq<State>, events: seq<Event>) {
    |trace| == |events| + 1 && forall i :: 0 <= i < |events| ==> StepAt(env, trace, events, i)
  }

  /** An accepted bind of a signer. */
  predicate Binds(env: Env, s: State, e: Event, signer: string) {
    && e.Bound? && env.getAddress(e.address).Some? && ToLower(env.getAddress(e.address).value) == ToLower(signer)
    && Bind(env, s, e.address, e.nullifier, e.credential, e.isVerified, e.found, e.now).1.Ok?
  }

  /** An accepted bind under a nullifier that the database still has for another signer, deleted from the
      table. */
  ghost predicate TakesOver(env: Env, s: State, e: Event) {
    && s.mode.Postgres? && e.Bound?
    && Bind(env, s, e.address, e.nullifier, e.credential, e.isVerified, e.found, e.now).1.Ok?
    && exists k :: k in s.saved && s.saved[k].nullifier == e.nullifier
                   && k != ToLower(env.getAddress(e.address).value)
  }

  // ---------------------------------------------------------------- what every step keeps

  lemma BindKeepsSound(env: Env, s: State, address: string, nullifier: string, credential: Credential,
                       isVerified: bool, found: Option<Row>, now: nat)
    requires IsChecksumming(env) && Sound(env, s)
    ensures Sound(env, Bind(env, s, address, nullifier, credential, isVerified, found, now).0)
  {
    hide Owner, InPlace, IsSaved, MemoryMatches;
    var (t, reply) := Bind(env, s, address, nullifier, credential, isVerified, found, now);
    if reply.Ok? {
      var signer := env.getAddress(address).value;
      var row := Row(signer, nullifier, now, now + INACTIVITY_WINDOW_MS);
      PutKeepsInPlace(env, s.table, row);
      PutKeepsInPlace(env, s.saved, row);
      PutKeepsSaved(s.table, s.saved, ToLower(signer), row);
      RowForBinding(env, s.bindings, s.table, row, reply.value);
    }
  }

  lemma PutKeepsInPlace(env: Env, table: map<string, Row>, row: Row)
    requires InPlace(env, table) && IsChecksummed(env, row.signer)
    ensures InPlace(env, table[ToLower(row.signer) := row])
  {
  }

  lemma PutKeepsSaved(table: map<string, Row>, saved: map<string, Row>, k: string, row: Row)
    requires IsSaved(table, saved)
    ensures IsSaved(table[k := row], saved[k := row]) && IsSaved(table[k := row], table[k := row])
  {
  }

  lemma RowForBinding(env: Env, bindings: map<string, Binding>, table: map<string, Row>, row: Row, binding: Binding)
    requires IsChecksumming(env) && MemoryMatches(env, bindings, table) && IsChecksummed(env, row.signer)
    requires binding.nullifier == row.nullifier
    ensures MemoryMatches(env, bindings[row.signer := binding], table[ToLower(row.signer) := row])
  {
  }

  /** An accepted bind finds no other signer's row under its nullifier. */
  lemma AcceptedIsUnheld(env: Env, s: State, address: string, nullifier: string, credential: Credential,
                         found: Option<Row>, now: nat)
    requires Live(env, s) && IsAnswer(s.table, nullifier, found)
    requires Bind(env, s, address, nullifier, credential, true, found, now).1.Ok?
    ensures var signer := env.getAddress(address).value;
            forall k :: k in s.table && s.table[k].nullifier == nullifier ==> s.table[k].signer == signer
  {
    forall k | k in s.table && s.table[k].nullifier == nullifier
      ensures s.table[k].signer == env.getAddress(address).value
    {
      assert IsHeld(s.table, nullifier);
      var j :| j in s.table && s.table[j] == found.value;
    }
  }

  lemma InsertIsInjectiveIff(table: map<string, Row>, k: string, row: Row)
    requires Injective(table)
    ensures Injective(table[k := row])
            <==> !exists j :: j in table && table[j].nullifier == row.nullifier && j != k
  {
    var after := table[k := row];
    assert k in after && after[k] == row;
    if j :| j in table && table[j].nullifier == row.nullifier && j != k {
      assert j in after && after[j].nullifier == after[k].nullifier;
    }
  }

  lemma InsertKeepsIndex(index: map<string, string>, table: map<string, Row>, k: string, row: Row)
    requires IndexAgrees(index, table)
    requires forall j :: j in table && table[j].nullifier == row.nullifier ==> table[j].signer == row.signer
    ensures IndexAgrees(index[row.nullifier := row.signer], table[k := row])
  {
  }

  lemma RowsOfSignerAre(env: Env, table: map<string, Row>, signer: string)
    requires InPlace(env, table)
    ensures forall k :: k in table && table[k].signer == signer ==> k == ToLower(signer)
  {
  }

  /** A bind keeps nullifiers apart in memory and in the table; in the saved copy, unless it takes one over. */
  lemma BindKeepsLive(env: Env, s: State, e: Event)
    requires IsChecksumming(env) && Live(env, s)
    requires e.Bound? && IsAnswer(s.table, e.nullifier, e.found)
    ensures var t := Bind(env, s, e.address, e.nullifier, e.credential, e.isVerified, e.found, e.now).0;
            Live(env, t) && (Injective(s.saved) ==> (Injective(t.saved) <==> !TakesOver(env, s, e)))
  {
    hide InPlace, Injective, MemoryMatches, IsSaved, IndexAgrees, IsAnswer, Owner;
    BindKeepsSound(env, s, e.address, e.nullifier, e.credential, e.isVerified, e.found, e.now);
    if Bind(env, s, e.address, e.nullifier, e.credential, e.isVerified, e.found, e.now).1.Ok? {
      var signer := env.getAddress(e.address).value;
      var row := Row(signer, e.nullifier, e.now, e.now + INACTIVITY_WINDOW_MS);
      AcceptedIsUnheld(env, s, e.address, e.nullifier, e.credential, e.found, e.now);
      InsertKeepsIndex(s.nullifierToSigner, s.table, ToLower(signer), row);
      InsertIsInjectiveIff(s.table, ToLower(signer), row);
      RowsOfSignerAre(env, s.table, signer);
      if Injective(s.saved) {
        InsertIsInjectiveIff(s.saved, ToLower(signer), row);
      }
    }
  }

  lemma RowLoadMatches(env: Env, bindings: map<string, Binding>, table: map<string, Row>, signer: string, now: nat)
    requires IsChecksumming(env) && InPlace(env, table) && MemoryMatches(env, bindings, table)
    requires IsChecksummed(env, signer) && ToLower(signer) in table
    ensures MemoryMatches(env, bindings[signer := FromRow(table[ToLower(signer)], now)], table)
    ensures table[ToLower(signer)].signer == signer
  {
  }

  lemma LoadKeepsSound(env: Env, s: State, signer: string, now: nat)
    requires IsChecksumming(env) && Sound(env, s) && IsChecksummed(env, signer)
    ensures Sound(env, LoadBinding(s, signer, now)) && Sound(env, LoadBoth(s, signer, now))
    ensures Live(env, s) ==> Live(env, LoadBinding(s, signer, now)) && Live(env, LoadBoth(s, signer, now))
    ensures LoadBinding(s, signer, now).saved == s.saved && LoadBoth(s, signer, now).saved == s.saved
  {
    hide IsSaved, MemoryMatches, InPlace, Injective, IndexAgrees;
    var key := ToLower(signer);
    if key in s.table {
      RowLoadMatches(env, s.bindings, s.table, signer, now);
      if Live(env, s) {
        RowIndexAgrees(s.nullifierToSigner, s.table, key);
      }
    }
  }

  lemma RowIndexAgrees(index: map<string, string>, table: map<string, Row>, k: string)
    requires Injective(table) && IndexAgrees(index, table) && k in table
    ensures IndexAgrees(index[table[k].nullifier := table[k].signer], table)
  {
  }

  lemma RemovingKeepsMatches(env: Env, bindings: map<string, Binding>, table: map<string, Row>, signer: string)
    requires IsChecksumming(env) && MemoryMatches(env, bindings, table) && IsChecksummed(env, signer)
    ensures MemoryMatches(env, bindings - {signer}, table - {ToLower(signer)})
  {
    forall other | other in bindings && other != signer ensures ToLower(other) != ToLower(signer) {
    }
  }

  lemma RemovingKeepsTable(env: Env, index: map<string, string>, table: map<string, Row>, saved: map<string, Row>,
                           nullifiers: set<string>, k: string)
    requires InPlace(env, table) && IsSaved(table, saved)
    ensures InPlace(env, table - {k}) && IsSaved(table - {k}, saved)
    ensures IndexAgrees(index, table) ==> IndexAgrees(index - nullifiers, table - {k})
    ensures IndexAgrees(index, table) ==> IndexAgrees(index, table - {k})
    ensures Injective(table) ==> Injective(table - {k})
  {
  }

  lemma RevokeKeepsSound(env: Env, s: State, address: string)
    requires IsChecksumming(env) && Sound(env, s)
    ensures Sound(env, Revoke(env, s, address))
    ensures Live(env, s) ==> Live(env, Revoke(env, s, address))
    ensures Revoke(env, s, address).saved == s.saved
  {
    hide IsSaved, MemoryMatches, InPlace, Injective, IndexAgrees;
    var parsed := env.getAddress(address);
    if parsed.Some? {
      var signer := parsed.value;
      RemovingKeepsMatches(env, s.bindings, s.table, signer);
      var nullifiers := if signer in s.bindings then {s.bindings[signer].nullifier} else {};
      RemovingKeepsTable(env, s.nullifierToSigner, s.table, s.saved, nullifiers, ToLower(signer));
      assert signer !in s.bindings ==> s.bindings - {signer} == s.bindings;
    }
  }

  /** Only expiries change. */
  lemma ExtendKeeps(env: Env, table: map<string, Row>, k: string, expiresAt: nat)
    ensures InPlace(env, table) ==> InPlace(env, Extended(table, k, expiresAt))
    ensures Injective(table) ==> Injective(Extended(table, k, expiresAt))
    ensures forall index :: IndexAgrees(index, table) ==> IndexAgrees(index, Extended(table, k, expiresAt))
    ensures forall bindings :: MemoryMatches(env, bindings, table)
                               ==> MemoryMatches(env, bindings, Extended(table, k, expiresAt))
  {
    var after := Extended(table, k, expiresAt);
    assert after.Keys == table.Keys;
    assert forall j :: j in table ==>
      j in after && after[j].signer == table[j].signer && after[j].nullifier == table[j].nullifier;
  }

  lemma ExtendKeepsSaved(table: map<string, Row>, saved: map<string, Row>, k: string, expiresAt: nat)
    requires IsSaved(table, saved)
    ensures k in table ==> IsSaved(Extended(table, k, expiresAt), Extended(saved, k, expiresAt))
    ensures IsSaved(Extended(table, k, expiresAt), Extended(table, k, expiresAt))
  {
  }

  lemma RenewedMatches(env: Env, bindings: map<string, Binding>, table: map<string, Row>, signer: string,
                       binding: Binding)
    requires MemoryMatches(env, bindings, table) && signer in bindings
    requires binding.nullifier == bindings[signer].nullifier
    ensures MemoryMatches(env, bindings[signer := binding], table)
  {
  }

  lemma TouchKeepsSound(env: Env, s: State, address: string, now: nat)
    requires IsChecksumming(env) && Sound(env, s)
    ensures Sound(env, TouchActivity(env, s, address, now))
    ensures Live(env, s) ==> Live(env, TouchActivity(env, s, address, now))
    ensures Consistent(env, s) ==> Consistent(env, TouchActivity(env, s, address, now))
  {
    hide InPlace, Injective, MemoryMatches, IsSaved, IndexAgrees, Extended;
    var parsed := env.getAddress(address);
    if parsed.Some? && parsed.value in s.bindings && s.bindings[parsed.value].active {
      var signer, expiresAt := parsed.value, now + INACTIVITY_WINDOW_MS;
      var bindings := TouchActivity(env, s, address, now).bindings;
      RenewedMatches(env, s.bindings, s.table, signer, bindings[signer]);
      ExtendKeeps(env, s.table, ToLower(signer), expiresAt);
      ExtendKeeps(env, s.saved, ToLower(signer), expiresAt);
      var table := Extended(s.table, ToLower(signer), expiresAt);
      ExtendKeepsSaved(s.table, s.saved, ToLower(signer), expiresAt);
    }
  }

  lemma SaveKeepsSound(env: Env, s: State)
    requires Sound(env, s)
    ensures Sound(env, Save(s))
    ensures Live(env, s) ==> Live(env, Save(s))
    ensures Consistent(env, s) ==> Consistent(env, Save(s))
  {
  }

  predicate HasRow(table: map<string, Row>, signer: string) {
    ToLower(signer) in table && table[ToLower(signer)].signer == signer
  }

  /** Rows of an orderly table load as what the table says. */
  lemma LoadedMatches(env: Env, bindings: map<string, Binding>, index: map<string, string>, rows: seq<Row>, now: nat,
                      saved: map<string, Row>)
    requires InPlace(env, saved) && IsLoaded(env, bindings, index, rows, now)
    requires forall i :: 0 <= i < |rows| ==> exists k :: k in saved && saved[k] == rows[i]
    ensures MemoryMatches(env, bindings, saved)
    ensures Injective(saved) ==> IndexAgrees(index, saved)
  {
    forall signer | signer in bindings
      ensures IsChecksummed(env, signer) && HasRow(saved, signer)
      ensures saved[ToLower(signer)].nullifier == bindings[signer].nullifier
    {
      var i :| IsLastOfSigner(env, rows, i, signer) && bindings[signer] == FromRow(rows[i], now);
      var k :| k in saved && saved[k] == rows[i];
    }
    if Injective(saved) {
      forall k | k in saved && saved[k].nullifier in index ensures index[saved[k].nullifier] == saved[k].signer {
        var n := saved[k].nullifier;
        var i :| IsLastOfNullifier(rows, i, n) && env.getAddress(rows[i].signer) == Some(index[n]);
        var j :| j in saved && saved[j] == rows[i];
        assert j == k;
      }
    }
  }

  lemma RestartKeepsSound(env: Env, s: State, t: State, early: seq<Row>, now: nat)
    requires Sound(env, s) && Restarts(env, s, t, early, now)
    ensures Sound(env, t)
    ensures Live(env, t) <==> Injective(s.saved)
  {
    hide IsLoaded, InPlace, MemoryMatches, Injective, IndexAgrees;
    var rows := early[..Loadable(env, early)];
    forall i | 0 <= i < |rows| ensures exists k :: k in s.saved && s.saved[k] == rows[i] {
      assert rows[i] == early[i];
    }
    LoadedMatches(env, t.bindings, t.nullifierToSigner, rows, now, s.saved);
  }

  lemma LapseKeepsSound(env: Env, s: State, signer: string)
    requires Sound(env, s) && signer in s.bindings
    ensures var t := s.(bindings := s.bindings[signer := s.bindings[signer].(active := false)]);
            Sound(env, t) && (Live(env, s) ==> Live(env, t)) && t.saved == s.saved
  {
  }

  lemma CheckKeepsSound(env: Env, s: State, address: string, now: nat)
    requires IsChecksumming(env) && Sound(env, s)
    ensures Sound(env, IsHumanSignerVerified(env, s, address, now).0)
    ensures Sound(env, GetHumanBinding(env, s, address, now).0)
    ensures Live(env, s) ==> Live(env, IsHumanSignerVerified(env, s, address, now).0)
    ensures Live(env, s) ==> Live(env, GetHumanBinding(env, s, address, now).0)
    ensures IsHumanSignerVerified(env, s, address, now).0.saved == s.saved
    ensures GetHumanBinding(env, s, address, now).0.saved == s.saved
  {
    hide LoadBinding, LoadBoth, Sound, Live;
    if env.getAddress(address).Some? {
      var signer := env.getAddress(address).value;
      LoadKeepsSound(env, s, signer, now);
      if signer in LoadBoth(s, signer, now).bindings {
        LapseKeepsSound(env, LoadBoth(s, signer, now), signer);
      }
    }
  }

  lemma StepKeepsSound(env: Env, s: State, e: Event, t: State)
    requires IsChecksumming(env) && Sound(env, s) && Step(env, s, e, t)
    ensures Sound(env, t)
  {
    hide Sound, Consistent, Bind, IsHumanSignerVerified, GetHumanBinding, TouchActivity, Revoke, Restarts, Save;
    match e
    case Bound(address, nullifier, credential, isVerified, found, now) =>
      BindKeepsSound(env, s, address, nullifier, credential, isVerified, found, now);
    case Checked(address, now) => CheckKeepsSound(env, s, address, now);
    case Fetched(address, now) => CheckKeepsSound(env, s, address, now);
    case Touched(address, now) => TouchKeepsSound(env, s, address, now);
    case Revoked(address) => RevokeKeepsSound(env, s, address);
    case SavedFile => SaveKeepsSound(env, s);
    case Restarted(early, now) => RestartKeepsSound(env, s, t, early, now);
  }

  /** In memory and in the table nullifiers stay apart whatever happens, but for a restart that finds two of them
      the same in the saved copy. */
  lemma StepKeepsLiveIff(env: Env, s: State, e: Event, t: State)
    requires IsChecksumming(env) && Live(env, s) && Step(env, s, e, t)
    ensures Live(env, t) <==> (e.Restarted? ==> Injective(s.saved))
  {
    hide Bind, IsHumanSignerVerified, GetHumanBinding, TouchActivity, Revoke, Restarts, Save, InPlace, Injective,
         MemoryMatches, IsSaved, IndexAgrees;
    match e
    case Bound(_, _, _, _, _, _) => BindKeepsLive(env, s, e);
    case Checked(address, now) => CheckKeepsSound(env, s, address, now);
    case Fetched(address, now) => CheckKeepsSound(env, s, address, now);
    case Touched(address, now) => TouchKeepsSound(env, s, address, now);
    case Revoked(address) => RevokeKeepsSound(env, s, address);
    case SavedFile => SaveKeepsSound(env, s);
    case Restarted(early, now) => RestartKeepsSound(env, s, t, early, now);
  }

  /** In the saved copy too, exactly until a bind takes one over. */
  lemma StepKeepsConsistentIff(env: Env, s: State, e: Event, t: State)
    requires IsChecksumming(env) && Consistent(env, s) && Step(env, s, e, t)
    ensures Consistent(env, t) <==> !TakesOver(env, s, e)
  {
    hide Bind, IsHumanSignerVerified, GetHumanBinding, TouchActivity, Revoke, Save, InPlace, Injective, MemoryMatches,
         IsSaved, IndexAgrees, IsLoaded;
    StepKeepsLiveIff(env, s, e, t);
    match e
    case Bound(_, _, _, _, _, _) => BindKeepsLive(env, s, e);
    case Checked(address, now) => CheckKeepsSound(env, s, address, now);
    case Fetched(address, now) => CheckKeepsSound(env, s, address, now);
    case Touched(address, now) => TouchKeepsSound(env, s, address, now);
    case Revoked(address) => RevokeKeepsSound(env, s, address);
    case SavedFile => SaveKeepsSound(env, s);
    case Restarted(_, _) =>
  }

  lemma StepKeepsMode(env: Env, s: State, e: Event, t: State)
    requires Step(env, s, e, t)
    ensures t.mode == s.mode
  {
  }

  lemma EmptyIsConsistent(env: Env, mode: Mode)
    ensures Sound(env, Empty(mode)) && Consistent(env, Empty(mode))
  {
  }

  lemma {:induction false} EveryRunIsSound(env: Env, trace: seq<State>, events: seq<Event>, mode: Mode, i: nat)
    requires IsChecksumming(env) && IsRun(env, trace, events) && trace[0] == Empty(mode) && i <= |events|
    ensures Sound(env, trace[i]) && trace[i].mode == mode
  {
    hide Step, Sound;
    if i == 0 {
      EmptyIsConsistent(env, mode);
    } else {
      EveryRunIsSound(env, trace, events, mode, i - 1);
      assert StepAt(env, trace, events, i - 1);
      StepKeepsSound(env, trace[i - 1], events[i - 1], trace[i]);
      StepKeepsMode(env, trace[i - 1], events[i - 1], trace[i]);
    }
  }

  /** No bind before step `i` takes a nullifier over. */
  ghost predicate TakesNothingOver(env: Env, trace: seq<State>, events: seq<Event>, i: nat)
    requires i <= |events| < |trace|
  {
    forall m :: 0 <= m < i ==> !TakesOver(env, trace[m], events[m])
  }

  lemma {:induction false} EveryRunIsConsistent(env: Env, trace: seq<State>, events: seq<Event>, mode: Mode, i: nat)
    requires IsChecksumming(env) && IsRun(env, trace, events) && trace[0] == Empty(mode) && i <= |events|
    requires TakesNothingOver(env, trace, events, i)
    ensures Consistent(env, trace[i])
  {
    hide Step, Consistent, TakesOver;
    if i == 0 {
      EmptyIsConsistent(env, mode);
    } else {
      EveryRunIsConsistent(env, trace, events, mode, i - 1);
      assert StepAt(env, trace, events, i - 1);
      StepKeepsConsistentIff(env, trace[i - 1], events[i - 1], trace[i]);
    }
  }

  /** Over every run: nullifiers have been apart in memory and in the table at all moments so far exactly if no
      restart found two of them the same in its saved copy. */
  lemma {:induction false} NullifiersStayApartIff(env: Env, trace: seq<State>, events: seq<Event>, mode: Mode, i: nat)
    requires IsChecksumming(env) && IsRun(env, trace, events) && trace[0] == Empty(mode) && i <= |events|
    ensures (forall k :: 0 <= k <= i ==> Live(env, trace[k]))
            <==> forall r :: 0 <= r < i && events[r].Restarted? ==> Injective(trace[r].saved)
  {
    hide Step, Live, Injective;
    if i == 0 {
      EmptyIsLive(env, mode);
    } else {
      NullifiersStayApartIff(env, trace, events, mode, i - 1);
      assert StepAt(env, trace, events, i - 1);
      if Live(env, trace[i - 1]) {
        StepKeepsLiveIff(env, trace[i - 1], events[i - 1], trace[i]);
      }
    }
  }

  lemma EmptyIsLive(env: Env, mode: Mode)
    ensures Live(env, Empty(mode))
  {
  }

  // ---------------------------------------------------------------- one human, one signer

  /** Every bind that takes a nullifier over comes after the last restart. */
  ghost predicate TakesOverOnlySince(env: Env, trace: seq<State>, events: seq<Event>, i: nat)
    requires i <= |events| < |trace|
  {
    forall r :: 0 <= r < i && events[r].Restarted? ==> TakesNothingOver(env, trace, events, r)
  }

  /** Over every run, in either mode, no two signers share a nullifier in memory or in the table, and the index names
      the signer of every row whose nullifier it knows, as long as no restart follows a bind that took one over; so
      always between two restarts of which the first found nullifiers apart, revocations included. */
  lemma NullifiersAreNotShared(env: Env, trace: seq<State>, events: seq<Event>, mode: Mode, i: nat,
                               a: string, b: string)
    requires IsChecksumming(env) && IsRun(env, trace, events) && trace[0] == Empty(mode) && i <= |events| && a != b
    requires TakesOverOnlySince(env, trace, events, i)
    ensures var s := trace[i];
            && (a in s.bindings && b in s.bindings ==> s.bindings[a].nullifier != s.bindings[b].nullifier)
            && (a in s.table && b in s.table ==> s.table[a].nullifier != s.table[b].nullifier)
            && (a in s.table && s.table[a].nullifier in s.nullifierToSigner ==>
                  s.nullifierToSigner[s.table[a].nullifier] == s.table[a].signer)
  {
    hide Step, Live, TakesNothingOver;
    forall r | 0 <= r < i && events[r].Restarted? ensures Injective(trace[r].saved) {
      EveryRunIsConsistent(env, trace, events, mode, r);
    }
    NullifiersStayApartIff(env, trace, events, mode, i);
    assert Live(env, trace[i]);
    LiveIsApart(env, trace[i], a, b);
  }

  lemma LiveIsApart(env: Env, s: State, a: string, b: string)
    requires IsChecksumming(env) && Live(env, s) && a != b
    ensures a in s.bindings && b in s.bindings ==> s.bindings[a].nullifier != s.bindings[b].nullifier
    ensures a in s.table && b in s.table ==> s.table[a].nullifier != s.table[b].nullifier
    ensures a in s.table && s.table[a].nullifier in s.nullifierToSigner ==>
              s.nullifierToSigner[s.table[a].nullifier] == s.table[a].signer
  {
    if a in s.bindings && b in s.bindings {
      assert ToLower(a) in s.table && ToLower(b) in s.table;
      assert ToLower(a) != ToLower(b);
    }
  }

  /** While the process runs, nothing more is needed. */
  lemma OneProcessSharesNothing(env: Env, trace: seq<State>, events: seq<Event>, mode: Mode, i: nat)
    requires IsChecksumming(env) && IsRun(env, trace, events) && trace[0] == Empty(mode) && i <= |events|
    requires forall r :: 0 <= r < i ==> !events[r].Restarted?
    ensures TakesOverOnlySince(env, trace, events, i) && Live(env, trace[i])
  {
    hide Step, Live, TakesNothingOver;
    NullifiersStayApartIff(env, trace, events, mode, i);
  }

  /** The saved copy stays apart too where nothing was taken over. */
  lemma SavedNullifiersAreNotShared(env: Env, trace: seq<State>, events: seq<Event>, mode: Mode, i: nat,
                                    a: string, b: string)
    requires IsChecksumming(env) && IsRun(env, trace, events) && trace[0] == Empty(mode) && i <= |events| && a != b
    requires TakesNothingOver(env, trace, events, i)
    ensures var s := trace[i];
            a in s.saved && b in s.saved ==> s.saved[a].nullifier != s.saved[b].nullifier
  {
    hide Step, Live, TakesNothingOver;
    EveryRunIsConsistent(env, trace, events, mode, i);
  }

  /** With the persistence file nothing ever is. */
  lemma FileRunsTakeNothingOver(env: Env, trace: seq<State>, events: seq<Event>)
    requires IsChecksumming(env) && IsRun(env, trace, events) && trace[0] == Empty(File)
    ensures TakesNothingOver(env, trace, events, |events|)
    ensures TakesOverOnlySince(env, trace, events, |events|)
  {
    hide Step;
    forall i | 0 <= i < |events| ensures trace[i].mode == File {
      EveryRunIsSound(env, trace, events, File, i);
    }
  }

  /** The nullifier of a signer's last accepted bind before state `i`. */
  ghost function LastBound(env: Env, trace: seq<State>, events: seq<Event>, i: nat, signer: string): Option<string>
    requires |trace| == |events| + 1 && i <= |events|
  {
    if i == 0 then None
    else if Binds(env, trace[i - 1], events[i - 1], signer) then Some(events[i - 1].nullifier)
    else LastBound(env, trace, events, i - 1, signer)
  }

  function SavedNullifier(s: State, signer: string): Option<string> {
    if ToLower(signer) in s.saved then Some(s.saved[ToLower(signer)].nullifier) else None
  }

  lemma StepSavesBinds(env: Env, s: State, e: Event, t: State, signer: string)
    requires Step(env, s, e, t) && s.mode.Postgres?
    ensures SavedNullifier(t, signer)
            == if Binds(env, s, e, signer) then Some(e.nullifier) else SavedNullifier(s, signer)
  {
    hide Owner, IsAnswer, IsLoaded;
  }

  /** The database has every signer under his last accepted bind, revoked or not. */
  lemma {:induction false} DatabaseHasLastBound(env: Env, trace: seq<State>, events: seq<Event>, i: nat, signer: string)
    requires IsChecksumming(env) && IsRun(env, trace, events) && trace[0] == Empty(Postgres) && i <= |events|
    ensures SavedNullifier(trace[i], signer) == LastBound(env, trace, events, i, signer)
  {
    hide Step, Binds;
    if i == 0 {
    } else {
      DatabaseHasLastBound(env, trace, events, i - 1, signer);
      EveryRunIsSound(env, trace, events, Postgres, i - 1);
      assert StepAt(env, trace, events, i - 1);
      StepSavesBinds(env, trace[i - 1], events[i - 1], trace[i], signer);
    }
  }

  /** After a restart over the database two signers hold one nullifier exactly when their last accepted binds
      did: the table has no constraint against it, and a revocation never reaches the database. */
  lemma SharedAfterRestartIff(env: Env, trace: seq<State>, events: seq<Event>, i: nat, a: string, b: string)
    requires IsChecksumming(env) && IsRun(env, trace, events) && trace[0] == Empty(Postgres)
    requires i < |events| && events[i].Restarted?
    ensures var s := trace[i + 1];
            (&& ToLower(a) in s.table && ToLower(b) in s.table
             && s.table[ToLower(a)].nullifier == s.table[ToLower(b)].nullifier)
            <==> (&& LastBound(env, trace, events, i, a).Some?
                  && LastBound(env, trace, events, i, a) == LastBound(env, trace, events, i, b))
  {
    DatabaseHasLastBound(env, trace, events, i, a);
    DatabaseHasLastBound(env, trace, events, i, b);
    assert StepAt(env, trace, events, i);
  }

  lemma TakeoverSteps(env: Env, a: string, b: string, nullifier: string)
    returns (bound: State, gone: State, again: State, after: State)
    requires IsChecksumming(env) && IsChecksummed(env, a) && IsChecksummed(env, b) && a != b
    ensures Step(env, Empty(Postgres), Bound(a, nullifier, SelfieCheck, true, None, 0), bound)
    ensures Step(env, bound, Revoked(a), gone)
    ensures Step(env, gone, Bound(b, nullifier, SelfieCheck, true, None, 0), again)
    ensures Step(env, again, Restarted([], 0), after)
    ensures after.bindings == map[]
    ensures after.table == map[ToLower(a) := Row(a, nullifier, 0, INACTIVITY_WINDOW_MS),
                               ToLower(b) := Row(b, nullifier, 0, INACTIVITY_WINDOW_MS)]
  {
    bound := Bind(env, Empty(Postgres), a, nullifier, SelfieCheck, true, None, 0).0;
    gone := Revoke(env, bound, a);
    assert gone.table == map[] && gone.nullifierToSigner == map[];
    again := Bind(env, gone, b, nullifier, SelfieCheck, true, None, 0).0;
    after := State(Postgres, map[], map[], again.saved, again.saved);
    NothingIsLoaded(env, 0);
  }

  /** Two signers verified for one human: bind, revoke, bind another, restart. */
  lemma TakeoverWitness(env: Env, a: string, b: string, nullifier: string)
    returns (trace: seq<State>, events: seq<Event>)
    requires IsChecksumming(env) && IsChecksummed(env, a) && IsChecksummed(env, b) && a != b
    ensures IsRun(env, trace, events) && trace[0] == Empty(Postgres) && |events| == 4
    ensures IsHumanSignerVerified(env, trace[4], a, 0).1 == Ok(true)
    ensures IsHumanSignerVerified(env, trace[4], b, 0).1 == Ok(true)
    ensures ToLower(a) in trace[4].table && trace[4].table[ToLower(a)].nullifier == nullifier
    ensures ToLower(b) in trace[4].table && trace[4].table[ToLower(b)].nullifier == nullifier
  {
    assert ToLower(a) != ToLower(b);
    hide Step, IsHumanSignerVerified, ToLower, IsChecksumming;
    var bound, gone, again, after := TakeoverSteps(env, a, b, nullifier);
    trace := [Empty(Postgres), bound, gone, again, after];
    events := [Bound(a, nullifier, SelfieCheck, true, None, 0), Revoked(a),
               Bound(b, nullifier, SelfieCheck, true, None, 0), Restarted([], 0)];
    assert StepAt(env, trace, events, 0) && StepAt(env, trace, events, 1);
    assert StepAt(env, trace, events, 2) && StepAt(env, trace, events, 3);
    ReturnedIsVerifiedIff(env, after, a, 0);
    ReturnedIsVerifiedIff(env, after, b, 0);
  }

  /** A verified human is turned away exactly when another signer's row holds the nullifier, or the index
      still remembers it for another signer. */
  lemma BindIsRefusedIff(env: Env, s: State, address: string, nullifier: string, credential: Credential,
                         found: Option<Row>, now: nat)
    requires IsChecksumming(env) && Live(env, s) && env.getAddress(address).Some?
    requires IsAnswer(s.table, nullifier, found)
    ensures var signer := env.getAddress(address).value;
            Bind(env, s, address, nullifier, credential, true, found, now).1.Err?
            <==> || (exists k :: k in s.table && s.table[k].nullifier == nullifier && s.table[k].signer != signer)
                 || (nullifier in s.nullifierToSigner && s.nullifierToSigner[nullifier] != signer)
  {
    if found.Some? {
      assert env.getAddress(found.value.signer) == Some(found.value.signer);
    }
    if Bind(env, s, address, nullifier, credential, true, found, now).1.Ok? {
      AcceptedIsUnheld(env, s, address, nullifier, credential, found, now);
    }
  }

  // ---------------------------------------------------------------- entries that outlive their binding

  /** Every index entry is some cached binding's. */
  ghost predicate HasNoStaleEntry(s: State) {
    forall n :: n in s.nullifierToSigner ==>
      s.nullifierToSigner[n] in s.bindings && s.bindings[s.nullifierToSigner[n]].nullifier == n
  }

  /** An accepted bind leaves a stale entry exactly when the signer was bound before under another nullifier
      that the index gives him. */
  lemma RebindLeavesStaleEntryIff(env: Env, s: State, address: string, nullifier: string, credential: Credential,
                                  found: Option<Row>, now: nat)
    requires HasNoStaleEntry(s)
    requires Bind(env, s, address, nullifier, credential, true, found, now).1.Ok?
    ensures var signer := env.getAddress(address).value;
            HasNoStaleEntry(Bind(env, s, address, nullifier, credential, true, found, now).0)
            <==> !(exists was :: was != nullifier && was in s.nullifierToSigner && s.nullifierToSigner[was] == signer)
  {
    var signer := env.getAddress(address).value;
    var t := Bind(env, s, address, nullifier, credential, true, found, now).0;
    if was :| was != nullifier && was in s.nullifierToSigner && s.nullifierToSigner[was] == signer {
      assert was in t.nullifierToSigner && t.nullifierToSigner[was] == signer;
    }
  }

  lemma LoadLeavesNoStaleEntry(s: State, signer: string, now: nat)
    requires HasNoStaleEntry(s)
    ensures HasNoStaleEntry(LoadBinding(s, signer, now))
    ensures HasNoStaleEntry(LoadBoth(s, signer, now))
  {
  }

  lemma CheckLeavesNoStaleEntry(env: Env, s: State, address: string, now: nat)
    requires HasNoStaleEntry(s)
    ensures HasNoStaleEntry(IsHumanSignerVerified(env, s, address, now).0)
    ensures HasNoStaleEntry(GetHumanBinding(env, s, address, now).0)
  {
    hide LoadBinding, LoadBoth;
    if env.getAddress(address).Some? {
      LoadLeavesNoStaleEntry(s, env.getAddress(address).value, now);
    }
  }

  lemma TouchLeavesNoStaleEntry(env: Env, s: State, address: string, now: nat)
    requires HasNoStaleEntry(s)
    ensures HasNoStaleEntry(TouchActivity(env, s, address, now))
  {
  }

  lemma RevokeLeavesNoStaleEntry(env: Env, s: State, address: string)
    requires HasNoStaleEntry(s)
    ensures HasNoStaleEntry(Revoke(env, s, address))
  {
  }

  /** Rows of one signer in an orderly table are one row. */
  lemma SignerHasOneRow(env: Env, saved: map<string, Row>, k: string, l: string, signer: string)
    requires InPlace(env, saved) && k in saved && l in saved
    requires env.getAddress(saved[k].signer) == Some(signer) == env.getAddress(saved[l].signer)
    ensures saved[k] == saved[l]
  {
  }

  lemma LoadedIndexIsBacked(env: Env, bindings: map<string, Binding>, index: map<string, string>, rows: seq<Row>,
                            now: nat, saved: map<string, Row>, n: string)
    requires InPlace(env, saved) && IsLoaded(env, bindings, index, rows, now)
    requires forall i :: 0 <= i < |rows| ==> exists k :: k in saved && saved[k] == rows[i]
    requires n in index
    ensures index[n] in bindings && bindings[index[n]].nullifier == n
  {
    hide InPlace, HoldsRows, IndexesRows;
    var i := IndexedRow(env, index, rows, n);
    var j := HeldRow(env, bindings, rows, rows[i], index[n], now);
    var k :| k in saved && saved[k] == rows[i];
    var l :| l in saved && saved[l] == rows[j];
    SignerHasOneRow(env, saved, k, l, index[n]);
  }

  lemma IndexedRow(env: Env, index: map<string, string>, rows: seq<Row>, n: string) returns (i: nat)
    requires IndexesRows(env, index, rows) && n in index
    ensures i < |rows| && rows[i].nullifier == n && env.getAddress(rows[i].signer) == Some(index[n])
  {
    i :| IsLastOfNullifier(rows, i, n) && env.getAddress(rows[i].signer) == Some(index[n]);
  }

  lemma HeldRow(env: Env, bindings: map<string, Binding>, rows: seq<Row>, row: Row, signer: string, now: nat)
    returns (j: nat)
    requires HoldsRows(env, bindings, rows, now) && row in rows && env.getAddress(row.signer) == Some(signer)
    ensures j < |rows| && env.getAddress(rows[j].signer) == Some(signer)
    ensures signer in bindings && bindings[signer] == FromRow(rows[j], now)
  {
    j :| IsLastOfSigner(env, rows, j, signer) && bindings[signer] == FromRow(rows[j], now);
  }

  lemma RestartLeavesNoStaleEntry(env: Env, s: State, t: State, early: seq<Row>, now: nat)
    requires Sound(env, s) && Restarts(env, s, t, early, now)
    ensures HasNoStaleEntry(t)
  {
    hide IsSaved, MemoryMatches, InPlace, IsLoaded;
    var rows := early[..Loadable(env, early)];
    forall i | 0 <= i < |rows| ensures exists k :: k in s.saved && s.saved[k] == rows[i] {
      assert rows[i] == early[i];
    }
    forall n | n in t.nullifierToSigner
      ensures t.nullifierToSigner[n] in t.bindings && t.bindings[t.nullifierToSigner[n]].nullifier == n
    {
      LoadedIndexIsBacked(env, t.bindings, t.nullifierToSigner, rows, now, s.saved, n);
    }
  }

  /** No other step creates one. */
  lemma OtherStepsLeaveNoStaleEntry(env: Env, s: State, e: Event, t: State)
    requires Sound(env, s) && HasNoStaleEntry(s) && Step(env, s, e, t) && !e.Bound?
    ensures HasNoStaleEntry(t)
  {
    hide Sound, HasNoStaleEntry, IsHumanSignerVerified, GetHumanBinding, TouchActivity, Revoke, Restarts;
    match e
    case Checked(address, now) => CheckLeavesNoStaleEntry(env, s, address, now);
    case Fetched(address, now) => CheckLeavesNoStaleEntry(env, s, address, now);
    case Touched(address, now) => TouchLeavesNoStaleEntry(env, s, address, now);
    case Revoked(address) => RevokeLeavesNoStaleEntry(env, s, address);
    case Restarted(early, now) => RestartLeavesNoStaleEntry(env, s, t, early, now);
    case SavedFile => SaveLeavesNoStaleEntry(s);
  }

  lemma SaveLeavesNoStaleEntry(s: State)
    requires HasNoStaleEntry(s)
    ensures HasNoStaleEntry(Save(s))
  {
  }

  /** A stale entry blocks its nullifier for everyone else even after its signer is gone, until a restart. */
  lemma StaleEntryBlocks(env: Env, mode: Mode, signer: string, other: string, first: string, second: string, now: nat)
    requires IsChecksumming(env) && signer != other && first != second
    requires IsChecksummed(env, signer) && IsChecksummed(env, other)
    ensures var once := Bind(env, Empty(mode), signer, first, SelfieCheck, true, None, now).0;
            var bound := Bind(env, once, signer, second, SelfieCheck, true, None, now).0;
            var gone := Revoke(env, bound, signer);
            && gone.table == map[] && gone.bindings == map[]
            && Bind(env, gone, other, first, SelfieCheck, true, None, now).1.Err?
            && Bind(env, gone, other, second, SelfieCheck, true, None, now).1.Ok?
  {
    var once := Bind(env, Empty(mode), signer, first, SelfieCheck, true, None, now).0;
    var bound := Bind(env, once, signer, second, SelfieCheck, true, None, now).0;
    var gone := Revoke(env, bound, signer);
    assert gone.table == map[] && gone.bindings == map[];
    assert gone.nullifierToSigner == map[first := signer];
  }

  // ---------------------------------------------------------------- revocation

  predicate IsAbsent(s: State, signer: string) { signer !in s.bindings && ToLower(signer) !in s.table }

  lemma RevokeMakesAbsent(env: Env, s: State, address: string)
    requires env.getAddress(address).Some?
    ensures IsAbsent(Revoke(env, s, address), env.getAddress(address).value)
    ensures Revoke(env, s, address).saved == s.saved
  {
  }

  /** A step that rewrites the whole saved copy when that is the file. */
  predicate Writes(env: Env, s: State, e: Event) {
    match e
    case Bound(address, nullifier, credential, isVerified, found, now) =>
      Bind(env, s, address, nullifier, credential, isVerified, found, now).1.Ok?
    case Touched(address, _) =>
      var parsed := env.getAddress(address);
      parsed.Some? && parsed.value in s.bindings && s.bindings[parsed.value].active && ToLower(parsed.value) in s.table
    case SavedFile => true
    case _ => false
  }

  /** Between a revocation and a restart, without a bind of his own, nobody comes back. What the saved copy
      says of him goes with the next write of the file, and never from the database. */
  lemma AbsentStaysAbsent(env: Env, s: State, e: Event, t: State, signer: string)
    requires Step(env, s, e, t) && IsAbsent(s, signer) && !e.Restarted? && !Binds(env, s, e, signer)
    ensures IsAbsent(t, signer)
    ensures if s.mode.File? && Writes(env, s, e) then ToLower(signer) !in t.saved
            else (ToLower(signer) in t.saved <==> ToLower(signer) in s.saved)
                 && (ToLower(signer) in s.saved ==> t.saved[ToLower(signer)] == s.saved[ToLower(signer)])
  {
    hide Owner, IsAnswer;
  }

  /** A run that revokes a signer at step `r` and up to state `i` neither restarts nor binds him. */
  ghost predicate IsRevokedSince(env: Env, trace: seq<State>, events: seq<Event>, r: nat, i: nat, address: string) {
    && IsRun(env, trace, events) && env.getAddress(address).Some?
    && r < i <= |events| && events[r] == Revoked(address)
    && forall j :: r < j < i ==>
         !events[j].Restarted? && !Binds(env, trace[j], events[j], env.getAddress(address).value)
  }

  /** Steps `r + 1` to `i - 1` write the saved copy. */
  ghost predicate IsWritten(env: Env, trace: seq<State>, events: seq<Event>, r: nat, i: nat)
    requires |trace| == |events| + 1 && i <= |events|
  {
    exists j :: r < j < i && Writes(env, trace[j], events[j])
  }

  lemma {:induction false} RevokedStaysAbsent(env: Env, trace: seq<State>, events: seq<Event>, r: nat, i: nat,
                                              address: string)
    requires IsRevokedSince(env, trace, events, r, i, address)
    ensures var signer := env.getAddress(address).value;
            && IsAbsent(trace[i], signer) && trace[i].mode == trace[r].mode
            && if trace[r].mode.File? && IsWritten(env, trace, events, r, i) then ToLower(signer) !in trace[i].saved
               else (ToLower(signer) in trace[i].saved <==> ToLower(signer) in trace[r].saved)
                    && (ToLower(signer) in trace[r].saved ==>
                          trace[i].saved[ToLower(signer)] == trace[r].saved[ToLower(signer)])
  {
    assert StepAt(env, trace, events, i - 1);
    assert i == r + 1 ==> trace[i] == Revoke(env, trace[r], address);
    hide Step, Binds, Writes, IsAbsent;
    var signer := env.getAddress(address).value;
    StepKeepsMode(env, trace[i - 1], events[i - 1], trace[i]);
    if i == r + 1 {
      RevokeMakesAbsent(env, trace[r], address);
    } else {
      RevokedStaysAbsent(env, trace, events, r, i - 1, address);
      AbsentStaysAbsent(env, trace[i - 1], events[i - 1], trace[i], signer);
      assert IsWritten(env, trace, events, r, i)
        <==> IsWritten(env, trace, events, r, i - 1) || Writes(env, trace[i - 1], events[i - 1]);
    }
  }

  /** Whoever is revoked stays unverified until a bind of his own or a restart. */
  lemma RevokedStaysUnverified(env: Env, trace: seq<State>, events: seq<Event>, r: nat, i: nat, address: string,
                               now: nat)
    requires IsRevokedSince(env, trace, events, r, i, address)
    ensures IsHumanSignerVerified(env, trace[i], address, now).1 == Ok(false)
  {
    RevokedStaysAbsent(env, trace, events, r, i, address);
  }

  /** A restart brings a revoked signer back, as he was, exactly when his row is still saved: always with the
      database, and with the file when nothing has written it since. */
  lemma RevokedReturnsAtRestartIff(env: Env, trace: seq<State>, events: seq<Event>, r: nat, i: nat, address: string)
    requires IsRevokedSince(env, trace, events, r, i, address) && i < |events| && events[i].Restarted?
    requires Sound(env, trace[r]) && ToLower(env.getAddress(address).value) in trace[r].table
    ensures var key := ToLower(env.getAddress(address).value);
            && (key in trace[i + 1].table <==> trace[r].mode.Postgres? || !IsWritten(env, trace, events, r, i))
            && (key in trace[i + 1].table ==> trace[i + 1].table[key] == trace[r].table[key])
  {
    hide Binds, Writes;
    RevokedStaysAbsent(env, trace, events, r, i, address);
    assert StepAt(env, trace, events, i);
  }

  /** Once back, a signer that the start-up did not load is verified until his old expiry. */
  lemma ReturnedIsVerifiedIff(env: Env, s: State, address: string, now: nat)
    requires env.getAddress(address).Some? && env.getAddress(address).value !in s.bindings
    ensures var key := ToLower(env.getAddress(address).value);
            IsHumanSignerVerified(env, s, address, now).1 == Ok(true)
            <==> key in s.table && s.table[key].expiresAt > now
  {
  }
}
