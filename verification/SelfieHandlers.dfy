/** What each operation on the Selfie Check bindings does, case by case, at literal values. */
module SelfieHandlers {
  import opened Common
  import opened SelfieBindings

  /** Ninety days without activity end a binding. */
  const NINETY_DAYS_MS: nat := 7_776_000_000

  /** A binding as a row gives it. */
  lemma BindingOfRowIs(row: Row, now: nat)
    ensures var b := FromRow(row, now);
            && b.nullifier == row.nullifier && b.credential == SelfieCheck
            && b.boundAt == row.boundAt && b.lastActiveAt == row.boundAt && b.expiresAt == row.expiresAt
            && (b.active <==> now < row.expiresAt)
  {
  }

  // ---------------------------------------------------------------- loading

  /** Of the rows loaded, the last of each signer is his binding. */
  lemma LastOfSignerIsLoaded(env: Env, bindings: map<string, Binding>, index: map<string, string>, rows: seq<Row>,
                             now: nat, i: nat, signer: string)
    requires IsLoaded(env, bindings, index, rows, now) && i < |rows| && env.getAddress(rows[i].signer) == Some(signer)
    requires forall j :: i < j < |rows| ==> env.getAddress(rows[j].signer) != Some(signer)
    ensures signer in bindings && bindings[signer] == FromRow(rows[i], now)
  {
    var j := RowOfBinding(env, bindings, index, rows, now, i);
    hide IsLoaded, FromRow;
    assert i == j;
  }

  lemma RowOfBinding(env: Env, bindings: map<string, Binding>, index: map<string, string>, rows: seq<Row>, now: nat,
                     i: nat) returns (j: int)
    requires IsLoaded(env, bindings, index, rows, now) && i < |rows|
    ensures env.getAddress(rows[i].signer).Some?
    ensures var signer := env.getAddress(rows[i].signer).value;
            && signer in bindings && IsLastOfSigner(env, rows, j, signer)
            && bindings[signer] == FromRow(rows[j], now)
  {
    hide FromRow, IndexesRows;
    var signer := env.getAddress(rows[i].signer).value;
    assert signer in bindings;
    hide HoldsRows;
    j := RowOfSigner(env, bindings, rows, now, signer);
  }

  lemma RowOfSigner(env: Env, bindings: map<string, Binding>, rows: seq<Row>, now: nat, signer: string)
    returns (j: int)
    requires HoldsRows(env, bindings, rows, now) && signer in bindings
    ensures IsLastOfSigner(env, rows, j, signer) && bindings[signer] == FromRow(rows[j], now)
  {
    j :| IsLastOfSigner(env, rows, j, signer) && bindings[signer] == FromRow(rows[j], now);
  }

  lemma RowOfNullifier(env: Env, index: map<string, string>, rows: seq<Row>, nullifier: string) returns (j: int)
    requires IndexesRows(env, index, rows) && nullifier in index
    ensures IsLastOfNullifier(rows, j, nullifier) && env.getAddress(rows[j].signer) == Some(index[nullifier])
  {
    j :| IsLastOfNullifier(rows, j, nullifier) && env.getAddress(rows[j].signer) == Some(index[nullifier]);
  }

  /** The last with each nullifier says whose it is. */
  lemma LastOfNullifierIsLoaded(env: Env, bindings: map<string, Binding>, index: map<string, string>, rows: seq<Row>,
                                now: nat, i: nat)
    requires IsLoaded(env, bindings, index, rows, now) && i < |rows|
    requires forall j :: i < j < |rows| ==> rows[j].nullifier != rows[i].nullifier
    ensures rows[i].nullifier in index && env.getAddress(rows[i].signer) == Some(index[rows[i].nullifier])
  {
    assert IndexesRows(env, index, rows);
    hide IsLoaded, HoldsRows;
    var nullifier := rows[i].nullifier;
    assert nullifier in index;
    hide IndexesRows;
    var j := RowOfNullifier(env, index, rows, nullifier);
    assert i == j;
  }

  /** And memory has nothing that no row says. */
  lemma LoadedSignerHasARow(env: Env, bindings: map<string, Binding>, index: map<string, string>, rows: seq<Row>,
                            now: nat, signer: string)
    requires IsLoaded(env, bindings, index, rows, now) && signer in bindings
    ensures exists i :: 0 <= i < |rows| && env.getAddress(rows[i].signer) == Some(signer)
  {
    hide HoldsRows;
    var i := RowOfSigner(env, bindings, rows, now, signer);
    hide IsLoaded;
  }

  lemma LoadedNullifierHasARow(env: Env, bindings: map<string, Binding>, index: map<string, string>, rows: seq<Row>,
                               now: nat, nullifier: string)
    requires IsLoaded(env, bindings, index, rows, now) && nullifier in index
    ensures exists i :: 0 <= i < |rows| && rows[i].nullifier == nullifier
  {
    hide IndexesRows;
    var i := RowOfNullifier(env, index, rows, nullifier);
    hide IsLoaded;
  }

  // ---------------------------------------------------------------- the operations

  /** A bind is refused for a malformed address, an unverified proof, or a nullifier that the index, or if it has none
      the row found, gives to another signer; else everything takes it, the saved copy included. */
  lemma BindDecides(env: Env, s: State, address: string, nullifier: string, credential: Credential, isVerified: bool,
                    found: Option<Row>, now: nat)
    ensures var (t, reply) := Bind(env, s, address, nullifier, credential, isVerified, found, now);
            var signer := env.getAddress(address);
            var isTaken := signer.Some?
                           && if nullifier in s.nullifierToSigner then s.nullifierToSigner[nullifier] != signer.value
                              else && found.Some? && env.getAddress(found.value.signer).Some?
                                   && env.getAddress(found.value.signer) != signer;
            && (reply == Err(Malformed) <==> signer.None?)
            && (reply == Err(BadRequest) <==> signer.Some? && (!isVerified || isTaken))
            && (reply.Err? ==> t == s)
            && (reply.Ok? <==> signer.Some? && isVerified && !isTaken)
            && (reply.Ok? ==>
                  && reply.value == Binding(nullifier, credential, now, now, now + NINETY_DAYS_MS, true)
                  && t.mode == s.mode
                  && t.bindings == s.bindings[signer.value := reply.value]
                  && t.nullifierToSigner == s.nullifierToSigner[nullifier := signer.value]
                  && t.table == s.table[ToLower(signer.value) := Row(signer.value, nullifier, now,
                                                                     now + NINETY_DAYS_MS)]
                  && t.saved == if s.mode.File? then t.table
                                else s.saved[ToLower(signer.value) := Row(signer.value, nullifier, now,
                                                                          now + NINETY_DAYS_MS)])
  {
  }

  /** A signer is verified exactly by an active binding whose time is not over; one that memory lacks is first taken in
      from the table, index and all, and one whose time is over is marked inactive. */
  lemma CheckDecides(env: Env, s: State, address: string, now: nat)
    ensures var (t, reply) := IsHumanSignerVerified(env, s, address, now);
            var parsed := env.getAddress(address);
            && (parsed.None? ==> t == s && reply == Err(Malformed))
            && (parsed.Some? ==>
                  var signer, key := parsed.value, ToLower(parsed.value);
                  && reply.Ok?
                  && (signer in s.bindings ==>
                        && (reply.value <==> s.bindings[signer].active && now <= s.bindings[signer].expiresAt)
                        && t == (if s.bindings[signer].active && s.bindings[signer].expiresAt < now
                                 then s.(bindings := s.bindings[signer := s.bindings[signer].(active := false)])
                                 else s))
                  && (signer !in s.bindings && key !in s.table ==> !reply.value && t == s)
                  && (signer !in s.bindings && key in s.table ==>
                        && var row := s.table[key];
                        && (reply.value <==> now < row.expiresAt)
                        && t == s.(bindings := s.bindings[signer := Binding(row.nullifier, SelfieCheck, row.boundAt,
                                                                            row.boundAt, row.expiresAt,
                                                                            now < row.expiresAt)],
                                   nullifierToSigner := s.nullifierToSigner[row.nullifier := signer])))
  {
  }

  /** Fetching takes a binding in from the table as well, but not into the index, and lets nothing expire. */
  lemma FetchDecides(env: Env, s: State, address: string, now: nat)
    ensures var (t, reply) := GetHumanBinding(env, s, address, now);
            var parsed := env.getAddress(address);
            && (parsed.None? ==> t == s && reply == Err(Malformed))
            && (parsed.Some? ==>
                  var signer, key := parsed.value, ToLower(parsed.value);
                  && t == s.(bindings := t.bindings)
                  && (signer in s.bindings ==> t == s && reply == Ok(Some(s.bindings[signer])))
                  && (signer !in s.bindings && key !in s.table ==> t == s && reply == Ok(None))
                  && (signer !in s.bindings && key in s.table ==>
                        && var row := s.table[key];
                           var b := Binding(row.nullifier, SelfieCheck, row.boundAt, row.boundAt, row.expiresAt,
                                            now < row.expiresAt);
                        && reply == Ok(Some(b)) && t.bindings == s.bindings[signer := b]))
  {
  }

  /** Activity extends an active binding in memory, and the expiry of its row in the table and in the saved copy. */
  lemma TouchDecides(env: Env, s: State, address: string, now: nat)
    ensures var t, parsed := TouchActivity(env, s, address, now), env.getAddress(address);
            var isActive := parsed.Some? && parsed.value in s.bindings && s.bindings[parsed.value].active;
            && (!isActive ==> t == s)
            && (isActive ==>
                  var signer, key := parsed.value, ToLower(parsed.value);
                  && t == s.(bindings := t.bindings, table := t.table, saved := t.saved)
                  && t.bindings
                     == s.bindings[signer := s.bindings[signer].(lastActiveAt := now,
                                                                 expiresAt := now + NINETY_DAYS_MS)]
                  && (key !in s.table ==> t.table == s.table && t.saved == s.saved)
                  && (key in s.table ==>
                        && t.table == s.table[key := s.table[key].(expiresAt := now + NINETY_DAYS_MS)]
                        && (s.mode.File? ==> t.saved == t.table)
                        && (s.mode.Postgres? ==>
                              t.saved == if key in s.saved
                                         then s.saved[key := s.saved[key].(expiresAt := now + NINETY_DAYS_MS)]
                                         else s.saved)))
  {
  }

  /** A revocation forgets the binding, the index entry of its nullifier, and the row, but not what is saved. */
  lemma RevokeDecides(env: Env, s: State, address: string)
    ensures var t, parsed := Revoke(env, s, address), env.getAddress(address);
            && (parsed.None? ==> t == s)
            && (parsed.Some? ==>
                  && t.mode == s.mode && t.saved == s.saved
                  && t.table == s.table - {ToLower(parsed.value)}
                  && (parsed.value !in s.bindings ==>
                        t.bindings == s.bindings && t.nullifierToSigner == s.nullifierToSigner)
                  && (parsed.value in s.bindings ==>
                        && t.bindings == s.bindings - {parsed.value}
                        && t.nullifierToSigner == s.nullifierToSigner - {s.bindings[parsed.value].nullifier}))
  {
  }

  /** Any other write saves the table with the file, and nothing with the database. */
  lemma SavingIs(s: State)
    ensures Save(s) == s.(saved := if s.mode.File? then s.table else s.saved)
  {
  }
}
