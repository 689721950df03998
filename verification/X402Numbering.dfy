/** Nonces over runs of the shared action store: when they stay distinct and fresh, and when memory keeps all of
    the table. */
module X402Numbering {
  import opened Common
  import opened ActionStore
  import opened X402
  import opened X402Proofs

  // ---------------------------------------------------------------- what the steps do to the store

  ghost predicate Updates(s: Store, t: Store) {
    exists id, status, meta, now :: t == Update(s, id, status, meta, now)
  }

  ghost predicate Caches(s: Store, t: Store) { exists id :: t == Cache(s, id) }

  /** Steps other than a creation and a restart leave the store alone, look one action up, or update one. */
  lemma OrdinaryStep(w: World, s: State, e: Event)
    requires Mirrored(s.store) && !e.Authorized? && !e.OtherCreated? && !e.Restarted?
    ensures var t := Apply(w, s, e); t.store == s.store || Caches(s.store, t.store) || Updates(s.store, t.store)
  {
    hide SubmitEscalation, BeginSettle, FinishSettle, BeginApprove, BeginReject, MarkRow, FinishSubmit, Cache, Mirrored,
         Known, NamesTransfer, Update;
    match e
    case Submitted(agent, id, typedData, task, now) =>
      SubmissionIsVetted(w, s, agent, id, typedData, task, now);
      assert Caches(s.store, Cache(s.store, id));
    case SettleBegun(agent, id, txHash, task) =>
      BegunSettlement(w, s, agent, id, txHash, task);
      assert Caches(s.store, Cache(s.store, id));
    case SettleFinished(task, lookup, now) => SettlingUpdates(w, s, task, lookup, now);
    case DecisionFinished(task, now) =>
      if task in s.marked {
        assert Updates(s.store, Decide(s.store, s.marked[task], now));
      }
    case OtherUpdated(id, status, meta, now) => assert Updates(s.store, Update(s.store, id, status, meta, now));
    case _ => DecidingLeavesStore(w, s, e);
  }

  lemma DecidingLeavesStore(w: World, s: State, e: Event)
    requires e.SubmissionFinished? || e.ApprovalBegun? || e.RejectionBegun? || e.RowMarked?
    ensures Apply(w, s, e).store == s.store
  {
    hide SameAddress, Marked;
  }

  lemma SettlingUpdates(w: World, s: State, task: nat, lookup: Option<Receipt>, now: nat)
    ensures var t := FinishSettle(w, s, task, lookup, now).0; t.store == s.store || Updates(s.store, t.store)
  {
    hide Update, VerifyTransfer;
    if task in s.settling {
      var job := s.settling[task];
      assert Updates(s.store, Update(s.store, job.actionId, EXECUTED, Metadata(None, Some(job.txHash)), now));
    }
  }

  /** `authorize` creates one action, and then annotates and updates it. */
  lemma AuthorizingStores(w: World, s: State, agent: string, request: PaymentRequest, id: string, createdAt: nat,
                          evaluatedAt: nat)
    ensures var created := Create(s.store, Proposal(agent, request), id, createdAt);
            var t := Authorize(w, s, agent, request, id, createdAt, evaluatedAt).0;
            || t.store == created
            || exists score, human :: Updates(Annotate(created, id, score, human), t.store)
  {
    hide Authorize, Create, Annotate, Update, Evaluate, FullJustification;
    AuthorizeInTwoCases(w, s, agent, request, id, createdAt, evaluatedAt);
    var p := Authorize(w, s, agent, request, id, createdAt, evaluatedAt).1;
    if p.Ok? {
      var created := Create(s.store, Proposal(agent, request), id, createdAt);
      var judged := Annotate(created, id, p.value.riskScore, p.value.decision != ALLOW);
      assert Updates(judged, Update(judged, id, StatusOf(p.value.decision), NO_METADATA, evaluatedAt));
    }
  }

  // ---------------------------------------------------------------- the numbering

  /** Stored nonces are distinct, and the next one is above them all. */
  ghost predicate Numbered(s: Store) {
    RowsAreSound(s.table) && DistinctNonces(s.table) && IsNextNonce(s.table, s.currentNonce)
  }

  lemma CreateKeepsNumbered(s: Store, dto: ProposeAction, id: string, now: nat)
    requires Numbered(s) && id !in s.table
    ensures Numbered(Create(s, dto, id, now))
    ensures forall k :: k in s.table ==> s.table[k].nonce < Create(s, dto, id, now).table[id].nonce
  {
    var t := Create(s, dto, id, now);
    assert id in t.table && t.table[id].nonce + 1 == t.currentNonce;
  }

  lemma AnnotateKeepsNumbered(s: Store, id: string, riskScore: int, human: bool)
    requires Numbered(s)
    ensures Numbered(Annotate(s, id, riskScore, human))
    ensures Annotate(s, id, riskScore, human).table == s.table
  {
    hide RowsAreSound, DistinctNonces, IsNextNonce;
  }

  lemma UpdateKeepsNumbered(s: Store, id: string, status: Status, meta: Metadata, now: nat)
    requires Numbered(s) && Mirrored(s)
    ensures Numbered(Update(s, id, status, meta, now))
    ensures SameNonces(s, Update(s, id, status, meta, now))
  {
    hide DistinctNonces, IsNextNonce, RowsAreSound, RowsMatch;
    UpdateKeepsMirrored(s, id, status, meta, now);
    UpdateKeepsNonces(s, id, status, meta, now);
    NoncesDecide(s.table, Update(s, id, status, meta, now).table, s.currentNonce);
  }

  ghost predicate SameNonces(s: Store, t: Store) {
    && t.table.Keys == s.table.Keys && t.currentNonce == s.currentNonce
    && forall k :: k in s.table ==> t.table[k].nonce == s.table[k].nonce
  }

  lemma UpdateKeepsNonces(s: Store, id: string, status: Status, meta: Metadata, now: nat)
    requires Mirrored(s)
    ensures SameNonces(s, Update(s, id, status, meta, now))
  {
    hide WithStatus;
  }

  lemma NoncesDecide(m: map<string, TreasuryAction>, n: map<string, TreasuryAction>, next: nat)
    requires n.Keys == m.Keys && forall k :: k in m ==> n[k].nonce == m[k].nonce
    requires DistinctNonces(m) && IsNextNonce(m, next)
    ensures DistinctNonces(n) && IsNextNonce(n, next)
  {
    if next != 1 {
      var k :| k in m && m[k].nonce + 1 == next;
      assert k in n && n[k].nonce + 1 == next;
    }
  }

  /** A restart that finds the row with the largest nonce loaded, or an empty table. */
  ghost predicate FindsNewest(s: State, e: Event) {
    e.Restarted? ==>
      var table := s.store.table;
      table == map[]
      || exists k :: k in table && k in e.early && forall j :: j in table ==> table[j].nonce <= table[k].nonce
  }

  lemma RestartKeepsNumberedIff(s: State, early: set<string>)
    requires Numbered(s.store)
    ensures Numbered(Restart(s.store.table, early)) <==> FindsNewest(s, Restarted(early))
  {
    var table, t := s.store.table, Restart(s.store.table, early);
    NoncesStayFreshIff(table, early);
    if FindsNewest(s, Restarted(early)) {
      NewestIsNext(table, Restrict(table, early), t.currentNonce);
    }
  }

  lemma NewestIsNext(table: map<string, TreasuryAction>, part: map<string, TreasuryAction>, next: nat)
    requires part.Keys <= table.Keys && forall k :: k in part ==> part[k] == table[k]
    requires IsNextNonce(part, next) && forall k :: k in table ==> table[k].nonce < next
    ensures IsNextNonce(table, next)
  {
    if next != 1 {
      var k :| k in part && part[k].nonce + 1 == next;
      assert k in table && table[k].nonce + 1 == next;
    }
  }

  lemma AuthorizeKeepsNumbered(w: World, s: State, agent: string, request: PaymentRequest, id: string,
                               createdAt: nat, evaluatedAt: nat)
    requires Numbered(s.store) && Mirrored(s.store) && id !in s.store.table
    ensures var t := Authorize(w, s, agent, request, id, createdAt, evaluatedAt).0;
            Numbered(t.store) && IsFresh(s.store, t.store, id)
  {
    hide Authorize, Create, Annotate, Update, Numbered, Mirrored, FullJustification;
    var created := Create(s.store, Proposal(agent, request), id, createdAt);
    var t := Authorize(w, s, agent, request, id, createdAt, evaluatedAt).0;
    CreateKeepsMirrored(s.store, Proposal(agent, request), id, createdAt);
    CreateKeepsNumbered(s.store, Proposal(agent, request), id, createdAt);
    CreateStores(s.store, Proposal(agent, request), id, createdAt);
    AuthorizingStores(w, s, agent, request, id, createdAt, evaluatedAt);
    if t.store != created {
      var score, human :| Updates(Annotate(created, id, score, human), t.store);
      AnnotateKeepsMirrored(created, id, score, human);
      AnnotateKeepsNumbered(created, id, score, human);
      UpdatingKeepsNumbered(Annotate(created, id, score, human), t.store);
    }
  }

  lemma CreateStores(s: Store, dto: ProposeAction, id: string, now: nat)
    ensures Create(s, dto, id, now).table.Keys == s.table.Keys + {id}
    ensures forall k :: k in s.table && k != id ==> Create(s, dto, id, now).table[k] == s.table[k]
  {
  }

  lemma UpdatingKeepsNumbered(s: Store, t: Store)
    requires Numbered(s) && Mirrored(s) && Updates(s, t)
    ensures Numbered(t) && SameNonces(s, t)
  {
    hide Numbered, Mirrored, Update;
    var id, status, meta, now :| t == Update(s, id, status, meta, now);
    UpdateKeepsNumbered(s, id, status, meta, now);
  }

  /** The row `id` is new, and its nonce is above that of every row there was; those keep theirs. */
  ghost predicate IsFresh(s: Store, t: Store, id: string) {
    && id !in s.table && t.table.Keys == s.table.Keys + {id}
    && forall k :: k in s.table ==> t.table[k].nonce == s.table[k].nonce < t.table[id].nonce
  }

  /** The exact steps that keep the numbering: all but a restart that misses the newest row. */
  lemma StepKeepsNumberedIff(w: World, s: State, e: Event)
    requires Numbered(s.store) && Mirrored(s.store) && Admissible(w, s, e)
    ensures Numbered(Apply(w, s, e).store) <==> FindsNewest(s, e)
  {
    hide Numbered, Mirrored, Update, Create, Restart, Authorize, Cache;
    match e
    case Authorized(agent, request, id, createdAt, evaluatedAt) =>
      AuthorizeKeepsNumbered(w, s, agent, request, id, createdAt, evaluatedAt);
    case OtherCreated(dto, id, now) => CreateKeepsNumbered(s.store, dto, id, now);
    case Restarted(early) => RestartKeepsNumberedIff(s, early);
    case _ =>
      OrdinaryStep(w, s, e);
      hide Apply;
      var t := Apply(w, s, e).store;
      if Updates(s.store, t) {
        UpdatingKeepsNumbered(s.store, t);
      } else if Caches(s.store, t) {
        CachingKeepsNumbered(s.store, t);
      }
  }

  lemma CachingKeepsNumbered(s: Store, t: Store)
    requires Numbered(s) && Mirrored(s) && Caches(s, t)
    ensures Numbered(t)
  {
    hide Mirrored, RowsAreSound, DistinctNonces, IsNextNonce, Known;
    var id :| t == Cache(s, id);
    CacheKeepsKnown(s, id);
  }

  /** Over every run, in both rails' use of the store: nonces were distinct and the next one above all of them at
      every moment so far if and only if every restart so far found the newest row loaded. */
  lemma {:induction false} NumberingHoldsIff(w: World, trace: seq<State>, events: seq<Event>, i: nat)
    requires IsRun(w, trace, events) && i < |trace|
    ensures (forall k :: 0 <= k <= i ==> Numbered(trace[k].store))
       <==> forall k :: 0 <= k < i ==> FindsNewest(trace[k], events[k])
    decreases i
  {
    hide Sound, Apply, Admissible, Numbered, FindsNewest;
    if i == 0 {
      StartIsNumbered();
    } else {
      NumberingHoldsIff(w, trace, events, i - 1);
      EveryRunIsSound(w, trace, events, i - 1);
      StoreIsMirrored(w, trace[i - 1]);
      assert StepAt(w, trace, events, i - 1);
      if Numbered(trace[i - 1].store) {
        StepKeepsNumberedIff(w, trace[i - 1], events[i - 1]);
      }
    }
  }

  lemma StartIsNumbered()
    ensures Numbered(START.store)
  {
  }

  /** In such a run every new action, of either rail, gets a nonce above all stored ones, which keep theirs. */
  lemma NewNonceIsFresh(w: World, trace: seq<State>, events: seq<Event>, i: nat)
    requires IsRun(w, trace, events) && i < |events| && (events[i].Authorized? || events[i].OtherCreated?)
    requires forall k :: 0 <= k < i ==> FindsNewest(trace[k], events[k])
    ensures IsFresh(trace[i].store, trace[i + 1].store, events[i].id)
  {
    hide Sound, Numbered, FindsNewest, Mirrored, Authorize, Create;
    NumberingHoldsIff(w, trace, events, i);
    assert Numbered(trace[i].store);
    EveryRunIsSound(w, trace, events, i);
    StoreIsMirrored(w, trace[i]);
    assert StepAt(w, trace, events, i);
    var s, e := trace[i], events[i];
    if e.Authorized? {
      AuthorizeKeepsNumbered(w, s, e.agent, e.request, e.id, e.createdAt, e.evaluatedAt);
    } else {
      CreateKeepsNumbered(s.store, e.dto, e.id, e.now);
      CreateStores(s.store, e.dto, e.id, e.now);
    }
  }

  // ---------------------------------------------------------------- runs that reload everything

  /** A restart that finds the whole table loaded. */
  predicate Reloads(s: State, e: Event) { e.Restarted? ==> s.store.table.Keys <= e.early }

  lemma ReloadingRestoresEverything(table: map<string, TreasuryAction>, early: set<string>)
    requires table.Keys <= early
    ensures Restart(table, early) == Restart(table, table.Keys)
  {
    assert Restrict(table, early) == Restrict(table, table.Keys);
  }

  lemma AuthorizeKeepsCoherent(w: World, s: State, agent: string, request: PaymentRequest, id: string,
                               createdAt: nat, evaluatedAt: nat)
    requires Coherent(s.store) && id !in s.store.table
    ensures Coherent(Authorize(w, s, agent, request, id, createdAt, evaluatedAt).0.store)
  {
    hide Authorize, Create, Annotate, Update, Coherent, FullJustification, Mirrored;
    CoherentIsCached(s.store);
    var created := Create(s.store, Proposal(agent, request), id, createdAt);
    var t := Authorize(w, s, agent, request, id, createdAt, evaluatedAt).0;
    CreateKeepsCoherent(s.store, Proposal(agent, request), id, createdAt);
    AuthorizingStores(w, s, agent, request, id, createdAt, evaluatedAt);
    if t.store != created {
      var score, human :| Updates(Annotate(created, id, score, human), t.store);
      AnnotateKeepsCoherent(created, id, score, human);
      UpdatingKeepsCoherent(Annotate(created, id, score, human), t.store);
    }
  }

  lemma CoherentIsCached(s: Store)
    requires Coherent(s)
    ensures Mirrored(s) && s.actions.Keys == s.table.Keys
  {
    hide Mirrored, DistinctNonces, IsNextNonce;
  }

  lemma UpdatingKeepsCoherent(s: Store, t: Store)
    requires Coherent(s) && Updates(s, t)
    ensures Coherent(t)
  {
    hide Coherent, Update;
    var id, status, meta, now :| t == Update(s, id, status, meta, now);
    UpdateKeepsCoherent(s, id, status, meta, now);
  }

  lemma CachingIsIdle(s: Store, t: Store)
    requires Coherent(s) && Caches(s, t)
    ensures t == s
  {
    hide Coherent;
    var id :| t == Cache(s, id);
    CacheIsIdleWhenCoherent(s, id);
  }

  lemma StepKeepsCoherent(w: World, s: State, e: Event)
    requires Coherent(s.store) && Admissible(w, s, e) && Reloads(s, e)
    ensures Coherent(Apply(w, s, e).store)
  {
    hide Coherent, Mirrored, Update, Create, Restart, Authorize, Cache;
    CoherentIsCached(s.store);
    match e
    case Authorized(agent, request, id, createdAt, evaluatedAt) =>
      AuthorizeKeepsCoherent(w, s, agent, request, id, createdAt, evaluatedAt);
    case OtherCreated(dto, id, now) => CreateKeepsCoherent(s.store, dto, id, now);
    case Restarted(early) =>
      ReloadingRestoresEverything(s.store.table, early);
      RebuiltStoreAgrees(s.store);
    case _ =>
      OrdinaryStep(w, s, e);
      hide Apply;
      var t := Apply(w, s, e).store;
      if Updates(s.store, t) {
        UpdatingKeepsCoherent(s.store, t);
      } else if Caches(s.store, t) {
        CachingIsIdle(s.store, t);
      }
  }

  /** Over every run whose restarts find everything loaded, memory and table hold the same actions, but for the
      verdict fields, under distinct nonces with the next one above them all. */
  lemma {:induction false} ReloadedRunsAreCoherent(w: World, trace: seq<State>, events: seq<Event>, i: nat)
    requires IsRun(w, trace, events) && i < |trace|
    requires forall k :: 0 <= k < i ==> Reloads(trace[k], events[k])
    ensures Coherent(trace[i].store)
    decreases i
  {
    hide Apply, Admissible, Coherent, Reloads;
    if i == 0 {
      EmptyIsCoherent();
    } else {
      ReloadedRunsAreCoherent(w, trace, events, i - 1);
      assert StepAt(w, trace, events, i - 1) && Reloads(trace[i - 1], events[i - 1]);
      StepKeepsCoherent(w, trace[i - 1], events[i - 1]);
    }
  }
}
