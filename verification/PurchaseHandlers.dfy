/** What the purchase service answers and writes, case by case, in terms of what is stored and of literal values. */
module PurchaseHandlers {
  import opened Common
  import opened ActionStore
  import opened Normaliser
  import opened PurchaseQueue

  // ---------------------------------------------------------------- what the reports are checked against

  /** Two addresses are one owner's: by their checksummed form where both have one, by case otherwise. */
  lemma OwnersAreOneIff(env: Env, a: string, b: string)
    ensures SameOwner(env, a, b)
            <==> if env.getAddress(a).Some? && env.getAddress(b).Some? then env.getAddress(a) == env.getAddress(b)
                 else ToLower(a) == ToLower(b)
  {
  }

  /** A justification that starts with `x402: ` and this URL, which has no white space in it and ends there. */
  predicate PaysFor(justification: string, url: string, rest: string) {
    && justification == "x402: " + url + rest
    && url != "" && (forall i :: 0 <= i < |url| ==> !IsSpace(url[i]))
    && (rest != "" ==> IsSpace(rest[0]))
  }

  lemma {:induction false} PrefixUpToSpace(s: string)
    ensures var url := NonSpacePrefix(s);
            && url <= s && (forall i :: 0 <= i < |url| ==> !IsSpace(url[i]))
            && (|url| < |s| ==> IsSpace(s[|url|]))
  {
    if s == "" || IsSpace(s[0]) {
    } else {
      PrefixUpToSpace(s[1..]);
      var url := NonSpacePrefix(s[1..]);
      assert s == [s[0]] + s[1..];
      assert |url| < |s[1..]| ==> s[1..][|url|] == s[|url| + 1];
    }
  }

  lemma {:induction false} PrefixIsTheUrl(url: string, rest: string)
    requires forall i :: 0 <= i < |url| ==> !IsSpace(url[i])
    requires rest != "" ==> IsSpace(rest[0])
    ensures NonSpacePrefix(url + rest) == url
  {
    if url == "" {
      assert url + rest == rest;
    } else {
      assert (url + rest)[1..] == url[1..] + rest;
      PrefixIsTheUrl(url[1..], rest);
    }
  }

  /** An action authorises a resource exactly if its justification pays for a URL that starts with the resource's. */
  lemma AuthorizesIff(justification: string, resourceUrl: string)
    ensures Authorizes(justification, resourceUrl)
            <==> exists url, rest :: PaysFor(justification, url, rest) && resourceUrl <= url
  {
    if Authorizes(justification, resourceUrl) {
      var tail := justification[6..];
      PrefixUpToSpace(tail);
      var url := NonSpacePrefix(tail);
      assert tail == url + tail[|url|..];
      assert justification == "x402: " + url + tail[|url|..];
      assert PaysFor(justification, url, tail[|url|..]);
    }
    if url, rest :| PaysFor(justification, url, rest) && resourceUrl <= url {
      PrefixIsTheUrl(url, rest);
      assert justification == "x402: " + (url + rest) && justification[6..] == url + rest;
    }
  }

  /** The length of a text in UTF-8, character by character. */
  lemma {:induction false} Utf8LengthAdds(a: string, b: string)
    ensures Utf8Length(a + b) == Utf8Length(a) + Utf8Length(b)
  {
    if a == "" {
      assert a + b == b;
    } else {
      assert (a + b)[1..] == a[1..] + b;
      Utf8LengthAdds(a[1..], b);
    }
  }

  lemma Utf8LengthOfOne(c: char)
    ensures Utf8Length([c])
            == if c as int <= 0x7F then 1 else if c as int <= 0x7FF then 2 else if c as int <= 0xFFFF then 3 else 4
  {
    assert [c][1..] == "";
  }

  // ---------------------------------------------------------------- reports

  /** Progress is accepted exactly from the request's agent, for a PROCESSING request and an action of his that pays
      for its resource; the errors come in this order. */
  lemma ProgressAnswers(env: Env, q: Queue, store: Store, agent: string, id: string, dto: Progress, now: nat)
    requires Mirrored(store)
    ensures var (t, reply) := ReportProgress(env, q, store, agent, id, dto, now);
            var known := Known(store);
            && (reply == Err(NotFound) <==> dto.actionId != "" && id !in q.rows)
            && (reply == Err(Forbidden) <==>
                  dto.actionId != "" && id in q.rows && !SameOwner(env, q.rows[id].agent, agent))
            && (reply.Ok? <==>
                  && dto.actionId != "" && id in q.rows && SameOwner(env, q.rows[id].agent, agent)
                  && q.rows[id].status == Processing
                  && dto.actionId in known && SameOwner(env, known[dto.actionId].agentAddress, agent)
                  && Authorizes(known[dto.actionId].justification, q.rows[id].resourceUrl))
            && (reply.Err? ==>
                  t == q && (reply.error == NotFound || reply.error == Forbidden || reply.error == BadRequest))
            && (reply.Ok? ==>
                  && t == q.(rows := q.rows[id := reply.value])
                  && var row := q.rows[id];
                     reply.value == row.(status := Authorized, actionId := Some(dto.actionId),
                                         decision := Some(dto.decision), reasons := dto.reasons, updatedAt := now))
  {
    FindIsKnown(store, dto.actionId);
    hide Mirrored, Known, Find, SameOwner, Authorizes;
  }

  /** What backs a report of PAID. */
  lemma PaidIsBackedByIff(env: Env, store: Store, agent: string, dto: ResultReport)
    requires Mirrored(store)
    ensures IsExecutedBy(env, store, agent, dto)
            <==> && dto.actionId.Some? && dto.actionId.value != "" && dto.actionId.value in Known(store)
                 && dto.transactionHash.Some? && dto.transactionHash.value != ""
                 && var a := Known(store)[dto.actionId.value];
                    && SameOwner(env, a.agentAddress, agent) && a.status == EXECUTED
                    && a.txHash.Some? && a.txHash.value != ""
                    && ToLower(a.txHash.value) == ToLower(dto.transactionHash.value)
  {
    if dto.actionId.Some? {
      FindIsKnown(store, dto.actionId.value);
    }
    hide Mirrored, Known, Find, SameOwner;
  }

  /** A result is accepted exactly from the request's agent, for a request being processed or authorised, if it is an
      end, PAID is backed, BLOCKED says so, and the response fits in 32 kilobytes; a second end is a conflict. */
  lemma ResultAnswers(env: Env, q: Queue, store: Store, agent: string, id: string, dto: ResultReport, now: nat)
    ensures var (t, reply) := ReportResult(env, q, store, agent, id, dto, now);
            var isEnd := dto.status in {Paid, Blocked, Rejected, Expired, Failed};
            var isOwn := id in q.rows && SameOwner(env, q.rows[id].agent, agent);
            && (reply == Err(NotFound) <==> isEnd && id !in q.rows)
            && (reply == Err(Forbidden) <==> isEnd && id in q.rows && !isOwn)
            && (reply == Err(Conflict) <==>
                  isEnd && isOwn && q.rows[id].status in {Paid, Blocked, Rejected, Expired, Failed})
            && (reply.Ok? <==>
                  && isEnd && isOwn && q.rows[id].status in {Processing, Authorized}
                  && (dto.status == Paid ==> IsExecutedBy(env, store, agent, dto))
                  && (dto.status == Blocked ==> dto.decision == Some(BLOCK))
                  && (dto.response.Some? ==> Utf8Length(dto.response.value) <= 32_768))
            && (reply.Err? ==>
                  && t == q
                  && (reply.error == NotFound || reply.error == Forbidden || reply.error == Conflict
                      || reply.error == BadRequest))
            && (reply.Ok? ==> t == q.(rows := q.rows[id := reply.value]))
  {
    hide SameOwner, IsExecutedBy, Utf8Length, WithResult;
  }

  /** What an accepted result writes: what it reports, the request's own action, decision, reasons and hash where it
      says nothing, and nothing of who asked for what. */
  lemma ResultWrites(row: Request, dto: ResultReport, now: nat)
    ensures var r := WithResult(row, dto, now);
            && r.id == row.id && r.userId == row.userId && r.agent == row.agent && r.resourceUrl == row.resourceUrl
            && r.createdAt == row.createdAt && r.updatedAt == now && r.status == dto.status
            && r.actionId == (var id := if dto.actionId.Some? then dto.actionId else row.actionId;
                              if id == Some("") then None else id)
            && r.decision == (if dto.decision.Some? then dto.decision else row.decision)
            && r.reasons == (if dto.reasons.Some? then dto.reasons.value else row.reasons)
            && r.transactionHash == (if dto.transactionHash.Some? && dto.transactionHash.value != ""
                                     then Some(ToLower(dto.transactionHash.value)) else row.transactionHash)
            && r.response == (if dto.response == Some("") then None else dto.response)
            && r.error == (if dto.error == Some("") then None else dto.error)
  {
  }

  // ---------------------------------------------------------------- the order of the queue

  predicate IsSorted(ids: seq<string>, rows: map<string, Request>) {
    forall i, j :: 0 <= i < j < |ids| ==> CreatedAt(rows, ids[i]) <= CreatedAt(rows, ids[j])
  }

  /** The ids of one creation time, in their order. */
  function CreatedThen(ids: seq<string>, rows: map<string, Request>, t: nat): seq<string> {
    if ids == [] then []
    else
      CreatedThen(ids[..|ids| - 1], rows, t)
      + if CreatedAt(rows, ids[|ids| - 1]) == t then [ids[|ids| - 1]] else []
  }

  lemma {:induction false} InsertKeepsAll(ids: seq<string>, id: string, rows: map<string, Request>)
    ensures multiset(InsertByCreation(ids, id, rows)) == multiset(ids) + multiset{id}
  {
    if ids == [] || CreatedAt(rows, ids[|ids| - 1]) <= CreatedAt(rows, id) {
    } else {
      assert ids == ids[..|ids| - 1] + [ids[|ids| - 1]];
      InsertKeepsAll(ids[..|ids| - 1], id, rows);
    }
  }

  lemma InsertHolds(ids: seq<string>, id: string, rows: map<string, Request>, x: string)
    ensures x in InsertByCreation(ids, id, rows) <==> x in ids || x == id
  {
    InsertKeepsAll(ids, id, rows);
    assert x in InsertByCreation(ids, id, rows) <==> x in multiset(InsertByCreation(ids, id, rows));
  }

  lemma LastSorts(ids: seq<string>, last: string, rows: map<string, Request>)
    requires IsSorted(ids, rows) && forall i :: 0 <= i < |ids| ==> CreatedAt(rows, ids[i]) <= CreatedAt(rows, last)
    ensures IsSorted(ids + [last], rows)
  {
  }

  lemma {:induction false} InsertSorts(ids: seq<string>, id: string, rows: map<string, Request>)
    requires IsSorted(ids, rows)
    ensures IsSorted(InsertByCreation(ids, id, rows), rows)
  {
    if ids == [] || CreatedAt(rows, ids[|ids| - 1]) <= CreatedAt(rows, id) {
      LastSorts(ids, id, rows);
    } else {
      var init, last := ids[..|ids| - 1], ids[|ids| - 1];
      InsertSorts(init, id, rows);
      var inserted := InsertByCreation(init, id, rows);
      forall i | 0 <= i < |inserted| ensures CreatedAt(rows, inserted[i]) <= CreatedAt(rows, last) {
        InsertHolds(init, id, rows, inserted[i]);
      }
      LastSorts(inserted, last, rows);
    }
  }

  lemma {:induction false} InsertIsStable(ids: seq<string>, id: string, rows: map<string, Request>, t: nat)
    requires IsSorted(ids, rows)
    ensures CreatedThen(InsertByCreation(ids, id, rows), rows, t) == CreatedThen(ids + [id], rows, t)
  {
    assert (ids + [id])[..|ids|] == ids;
    if ids == [] || CreatedAt(rows, ids[|ids| - 1]) <= CreatedAt(rows, id) {
    } else {
      var init, last := ids[..|ids| - 1], ids[|ids| - 1];
      var inserted := InsertByCreation(init, id, rows);
      InsertIsStable(init, id, rows, t);
      assert (init + [id])[..|init|] == init && (inserted + [last])[..|inserted|] == inserted;
    }
  }

  /** The query's order: by creation, equal times in the order of the table, nothing lost. */
  lemma {:induction false} QueueIsSorted(ids: seq<string>, rows: map<string, Request>)
    ensures IsSorted(SortByCreation(ids, rows), rows)
    ensures multiset(SortByCreation(ids, rows)) == multiset(ids)
    ensures forall t :: CreatedThen(SortByCreation(ids, rows), rows, t) == CreatedThen(ids, rows, t)
  {
    if ids == [] {
    } else {
      var init, last := ids[..|ids| - 1], ids[|ids| - 1];
      assert ids == init + [last];
      QueueIsSorted(init, rows);
      var sorted := SortByCreation(init, rows);
      InsertSorts(sorted, last, rows);
      InsertKeepsAll(sorted, last, rows);
      forall t ensures CreatedThen(SortByCreation(ids, rows), rows, t) == CreatedThen(ids, rows, t) {
        InsertIsStable(sorted, last, rows, t);
        assert (sorted + [last])[..|sorted|] == sorted;
      }
    }
  }

  lemma {:induction false} FirstQueuedLeads(ids: seq<string>, rows: map<string, Request>)
    requires IsSorted(ids, rows)
    ensures FirstQueued(ids, rows).None? <==> forall x :: x in ids ==> !(x in rows && rows[x].status == Queued)
    ensures FirstQueued(ids, rows).Some? ==>
              var id := FirstQueued(ids, rows).value;
              && id in ids && id in rows && rows[id].status == Queued
              && forall x :: x in ids && x in rows && rows[x].status == Queued ==>
                   rows[id].createdAt <= rows[x].createdAt
  {
    if ids == [] {
    } else if ids[0] in rows && rows[ids[0]].status == Queued {
      forall x | x in ids && x in rows ensures rows[ids[0]].createdAt <= rows[x].createdAt {
        var i :| 0 <= i < |ids| && ids[i] == x;
        assert CreatedAt(rows, ids[0]) <= CreatedAt(rows, ids[i]);
      }
    } else {
      assert forall x :: x in ids <==> x == ids[0] || x in ids[1..];
      FirstQueuedLeads(ids[1..], rows);
    }
  }

  lemma {:induction false} MineAre(order: seq<string>, rows: map<string, Request>, agent: string)
    ensures forall x :: x in Mine(order, rows, agent) <==> x in order && x in rows && rows[x].agent == agent
  {
    if order == [] {
    } else {
      MineAre(order[..|order| - 1], rows, agent);
    }
  }

  predicate IsQueuedOf(q: Queue, agent: string, x: string) {
    x in q.order && x in q.rows && q.rows[x].agent == agent && q.rows[x].status == Queued
  }

  lemma SortedHolds(ids: seq<string>, rows: map<string, Request>, x: string)
    ensures x in SortByCreation(ids, rows) <==> x in ids
  {
    QueueIsSorted(ids, rows);
    assert x in SortByCreation(ids, rows) <==> x in multiset(SortByCreation(ids, rows));
  }

  /** What a claim's query finds, in any table: the agent's oldest queued request, or none if he has none queued. */
  lemma OldestQueuedIs(q: Queue, agent: string)
    ensures OldestQueued(q, agent).None? <==> forall x :: !IsQueuedOf(q, agent, x)
    ensures OldestQueued(q, agent).Some? ==>
              var id := OldestQueued(q, agent).value;
              && IsQueuedOf(q, agent, id)
              && forall x :: IsQueuedOf(q, agent, x) ==> q.rows[id].createdAt <= q.rows[x].createdAt
  {
    hide Mine, SortByCreation, FirstQueued;
    var ids := Mine(q.order, q.rows, agent);
    MineAre(q.order, q.rows, agent);
    QueueIsSorted(ids, q.rows);
    FirstQueuedLeads(SortByCreation(ids, q.rows), q.rows);
    var sorted := SortByCreation(ids, q.rows);
    forall x ensures IsQueuedOf(q, agent, x) <==> x in sorted && x in q.rows && q.rows[x].status == Queued {
      SortedHolds(ids, q.rows, x);
    }
  }

  // ---------------------------------------------------------------- requests and claims

  /** A new request is queued behind all others, with nothing decided. */
  lemma RequestIsQueued(q: Queue, id: string, userId: string, agent: string, resourceUrl: string, now: nat)
    ensures var t := Enqueue(q, id, userId, agent, resourceUrl, now);
            && t == q.(order := q.order + [id], rows := t.rows)
            && t.rows == q.rows[id := Request(id, userId, agent, resourceUrl, Queued, None, None, [], None, None, None,
                                              now, now)]
  {
  }

  /** A claim's update hands its row out as PROCESSING, if it is still queued, and ends the claim's turn either way. */
  lemma ClaimEnds(q: Queue, agent: string, now: nat)
    requires TurnOf(q, agent) != [] && agent in q.cursors
    ensures var (t, claimed) := Write(q, agent, now);
            var id := q.cursors[agent];
            && t.order == q.order && agent !in t.cursors
            && TurnOf(t, agent) == TurnOf(q, agent)[1..]
            && (forall other :: other != agent ==> TurnOf(t, other) == TurnOf(q, other))
            && (forall other :: other != agent ==> (other in t.cursors <==> other in q.cursors))
            && if id in q.rows && q.rows[id].status == Queued
               then && claimed == Some(id)
                    && t.rows == q.rows[id := q.rows[id].(status := Processing, updatedAt := now)]
                    && HandedTo(t, agent) == HandedTo(q, agent) + [id]
               else claimed == None && t.rows == q.rows && t.handed == q.handed
  {
  }
}
