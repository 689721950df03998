/** The legacy rail's mandate, its daily spend book and its deterministic rules. */
module PolicyEngine {
  import opened Common

  datatype Mandate = Mandate(
    maxAutonomousAmount: int,
    dailyAutonomousLimit: int,
    approvedRecipients: seq<string>,
    approvedTokens: seq<string>)

  /** A partial update: absent fields stay as they are. */
  datatype MandateUpdate = MandateUpdate(
    maxAutonomousAmount: Option<int>,
    dailyAutonomousLimit: Option<int>,
    approvedRecipients: Option<seq<string>>,
    approvedTokens: Option<seq<string>>)

  function OrKeep<T>(update: Option<T>, current: T): T {
    if update.Some? then update.value else current
  }

  function Updated(m: Mandate, u: MandateUpdate): Mandate {
    Mandate(OrKeep(u.maxAutonomousAmount, m.maxAutonomousAmount),
            OrKeep(u.dailyAutonomousLimit, m.dailyAutonomousLimit),
            OrKeep(u.approvedRecipients, m.approvedRecipients),
            OrKeep(u.approvedTokens, m.approvedTokens))
  }

  /** Daily spend: the in-memory map, and the `daily_spent_ledger` table behind it. */
  datatype Book = Book(memory: map<nat, int>, ledger: map<nat, int>)

  const SECONDS_PER_DAY: nat := 86400

  function DayId(seconds: nat): nat { seconds / SECONDS_PER_DAY }

  function SpentOn(b: Book, day: nat): int {
    if day in b.memory then b.memory[day]
    else if day in b.ledger then b.ledger[day]
    else 0
  }

  /** Reading a day's spend caches the ledger row when memory has none. */
  function Read(b: Book, day: nat): Book {
    if day !in b.memory && day in b.ledger
    then b.(memory := b.memory[day := b.ledger[day]])
    else b
  }

  function Record(b: Book, amount: int, day: nat): Book {
    var updated := SpentOn(b, day) + amount;
    Book(b.memory[day := updated], b.ledger[day := updated])
  }

  /** Memory never contradicts the ledger. */
  ghost predicate Consistent(b: Book) {
    forall d :: d in b.memory ==> d in b.ledger && b.ledger[d] == b.memory[d]
  }

  lemma ReadKeepsSpend(b: Book, day: nat)
    ensures forall d :: SpentOn(Read(b, day), d) == SpentOn(b, d)
    ensures Consistent(b) ==> Consistent(Read(b, day))
    ensures Read(b, day).ledger == b.ledger
  {
  }

  /** A recorded spend changes that day's total only, and the sum over all days by exactly the amount. */
  lemma RecordAddsExactly(b: Book, amount: int, day: nat)
    requires Consistent(b)
    ensures Consistent(Record(b, amount, day))
    ensures forall d :: SpentOn(Record(b, amount, day), d) == SpentOn(b, d) + if d == day then amount else 0
    ensures Sum(Record(b, amount, day).ledger) == Sum(b.ledger) + amount
  {
    SumPut(b.ledger, day, SpentOn(b, day) + amount);
  }

  /** A partial update sets what it gives, and nothing else. */
  lemma UpdateSets(m: Mandate, u: MandateUpdate)
    ensures var n := Updated(m, u);
            && n.maxAutonomousAmount
               == (if u.maxAutonomousAmount.Some? then u.maxAutonomousAmount.value else m.maxAutonomousAmount)
            && n.dailyAutonomousLimit
               == (if u.dailyAutonomousLimit.Some? then u.dailyAutonomousLimit.value else m.dailyAutonomousLimit)
            && n.approvedRecipients
               == (if u.approvedRecipients.Some? then u.approvedRecipients.value else m.approvedRecipients)
            && n.approvedTokens == (if u.approvedTokens.Some? then u.approvedTokens.value else m.approvedTokens)
  {
  }

  /** Days are UTC days, the same for both rails. */
  lemma DaysAreUtcDays(ms: nat)
    ensures DayId(ms / 1000) == DayOf(ms)
    ensures DayId(ms / 1000) * 86_400_000 <= ms < (DayId(ms / 1000) + 1) * 86_400_000
  {
  }

  /** What a day has spent, before and after the table is read. */
  lemma SpendIs(b: Book, day: nat)
    ensures day in b.memory ==> SpentOn(b, day) == b.memory[day]
    ensures day !in b.memory && day in b.ledger ==> SpentOn(b, day) == b.ledger[day]
    ensures day !in b.memory && day !in b.ledger ==> SpentOn(b, day) == 0
    ensures day in b.ledger ==> day in Read(b, day).memory && Read(b, day).memory[day] == SpentOn(b, day)
  {
  }

  // ---------------------------------------------------------------- deterministic rules

  predicate ListsIgnoringCase(list: seq<string>, address: string) {
    exists i :: 0 <= i < |list| && ToLower(list[i]) == ToLower(address)
  }

  function Rule(m: Mandate, spent: int, recipient: string, token: string, amount: int): Decision {
    if !ListsIgnoringCase(m.approvedRecipients, recipient) then BLOCK
    else if !ListsIgnoringCase(m.approvedTokens, token) then BLOCK
    else if amount > m.maxAutonomousAmount then ESCALATE
    else if spent + amount > m.dailyAutonomousLimit then ESCALATE
    else ALLOW
  }

  /** The rule, exactly: BLOCK off either list, ALLOW on both and within both limits, ESCALATE otherwise. */
  lemma RuleDecides(m: Mandate, spent: int, recipient: string, token: string, amount: int)
    ensures var d := Rule(m, spent, recipient, token, amount);
            var listed := && (exists i :: 0 <= i < |m.approvedRecipients|
                                          && ToLower(m.approvedRecipients[i]) == ToLower(recipient))
                          && (exists i :: 0 <= i < |m.approvedTokens|
                                          && ToLower(m.approvedTokens[i]) == ToLower(token));
            && (d == BLOCK <==> !listed)
            && (d == ALLOW <==>
                  listed && amount <= m.maxAutonomousAmount && spent + amount <= m.dailyAutonomousLimit)
            && (d == ESCALATE <==>
                  listed && (amount > m.maxAutonomousAmount || spent + amount > m.dailyAutonomousLimit))
  {
    hide ToLower;
  }

  class PolicyEngineService {
    var mandate: Mandate
    var dailySpentMap: map<nat, int>
    var ledger: map<nat, int>

    ghost function View(): Book
      reads this`dailySpentMap, this`ledger
    {
      Book(dailySpentMap, ledger)
    }

    /** Built over what is loaded at that moment: a stored mandate replaces the configured one. */
    constructor (configured: Mandate, stored: Option<Mandate>, rows: map<nat, int>)
      ensures mandate == OrKeep(stored, configured)
      ensures View() == Book(rows, rows)
    {
      mandate := if stored.Some? then stored.value else configured;
      ledger := rows;
      dailySpentMap := rows;
    }

    /** The database finishes loading; the service is not told. */
    method DatabaseLoaded(rows: map<nat, int>)
      modifies this`ledger
      ensures View() == old(View()).(ledger := rows)
    {
      ledger := rows;
    }

    method UpdateMandate(updated: MandateUpdate)
      modifies this`mandate
      ensures mandate == Updated(old(mandate), updated)
    {
      if updated.maxAutonomousAmount.Some? {
        mandate := mandate.(maxAutonomousAmount := updated.maxAutonomousAmount.value);
      }
      if updated.dailyAutonomousLimit.Some? {
        mandate := mandate.(dailyAutonomousLimit := updated.dailyAutonomousLimit.value);
      }
      if updated.approvedRecipients.Some? {
        mandate := mandate.(approvedRecipients := updated.approvedRecipients.value);
      }
      if updated.approvedTokens.Some? {
        mandate := mandate.(approvedTokens := updated.approvedTokens.value);
      }
    }

    method GetDailySpent(timestampSeconds: nat) returns (spent: int)
      modifies this`dailySpentMap
      ensures spent == SpentOn(old(View()), DayId(timestampSeconds))
      ensures View() == Read(old(View()), DayId(timestampSeconds))
    {
      var dayId := timestampSeconds / SECONDS_PER_DAY;
      if dayId in dailySpentMap {
        return dailySpentMap[dayId];
      }
      if dayId in ledger {
        spent := ledger[dayId];
        dailySpentMap := dailySpentMap[dayId := spent];
        return;
      }
      spent := 0;
    }

    method RecordAutonomousSpend(amount: int, timestampSeconds: nat)
      modifies this`dailySpentMap, this`ledger
      ensures View() == Record(old(View()), amount, DayId(timestampSeconds))
    {
      var dayId := timestampSeconds / SECONDS_PER_DAY;
      var current := GetDailySpent(timestampSeconds);
      var updated := current + amount;
      dailySpentMap := dailySpentMap[dayId := updated];
      ledger := ledger[dayId := updated];
    }

    method EvaluateDeterministicRules(recipient: string, token: string, amount: int, timestampSeconds: nat)
      returns (decision: Decision)
      modifies this`dailySpentMap
      ensures decision == Rule(mandate, SpentOn(old(View()), DayId(timestampSeconds)), recipient, token, amount)
      ensures View() == old(View()) || View() == Read(old(View()), DayId(timestampSeconds))
    {
      var isRecipientApproved := false;
      for i := 0 to |mandate.approvedRecipients|
        invariant isRecipientApproved <==>
                  exists j :: 0 <= j < i && ToLower(mandate.approvedRecipients[j]) == ToLower(recipient)
      {
        if ToLower(mandate.approvedRecipients[i]) == ToLower(recipient) {
          isRecipientApproved := true;
        }
      }
      if !isRecipientApproved {
        return BLOCK;
      }
      var isTokenApproved := false;
      for i := 0 to |mandate.approvedTokens|
        invariant isTokenApproved <==>
                  exists j :: 0 <= j < i && ToLower(mandate.approvedTokens[j]) == ToLower(token)
      {
        if ToLower(mandate.approvedTokens[i]) == ToLower(token) {
          isTokenApproved := true;
        }
      }
      if !isTokenApproved {
        return BLOCK;
      }
      var currentDailySpent := GetDailySpent(timestampSeconds);
      if amount > mandate.maxAutonomousAmount {
        return ESCALATE;
      }
      if currentDailySpent + amount > mandate.dailyAutonomousLimit {
        return ESCALATE;
      }
      decision := ALLOW;
    }

    method GetRemainingDailyBudget(timestampSeconds: nat) returns (remaining: int)
      modifies this`dailySpentMap
      ensures var spent := SpentOn(old(View()), DayId(timestampSeconds));
              && remaining >= 0
              && (spent <= mandate.dailyAutonomousLimit ==> spent + remaining == mandate.dailyAutonomousLimit)
              && (spent > mandate.dailyAutonomousLimit ==> remaining == 0)
    {
      var spent := GetDailySpent(timestampSeconds);
      if spent >= mandate.dailyAutonomousLimit {
        return 0;
      }
      remaining := mandate.dailyAutonomousLimit - spent;
    }
  }
}
