/** What the semantic layer makes of a payment's justification, whose first word the rail writes itself. */
module X402Screening {
  import opened Common
  import opened ActionStore
  import opened Normaliser
  import opened Detection
  import opened X402
  import opened X402Proofs

  // ---------------------------------------------------------------- the rail's own word

  lemma PrefixIsRewritten()
    ensures IsClean("x402") && IsObfuscated("x402")
  {
    assert "x402"[1] in LEET;
  }

  /** Every justification starts with a word the normaliser rewrites. */
  lemma JustificationIsLeetspeak(request: PaymentRequest)
    ensures var full := FullJustification(request);
            Words(full) != [] && Words(full)[0] == "x402" && IsLeetspeak(full)
  {
    hide IsBreak, IsObfuscated;
    PrefixIsRewritten();
    var full, rest := FullJustification(request), " " + request.resourceUrl + " | " + request.justification;
    assert full == "x402" + [':'] + rest;
    BreaksAreBreaks();
    WordsAcrossABreak("x402", ':', rest);
    WordsOfJoin(["x402"]);
    assert Words(full) == ["x402"] + Words(rest);
  }

  lemma BreaksAreBreaks()
    ensures IsBreak(':') && IsBreak(' ')
  {
  }

  /** So the leetspeak flag is set on every payment, and an intent is detected exactly when a token of subversion or
      of exfiltration stands in the normal text: a subversive word needs no target beside it. */
  lemma IntentIffToken(request: PaymentRequest)
    ensures var intents := Analyse(FullJustification(request)).detectedIntents;
            && (intents != [] <==>
                  Shows(FullJustification(request), SUBVERSION) || Shows(FullJustification(request), EXFILTRATION))
            && (intents != [] <==> ObfuscationEvasion in intents)
  {
    JustificationIsLeetspeak(request);
    IntentsAre(FullJustification(request));
    SomeIntentIsNamed(FullJustification(request));
    hide IsLeetspeak, FullJustification, Words, Analyse, Shows, SUBVERSION, TARGETS, EXFILTRATION;
  }

  lemma SomeIntentIsNamed(text: string)
    ensures var intents := Analyse(text).detectedIntents;
            intents != [] <==>
              TreasuryExfiltration in intents || InstructionSubversion in intents || ObfuscationEvasion in intents
  {
    hide Analyse;
    var intents := Analyse(text).detectedIntents;
    if intents != [] {
      match intents[0]
      case InstructionSubversion => assert InstructionSubversion in intents;
      case TreasuryExfiltration => assert TreasuryExfiltration in intents;
      case ObfuscationEvasion => assert ObfuscationEvasion in intents;
    }
  }

  /** What the policy allows, in terms of the text. */
  lemma AllowedIffNoToken(w: World, actions: map<string, TreasuryAction>, agent: string, request: PaymentRequest,
                          now: nat)
    ensures var p := Evaluate(w, actions, agent, request, FullJustification(request), now);
            var amount, total := w.env.bigInt(request.amount), TodaysApprovedTotal(w.env, actions, agent, now);
            var address := w.env.getAddress;
            p.Ok? && p.value.decision == ALLOW <==>
              && request.network == w.config.network
              && address(request.asset).Some? && address(request.asset) == address(w.config.usdcAddress)
              && address(request.payTo).Some? && address(request.payTo).value in w.config.approvedPayTo
              && amount.Some? && amount.value <= w.config.autonomousLimit
              && total.Some? && total.value + amount.value <= w.config.dailyLimit
              && !Shows(FullJustification(request), SUBVERSION) && !Shows(FullJustification(request), EXFILTRATION)
  {
    hide Shows, FullJustification, Evaluate, TodaysApprovedTotal, Analyse;
    IntentIffToken(request);
    PolicyDecides(w, actions, agent, request, FullJustification(request), now);
  }

  // ---------------------------------------------------------------- the agent's own words

  /** A token that stands in a text stands in any that ends in it after a space. */
  lemma EndingStandsIn(full: string, before: string, text: string, a: string, token: string, b: string)
    requires full == before + " " + text && Stands(text, a, token, b)
    ensures exists front :: Stands(full, front, token, b)
  {
    var front := before + " " + a;
    assert full == front + token + b;
    assert Stands(full, front, token, b);
  }

  /** The normal form of a justification ends in that of what the agent wrote. */
  lemma NormalEndsIn(request: PaymentRequest)
    requires Words(request.justification) != []
    ensures exists before :: Normal(FullJustification(request)) == before + " " + Normal(request.justification)
  {
    hide IsBreak, Join, NormalWord;
    var before := "x402: " + request.resourceUrl + " |";
    assert FullJustification(request) == before + [' '] + request.justification;
    BreaksAreBreaks();
    WordsAcrossABreak(before, ' ', request.justification);
    FirstWordComesBefore(request);
    var front, back := Words(before), Words(request.justification);
    assert NormalWords(front + back) == NormalWords(front) + NormalWords(back);
    JoinApart(NormalWords(front), NormalWords(back));
    assert Normal(FullJustification(request)) == Join(NormalWords(front)) + " " + Normal(request.justification);
  }

  lemma PlainWordIsOneWord(word: string)
    requires IsClean(word)
    ensures Words(word) == [word]
  {
    hide IsBreak;
    assert Join([word]) == word;
    WordsOfJoin([word]);
  }

  lemma FirstWordComesBefore(request: PaymentRequest)
    ensures Words("x402: " + request.resourceUrl + " |") != []
  {
    hide IsBreak;
    var rest := " " + request.resourceUrl + " |";
    assert "x402: " + request.resourceUrl + " |" == "x402" + [':'] + rest;
    BreaksAreBreaks();
    PrefixIsRewritten();
    WordsAcrossABreak("x402", ':', rest);
    PlainWordIsOneWord("x402");
  }

  lemma StandingIsNotEmpty(text: string, before: string, token: string, after: string)
    requires Stands(text, before, token, after) && token != ""
    ensures text != ""
  {
  }

  lemma ShowingHasWords(text: string, cluster: seq<string>)
    requires Shows(text, cluster) && "" !in cluster
    ensures Words(text) != []
  {
    hide Stands, Words;
    var before, token, after :| token in cluster && Stands(ToLower(Normal(text)), before, token, after);
    StandingIsNotEmpty(ToLower(Normal(text)), before, token, after);
    assert Normal(text) != "";
  }

  lemma LowerOfEnding(before: string, text: string)
    ensures ToLower(before + " " + text) == ToLower(before) + " " + ToLower(text)
  {
    LowerApart(before + " ", text);
    LowerApart(before, " ");
    assert ToLower(" ") == " ";
  }

  /** Whatever listed token the agent's justification shows, the stored one shows. */
  lemma JustificationShows(request: PaymentRequest, cluster: seq<string>)
    requires Shows(request.justification, cluster) && "" !in cluster
    ensures Shows(FullJustification(request), cluster)
  {
    ShowingHasWords(request.justification, cluster);
    hide Words, Normal, FullJustification, Stands, ToLower;
    NormalEndsIn(request);
    var own, full := ToLower(Normal(request.justification)), ToLower(Normal(FullJustification(request)));
    var before :| Normal(FullJustification(request)) == before + " " + Normal(request.justification);
    LowerOfEnding(before, Normal(request.justification));
    var a, token, b :| token in cluster && Stands(own, a, token, b);
    EndingStandsIn(full, ToLower(before), own, a, token, b);
  }

  /** One such token, whatever else the request says: it is not allowed. */
  lemma OneTokenIsEnough(w: World, actions: map<string, TreasuryAction>, agent: string, request: PaymentRequest,
                         now: nat)
    requires Shows(request.justification, SUBVERSION) || Shows(request.justification, EXFILTRATION)
    ensures Analyse(FullJustification(request)).detectedIntents != []
    ensures var p := Evaluate(w, actions, agent, request, FullJustification(request), now);
            p.Ok? ==> p.value.decision != ALLOW
  {
    NoTokenIsEmpty();
    hide FullJustification, Analyse, Evaluate, TodaysApprovedTotal, SUBVERSION, EXFILTRATION, Shows;
    if Shows(request.justification, SUBVERSION) {
      JustificationShows(request, SUBVERSION);
    } else {
      JustificationShows(request, EXFILTRATION);
    }
    IntentIffToken(request);
    AllowedIffNoToken(w, actions, agent, request, now);
  }

  /** "cancel" alone shows one, and is nothing the semantic layer minds outside a payment. */
  lemma CancelIsEnough()
    ensures Shows("cancel", SUBVERSION)
    ensures Analyse("cancel").detectedIntents == []
  {
    CancelIsListed();
    PlainWordsAre("cancel");
    assert ToLower("cancel") == "cancel";
    hide SUBVERSION, TARGETS, EXFILTRATION, Normal, IsLeetspeak, ContainsToken, IsClean, HasSubstitutable, ToLower,
         Trim, Stands;
    PlainWordIsNormal("cancel");
    OneWordHoldsItself("cancel", SUBVERSION);
    FoundIff("cancel", SUBVERSION);
    DrainedIsNotDrain();
  }
}
