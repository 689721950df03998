/** What the semantic analysis detects, said of the text and the three lists of tokens alone: where a token counts, that
    a listed word is never missed, and which disguises are seen through. */
module Detection {
  import opened Common
  import opened Normaliser

  // ---------------------------------------------------------------- what a text is made of

  /** White space and the punctuation that cuts a text into words. */
  predicate Cuts(c: char) {
    9 <= c as int <= 13 || c in " ._-/\\|+*^~`,;:"
  }

  lemma BreaksCut(c: char)
    ensures IsBreak(c) <==> Cuts(c)
  {
  }

  /** Cutting a text at such a character leaves the words of both sides. */
  lemma WordsAcrossACut(a: string, c: char, b: string)
    requires Cuts(c)
    ensures Words(a + [c] + b) == Words(a) + Words(b)
  {
    BreaksCut(c);
    WordsAcrossABreak(a, c, b);
  }

  lemma {:induction false} WordsAcrossABreak(a: string, c: char, b: string)
    requires IsBreak(c)
    ensures Words(a + [c] + b) == Words(a) + Words(b)
    decreases |a|
  {
    hide IsBreak, RunLength;
    var s := a + [c] + b;
    if a == "" {
      assert s == [c] + b && s[1..] == b;
    } else if IsBreak(a[0]) {
      assert s[0] == a[0] && s[1..] == a[1..] + [c] + b;
      WordsAcrossABreak(a[1..], c, b);
    } else {
      var n := RunLength(a);
      RunEndsAtABreak(a, c, b);
      assert s[0] == a[0] && s[..n] == a[..n] && s[n..] == a[n..] + [c] + b;
      WordsAcrossABreak(a[n..], c, b);
      assert Words(s) == [a[..n]] + Words(s[n..]);
    }
  }

  lemma {:induction false} RunEndsAtABreak(a: string, c: char, b: string)
    requires IsBreak(c)
    ensures RunLength(a + [c] + b) == RunLength(a)
  {
    var s := a + [c] + b;
    if a == "" {
      assert s[0] == c;
    } else if IsBreak(a[0]) {
      assert s[0] == a[0];
    } else {
      assert s[1..] == a[1..] + [c] + b;
      RunEndsAtABreak(a[1..], c, b);
    }
  }

  /** A text that is not cut is one word. */
  lemma UncutIsOneWord(s: string)
    requires s != "" && forall i :: 0 <= i < |s| ==> !Cuts(s[i])
    ensures Words(s) == [s]
  {
    forall i | 0 <= i < |s| ensures !IsBreak(s[i]) {
      BreaksCut(s[i]);
    }
    WordsOfJoin([s]);
  }

  /** A word is rewritten exactly if it is no number and holds a look-alike. */
  lemma RewrittenIff(w: string)
    ensures IsObfuscated(w) <==> !IsNumber(w) && exists i :: 0 <= i < |w| && w[i] in "01!|34@5$7+89"
  {
    if i :| 0 <= i < |w| && w[i] in "01!|34@5$7+89" {
      assert w[i] in LEET;
    }
    if i :| 0 <= i < |w| && w[i] in LEET {
      assert w[i] in "01!|34@5$7+89";
    }
  }

  /** A text is taken for leetspeak exactly if one of its words is rewritten. */
  lemma LeetspeakIff(text: string)
    ensures var words := Words(text);
            IsLeetspeak(text) <==>
              exists k, i :: && 0 <= k < |words| && 0 <= i < |words[k]|
                             && !IsNumber(words[k]) && words[k][i] in "01!|34@5$7+89"
  {
    var words := Words(text);
    forall k | 0 <= k < |words|
      ensures IsObfuscated(words[k]) <==>
                !IsNumber(words[k]) && exists i :: 0 <= i < |words[k]| && words[k][i] in "01!|34@5$7+89"
    {
      RewrittenIff(words[k]);
    }
    hide Words, IsObfuscated, IsNumber;
  }

  // ---------------------------------------------------------------- where a token counts

  /** The token stands between these two parts of the text with no letter, digit or underscore touching it. */
  predicate Stands(text: string, before: string, token: string, after: string) {
    && text == before + token + after
    && (before != "" ==>
          var c := before[|before| - 1];
          !('a' <= c <= 'z' || 'A' <= c <= 'Z' || '0' <= c <= '9' || c == '_'))
    && (after != "" ==>
          var c := after[0];
          !('a' <= c <= 'z' || 'A' <= c <= 'Z' || '0' <= c <= '9' || c == '_'))
  }

  lemma StandingIsAt(text: string, before: string, token: string, after: string)
    requires Stands(text, before, token, after)
    ensures TokenAt(text, token, |before|)
  {
    assert text[|before|..|before| + |token|] == token;
  }

  lemma AtIsStanding(text: string, token: string, i: nat)
    requires TokenAt(text, token, i)
    ensures Stands(text, text[..i], token, text[i + |token|..])
  {
    assert text == text[..i] + text[i..i + |token|] + text[i + |token|..];
  }

  /** A text contains a token of a list exactly when one stands in it: anywhere, of one word or several. */
  lemma FoundIff(text: string, cluster: seq<string>)
    ensures ContainsToken(text, cluster)
            <==> exists before, token, after :: token in cluster && Stands(text, before, token, after)
  {
    hide Stands, TokenAt;
    if k, i :| 0 <= k < |cluster| && 0 <= i <= |text| && TokenAt(text, cluster[k], i) {
      TokenFits(text, cluster[k], i);
      AtIsStanding(text, cluster[k], i);
      assert cluster[k] in cluster && Stands(text, text[..i], cluster[k], text[i + |cluster[k]|..]);
    }
    if before, token, after :| token in cluster && Stands(text, before, token, after) {
      StandingIsAt(text, before, token, after);
      var k :| 0 <= k < |cluster| && cluster[k] == token;
      TokenFits(text, token, |before|);
    }
  }

  lemma TokenFits(text: string, token: string, i: nat)
    requires TokenAt(text, token, i)
    ensures i + |token| <= |text|
  {
  }

  /** A token is found wherever it is put, if nothing touches it. */
  lemma TokenIsFound(before: string, token: string, after: string, cluster: seq<string>)
    requires token in cluster && Stands(before + token + after, before, token, after)
    ensures ContainsToken(before + token + after, cluster)
  {
    hide Stands, ContainsToken;
    FoundIff(before + token + after, cluster);
  }

  /** A letter, digit or underscore ends the one part or begins the other. */
  predicate Touches(before: string, after: string) {
    || (before != "" && var c := before[|before| - 1];
                        'a' <= c <= 'z' || 'A' <= c <= 'Z' || '0' <= c <= '9' || c == '_')
    || (after != "" && var c := after[0]; 'a' <= c <= 'z' || 'A' <= c <= 'Z' || '0' <= c <= '9' || c == '_')
  }

  /** A text in which every token of the list is touched wherever it occurs contains none. */
  lemma GluedIsNotFound(text: string, cluster: seq<string>)
    requires forall before, token, after :: token in cluster && text == before + token + after ==>
               Touches(before, after)
    ensures !ContainsToken(text, cluster)
  {
    hide ContainsToken;
    FoundIff(text, cluster);
  }

  // ---------------------------------------------------------------- what is detected

  /** A token of the list stands in the lower-cased normal text. */
  ghost predicate Shows(text: string, cluster: seq<string>) {
    exists before, token, after :: token in cluster && Stands(ToLower(Normal(text)), before, token, after)
  }

  lemma BlankShowsNothing(text: string)
    requires Trim(text) == ""
    ensures Normal(text) == ""
  {
    TrimsToNothing(text);
    NoWordsInBreaks(text);
  }

  lemma NoTokenIsEmpty()
    ensures "" !in SUBVERSION && "" !in TARGETS && "" !in EXFILTRATION
  {
  }

  lemma NothingContainsNothing(cluster: seq<string>)
    requires "" !in cluster
    ensures !ContainsToken("", cluster)
  {
  }

  lemma FindingsName(subversion: bool, targets: bool, exfiltration: bool, leet: bool, normalized: string)
    ensures var intents := Findings(subversion, targets, exfiltration, leet, normalized).detectedIntents;
            && (TreasuryExfiltration in intents <==> exfiltration)
            && (InstructionSubversion in intents <==> subversion && targets)
            && (ObfuscationEvasion in intents <==> leet && (subversion || exfiltration))
  {
  }

  lemma ContainsIffShows(text: string, cluster: seq<string>)
    requires "" !in cluster
    ensures Shows(text, cluster) <==> ContainsToken(ToLower(Normal(text)), cluster)
    ensures Trim(text) == "" ==> !Shows(text, cluster)
  {
    FoundIff(ToLower(Normal(text)), cluster);
    if Trim(text) == "" {
      BlankShowsNothing(text);
      NothingContainsNothing(cluster);
    }
    hide Stands, ContainsToken, Normal, Trim;
  }

  /** The exact conditions of the three intents, for every text. */
  lemma IntentsAre(text: string)
    ensures var intents := Analyse(text).detectedIntents;
            && (TreasuryExfiltration in intents <==> Shows(text, EXFILTRATION))
            && (InstructionSubversion in intents <==> Shows(text, SUBVERSION) && Shows(text, TARGETS))
            && (ObfuscationEvasion in intents <==>
                  IsLeetspeak(text) && (Shows(text, SUBVERSION) || Shows(text, EXFILTRATION)))
  {
    NoTokenIsEmpty();
    hide Shows, ContainsToken, Normal, Trim, IsLeetspeak, SUBVERSION, TARGETS, EXFILTRATION, Findings;
    ContainsIffShows(text, SUBVERSION);
    ContainsIffShows(text, TARGETS);
    ContainsIffShows(text, EXFILTRATION);
    var content := ToLower(Normal(text));
    FindingsName(ContainsToken(content, SUBVERSION), ContainsToken(content, TARGETS),
                 ContainsToken(content, EXFILTRATION), IsLeetspeak(text), Normal(text));
  }

  lemma BlankIff(text: string)
    ensures Trim(text) == "" <==> forall i :: 0 <= i < |text| ==> 9 <= text[i] as int <= 13 || text[i] == ' '
  {
    TrimsToNothing(text);
    hide Trim;
  }

  /** The score of every text: 70 for subversion of a target, 65 for exfiltration, 15 for either kind of word in a
      disguise, cut off at 100; and the confidence that goes with the number of intents. */
  lemma ScoreIs(text: string)
    ensures var a := Analyse(text);
            var subverts := Shows(text, SUBVERSION) && Shows(text, TARGETS);
            var drains := Shows(text, EXFILTRATION);
            var evades := IsLeetspeak(text) && (Shows(text, SUBVERSION) || drains);
            && a.riskScore == (if subverts && drains then 100
                               else if subverts then (if evades then 85 else 70)
                               else if drains then (if evades then 80 else 65)
                               else if evades then 15 else 0)
            && a.detectedIntents == (if subverts then [InstructionSubversion] else [])
                                    + (if drains then [TreasuryExfiltration] else [])
                                    + (if evades then [ObfuscationEvasion] else [])
            && (if forall i :: 0 <= i < |text| ==> 9 <= text[i] as int <= 13 || text[i] == ' '
                then a.normalizedContent == "" && !a.leetspeakNormalized && a.confidence == 0.0
                else && a.normalizedContent == Normal(text) && (a.leetspeakNormalized <==> IsLeetspeak(text))
                     && a.confidence == (match |a.detectedIntents|
                                                           case 0 => 0.1 case 1 => 0.8 case 2 => 0.95 case _ => 0.98))
  {
    NoTokenIsEmpty();
    BlankIff(text);
    hide Shows, ContainsToken, Normal, Trim, IsLeetspeak, SUBVERSION, TARGETS, EXFILTRATION;
    ContainsIffShows(text, SUBVERSION);
    ContainsIffShows(text, TARGETS);
    ContainsIffShows(text, EXFILTRATION);
  }

  // ---------------------------------------------------------------- words and their places

  lemma {:induction false} JoinApart(a: seq<string>, b: seq<string>)
    requires a != [] && b != []
    ensures Join(a + b) == Join(a) + " " + Join(b)
  {
    if |a| == 1 {
      assert (a + b)[1..] == b;
    } else {
      assert (a + b)[1..] == a[1..] + b;
      JoinApart(a[1..], b);
    }
  }

  /** What joins on to a stretch of words, before and after it. */
  function Ahead(ws: seq<string>): string { if ws == [] then "" else Join(ws) + " " }

  function Behind(ws: seq<string>): string { if ws == [] then "" else " " + Join(ws) }

  lemma JoinBehind(part: seq<string>, b: seq<string>)
    requires part != []
    ensures Join(part + b) == Join(part) + Behind(b)
  {
    hide Join;
    if b == [] {
      assert part + b == part && Join(part) + "" == Join(part);
    } else {
      JoinApart(part, b);
      assert Join(part) + " " + Join(b) == Join(part) + (" " + Join(b));
    }
  }

  lemma JoinAhead(a: seq<string>, part: seq<string>)
    requires part != []
    ensures Join(a + part) == Ahead(a) + Join(part)
  {
    hide Join;
    if a == [] {
      assert a + part == part && "" + Join(part) == Join(part);
    } else {
      JoinApart(a, part);
    }
  }

  lemma JoinAround(a: seq<string>, part: seq<string>, b: seq<string>)
    requires part != []
    ensures Join(a + (part + b)) == Ahead(a) + Join(part) + Behind(b)
  {
    hide Join, Ahead, Behind;
    JoinAhead(a, part + b);
    JoinBehind(part, b);
    assert Ahead(a) + (Join(part) + Behind(b)) == Ahead(a) + Join(part) + Behind(b);
  }

  lemma SpacesStand(a: seq<string>, part: string, b: seq<string>)
    ensures Stands(Ahead(a) + part + Behind(b), Ahead(a), part, Behind(b))
  {
    hide Join;
  }

  /** A stretch of the words stands in the joined text. */
  lemma WordsStand(ws: seq<string>, i: nat, n: nat)
    requires 0 < n && i + n <= |ws|
    ensures Stands(Join(ws), Ahead(ws[..i]), Join(ws[i..i + n]), Behind(ws[i + n..]))
  {
    hide Join, Stands, Ahead, Behind;
    assert ws == ws[..i] + (ws[i..i + n] + ws[i + n..]);
    JoinAround(ws[..i], ws[i..i + n], ws[i + n..]);
    SpacesStand(ws[..i], Join(ws[i..i + n]), ws[i + n..]);
  }

  lemma LowerApart(a: string, b: string)
    ensures ToLower(a + b) == ToLower(a) + ToLower(b)
  {
  }

  /** Lower case moves no token. */
  lemma LowerStands(text: string, before: string, token: string, after: string)
    requires Stands(text, before, token, after)
    ensures Stands(ToLower(text), ToLower(before), ToLower(token), ToLower(after))
  {
    LowerApart(before + token, after);
    LowerApart(before, token);
  }

  /** A stretch of the normal text's words that reads as a listed token shows it. */
  lemma WordsShow(text: string, i: nat, n: nat, cluster: seq<string>)
    requires 0 < n && i + n <= |NormalWords(Words(text))|
    requires ToLower(Join(NormalWords(Words(text))[i..i + n])) in cluster
    ensures Shows(text, cluster)
  {
    hide Stands, Words, NormalWords, Join, ToLower;
    var ws := NormalWords(Words(text));
    var before, token, after := Ahead(ws[..i]), Join(ws[i..i + n]), Behind(ws[i + n..]);
    WordsStand(ws, i, n);
    LowerStands(Join(ws), before, token, after);
    assert Stands(ToLower(Normal(text)), ToLower(before), ToLower(token), ToLower(after));
  }

  /** A listed word of the normal text is never missed, whatever else the text says. */
  lemma ListedWordShows(text: string, word: string, cluster: seq<string>)
    requires word in Words(Normal(text)) && ToLower(word) in cluster
    ensures Shows(text, cluster)
  {
    hide Shows, Words, ToLower, Join;
    NormalIsIdempotent(text);
    var ws := NormalWords(Words(text));
    var i :| 0 <= i < |ws| && ws[i] == word;
    assert ws[i..i + 1] == [word];
    SingleJoin(word);
    WordsShow(text, i, 1, cluster);
  }

  lemma SingleJoin(word: string)
    ensures Join([word]) == word
  {
  }

  lemma ListedWordsAreDetected(text: string, word: string, target: string)
    requires word in Words(Normal(text))
    ensures ToLower(word) in EXFILTRATION ==> TreasuryExfiltration in Analyse(text).detectedIntents
    ensures ToLower(word) in SUBVERSION && target in Words(Normal(text)) && ToLower(target) in TARGETS ==>
              InstructionSubversion in Analyse(text).detectedIntents
  {
    hide Shows, Words, Normal, ToLower, Analyse, SUBVERSION, TARGETS, EXFILTRATION;
    IntentsAre(text);
    if ToLower(word) in EXFILTRATION {
      ListedWordShows(text, word, EXFILTRATION);
    }
    if ToLower(word) in SUBVERSION && target in Words(Normal(text)) && ToLower(target) in TARGETS {
      ListedWordShows(text, word, SUBVERSION);
      ListedWordShows(text, target, TARGETS);
    }
  }

  // ---------------------------------------------------------------- disguises

  /** The character passes for this lower-case letter: itself, its capital, or a look-alike. */
  predicate PassesFor(c: char, letter: char) {
    || c == letter
    || ('A' <= c <= 'Z' && c as int + 32 == letter as int)
    || (letter == 'o' && c == '0')
    || (letter == 'i' && (c == '1' || c == '!'))
    || (letter == 'e' && c == '3')
    || (letter == 'a' && (c == '4' || c == '@'))
    || (letter == 's' && (c == '5' || c == '$'))
    || (letter == 't' && c == '7')
    || (letter == 'b' && c == '8')
    || (letter == 'g' && c == '9')
  }

  /** A word spelled with such characters. */
  predicate Spells(disguise: string, word: string) {
    |disguise| == |word| && forall i :: 0 <= i < |word| ==> PassesFor(disguise[i], word[i])
  }

  predicate IsPlain(word: string) { forall i :: 0 <= i < |word| ==> 'a' <= word[i] <= 'z' }

  /** Digits throughout, with at most a percent sign after them: such words are left as they are. */
  predicate IsNumber(w: string) {
    && w != "" && '0' <= w[0] <= '9'
    && (forall i :: 0 <= i < |w| - 1 ==> '0' <= w[i] <= '9')
    && ('0' <= w[|w| - 1] <= '9' || w[|w| - 1] == '%')
  }

  lemma DisguiseOfLetter(c: char, letter: char)
    requires 'a' <= letter <= 'z' && PassesFor(c, letter)
    ensures Substituted(LowerChar(c)) == letter
    ensures c !in LEET ==> LowerChar(c) == letter
  {
  }

  /** The normaliser sees through a disguise exactly when it is not made of digits throughout. */
  lemma DisguiseIsSeenThroughIff(disguise: string, word: string)
    requires IsPlain(word) && word != "" && Spells(disguise, word)
    ensures NormalWord(disguise) == word <==> !IsNumber(disguise)
  {
    forall i | 0 <= i < |word|
      ensures Substituted(LowerChar(disguise[i])) == word[i]
      ensures disguise[i] !in LEET ==> LowerChar(disguise[i]) == word[i]
    {
      DisguiseOfLetter(disguise[i], word[i]);
    }
    if IsNumber(disguise) {
      assert NormalWord(disguise)[0] == LowerChar(disguise[0]) == disguise[0];
    } else {
      assert !IsNumeric(disguise);
      assert NormalWord(disguise) == word;
    }
  }

  /** However the words of a listed token are disguised, one after the other anywhere in a text, they show it, as long
      as none of them is made of digits throughout. */
  lemma DisguisedTokenShows(text: string, i: nat, words: seq<string>, cluster: seq<string>)
    requires words != [] && i + |words| <= |Words(text)| && Join(words) in cluster
    requires forall k :: 0 <= k < |words| ==>
               words[k] != "" && IsPlain(words[k]) && Spells(Words(text)[i + k], words[k])
               && !IsNumber(Words(text)[i + k])
    ensures Shows(text, cluster)
  {
    hide Shows, Words, Join, Spells, IsNumber, NormalWord;
    var ws := NormalWords(Words(text));
    forall k | 0 <= k < |words| ensures ws[i + k] == words[k] {
      DisguiseIsSeenThroughIff(Words(text)[i + k], words[k]);
    }
    assert ws[i..i + |words|] == words;
    PlainIsLower(words);
    WordsShow(text, i, |words|, cluster);
  }

  lemma {:induction false} PlainIsLower(words: seq<string>)
    requires forall k :: 0 <= k < |words| ==> IsPlain(words[k])
    ensures ToLower(Join(words)) == Join(words)
  {
    if |words| <= 1 {
    } else {
      PlainIsLower(words[1..]);
      var all := Join(words);
      assert all == words[0] + " " + Join(words[1..]);
      forall j | 0 <= j < |all| ensures LowerChar(all[j]) == all[j] {
        if |words[0]| < j {
          assert all[j] == Join(words[1..])[j - |words[0]| - 1];
          assert ToLower(Join(words[1..]))[j - |words[0]| - 1] == all[j];
        }
      }
    }
  }

  // ---------------------------------------------------------------- the lists

  /** A token of one or more plain words. */
  predicate IsWords(token: string, words: seq<string>) {
    words != [] && Join(words) == token && forall k :: 0 <= k < |words| ==> words[k] != "" && IsPlain(words[k])
  }

  lemma OneWordIsWords(token: string)
    requires token != "" && IsPlain(token)
    ensures IsWords(token, [token])
  {
  }

  lemma TwoWordsAreWords(token: string, first: string, second: string)
    requires token == first + " " + second
    requires first != "" && IsPlain(first) && second != "" && IsPlain(second)
    ensures IsWords(token, [first, second])
  {
    assert [first, second][1..] == [second];
  }

  lemma SubversionEarlyAreWords()
    ensures forall k :: 0 <= k < 4 ==> SUBVERSION[k] == "100%" || exists words :: IsWords(SUBVERSION[k], words)
  {
    hide IsWords;
    OneWordIsWords(SUBVERSION[0]);
    OneWordIsWords(SUBVERSION[1]);
    OneWordIsWords(SUBVERSION[2]);
    OneWordIsWords(SUBVERSION[3]);
  }

  lemma SubversionMiddleAreWords()
    ensures forall k :: 4 <= k < 8 ==> SUBVERSION[k] == "100%" || exists words :: IsWords(SUBVERSION[k], words)
  {
    hide IsWords;
    OneWordIsWords(SUBVERSION[4]);
    OneWordIsWords(SUBVERSION[5]);
    OneWordIsWords(SUBVERSION[6]);
    OneWordIsWords(SUBVERSION[7]);
  }

  lemma SubversionLateAreWords()
    ensures forall k :: 8 <= k < 12 ==> SUBVERSION[k] == "100%" || exists words :: IsWords(SUBVERSION[k], words)
  {
    hide IsWords;
    OneWordIsWords(SUBVERSION[8]);
    OneWordIsWords(SUBVERSION[9]);
    OneWordIsWords(SUBVERSION[10]);
    TwoWordsAreWords(SUBVERSION[11], "developer", "mode");
  }

  lemma TargetsEarlyAreWords()
    ensures forall k :: 0 <= k < 4 ==> TARGETS[k] == "100%" || exists words :: IsWords(TARGETS[k], words)
  {
    hide IsWords;
    OneWordIsWords(TARGETS[0]);
    OneWordIsWords(TARGETS[1]);
    OneWordIsWords(TARGETS[2]);
    OneWordIsWords(TARGETS[3]);
  }

  lemma TargetsMiddleAreWords()
    ensures forall k :: 4 <= k < 8 ==> TARGETS[k] == "100%" || exists words :: IsWords(TARGETS[k], words)
  {
    hide IsWords;
    OneWordIsWords(TARGETS[4]);
    OneWordIsWords(TARGETS[5]);
    OneWordIsWords(TARGETS[6]);
    OneWordIsWords(TARGETS[7]);
  }

  lemma TargetsLateAreWords()
    ensures forall k :: 8 <= k < 12 ==> TARGETS[k] == "100%" || exists words :: IsWords(TARGETS[k], words)
  {
    hide IsWords;
    TwoWordsAreWords(TARGETS[8], "system", "prompt");
    OneWordIsWords(TARGETS[9]);
    OneWordIsWords(TARGETS[10]);
    OneWordIsWords(TARGETS[11]);
  }

  lemma ExfiltrationEarlyAreWords()
    ensures forall k :: 0 <= k < 4 ==> EXFILTRATION[k] == "100%" || exists words :: IsWords(EXFILTRATION[k], words)
  {
    hide IsWords;
    OneWordIsWords(EXFILTRATION[0]);
    OneWordIsWords(EXFILTRATION[1]);
    OneWordIsWords(EXFILTRATION[2]);
    OneWordIsWords(EXFILTRATION[3]);
  }

  lemma ExfiltrationMiddleAreWords()
    ensures forall k :: 4 <= k < 8 ==> EXFILTRATION[k] == "100%" || exists words :: IsWords(EXFILTRATION[k], words)
  {
    hide IsWords;
    TwoWordsAreWords(EXFILTRATION[5], "all", "balance");
    TwoWordsAreWords(EXFILTRATION[6], "full", "balance");
    TwoWordsAreWords(EXFILTRATION[7], "entire", "balance");
  }

  lemma ExfiltrationLateAreWords()
    ensures forall k :: 8 <= k < 12 ==> EXFILTRATION[k] == "100%" || exists words :: IsWords(EXFILTRATION[k], words)
  {
    hide IsWords;
    TwoWordsAreWords(EXFILTRATION[8], "all", "funds");
    TwoWordsAreWords(EXFILTRATION[9], "all", "assets");
    TwoWordsAreWords(EXFILTRATION[10], "unlimited", "allowance");
    TwoWordsAreWords(EXFILTRATION[11], "max", "allowance");
  }

  /** Every listed token is, but for "100%", which is a number and has no disguise. */
  lemma ListedTokensAreWords(token: string)
    requires token in SUBVERSION || token in TARGETS || token in EXFILTRATION
    ensures token == "100%" || exists words :: IsWords(token, words)
  {
    assert |SUBVERSION| == |TARGETS| == |EXFILTRATION| == 12;
    hide IsWords, SUBVERSION, TARGETS, EXFILTRATION;
    SubversionEarlyAreWords();
    SubversionMiddleAreWords();
    SubversionLateAreWords();
    TargetsEarlyAreWords();
    TargetsMiddleAreWords();
    TargetsLateAreWords();
    ExfiltrationEarlyAreWords();
    ExfiltrationMiddleAreWords();
    ExfiltrationLateAreWords();
  }

  // ---------------------------------------------------------------- texts of one word

  lemma {:induction false} PlainWordsAre(word: string)
    requires word != "" && IsPlain(word)
    ensures IsClean(word) && ToLower(word) == word && !HasSubstitutable(word)
  {
  }

  /** In a text that is one word, a token is found exactly when it is the text. */
  lemma OneWordHoldsItself(word: string, cluster: seq<string>)
    requires word != "" && IsPlain(word)
    ensures ContainsToken(word, cluster) <==> word in cluster
  {
    assert forall i :: 0 <= i < |word| ==> IsWordChar(word[i]);
    hide IsWordChar;
    forall k, i | 0 <= k < |cluster| && 0 <= i <= |word| && TokenAt(word, cluster[k], i) ensures cluster[k] == word {
      assert word[0..|word|] == word;
    }
    if word in cluster {
      var k :| 0 <= k < |cluster| && cluster[k] == word;
      assert word[0..|word|] == word;
      assert TokenAt(word, cluster[k], 0);
    }
  }

  /** A text of one plain word is detected exactly if it is listed: "drain" is, "drained" is not, and a subversive word
      alone, without a target or a disguise, is not either. */
  lemma OneWordIsDetectedIff(word: string)
    requires word != "" && IsPlain(word)
    ensures Analyse(word).detectedIntents
            == if word in EXFILTRATION then [TreasuryExfiltration]
               else if word in SUBVERSION && word in TARGETS then [InstructionSubversion] else []
  {
    PlainWordsAre(word);
    PlainWordIsNormal(word);
    OneWordHoldsItself(word, SUBVERSION);
    OneWordHoldsItself(word, TARGETS);
    OneWordHoldsItself(word, EXFILTRATION);
    ListsAreApart(word);
    hide ContainsToken, Normal, Trim, IsLeetspeak, SUBVERSION, TARGETS, EXFILTRATION, IsClean, HasSubstitutable;
  }

  lemma ListsAreApart(word: string)
    ensures word in EXFILTRATION ==> word !in SUBVERSION && word !in TARGETS
  {
  }

  lemma DrainIsListed()
    ensures IsPlain("drain") && "drain" in EXFILTRATION
  {
    assert EXFILTRATION[0] == "drain";
  }

  lemma DrainedIsNotListed()
    ensures IsPlain("drained") && "drained" !in EXFILTRATION && "drained" !in SUBVERSION
  {
  }

  lemma CancelIsListed()
    ensures IsPlain("cancel") && "cancel" !in EXFILTRATION && "cancel" !in TARGETS && "cancel" in SUBVERSION
  {
    assert SUBVERSION[7] == "cancel";
  }

  lemma DrainedIsNotDrain()
    ensures Analyse("drained").detectedIntents == []
    ensures Analyse("drain").detectedIntents == [TreasuryExfiltration]
    ensures Analyse("cancel").detectedIntents == []
  {
    hide EXFILTRATION, SUBVERSION, TARGETS, Analyse, IsPlain;
    DrainIsListed();
    DrainedIsNotListed();
    CancelIsListed();
    OneWordIsDetectedIff("drained");
    OneWordIsDetectedIff("drain");
    OneWordIsDetectedIff("cancel");
  }

  // ---------------------------------------------------------------- a disguise that is not seen through

  /** Some character of the token is not in the text. */
  predicate LacksOne(text: string, token: string) { exists c :: c in token && c !in text }

  /** Then the text does not contain it. */
  lemma LackingACharacter(text: string, cluster: seq<string>)
    requires forall k :: 0 <= k < |cluster| ==> LacksOne(text, cluster[k])
    ensures !ContainsToken(text, cluster)
  {
    forall k, i | 0 <= k < |cluster| && 0 <= i <= |text| ensures !TokenAt(text, cluster[k], i) {
      var c :| c in cluster[k] && c !in text;
      assert i + |cluster[k]| <= |text| && text[i..i + |cluster[k]|] == cluster[k] ==> c in text;
    }
  }

  lemma Lacks(text: string, token: string, i: nat)
    requires i < |token| && token[i] !in text
    ensures LacksOne(text, token)
  {
  }

  lemma DigitsLackEarlyTokens(text: string)
    requires text == "all 455375"
    ensures forall k :: 0 <= k < 6 ==> LacksOne(text, EXFILTRATION[k])
  {
    hide LacksOne;
    Lacks(text, EXFILTRATION[0], 0);
    Lacks(text, EXFILTRATION[1], 1);
    Lacks(text, EXFILTRATION[2], 1);
    Lacks(text, EXFILTRATION[3], 1);
    Lacks(text, EXFILTRATION[4], 0);
    Lacks(text, EXFILTRATION[5], 4);
  }

  lemma DigitsLackLateTokens(text: string)
    requires text == "all 455375"
    ensures forall k :: 6 <= k < 12 ==> LacksOne(text, EXFILTRATION[k])
  {
    hide LacksOne;
    Lacks(text, EXFILTRATION[6], 0);
    Lacks(text, EXFILTRATION[7], 0);
    Lacks(text, EXFILTRATION[8], 4);
    Lacks(text, EXFILTRATION[9], 5);
    Lacks(text, EXFILTRATION[10], 0);
    Lacks(text, EXFILTRATION[11], 0);
  }

  lemma DigitsAreClean()
    ensures IsClean("all") && IsClean("455375")
    ensures NormalWord("all") == "all" && NormalWord("455375") == "455375"
    ensures Spells("455375", "assets") && IsNumber("455375")
  {
    assert !HasSubstitutable("all") && ToLower("all") == "all";
    assert IsNumeric("455375") && ToLower("455375") == "455375";
  }

  lemma DigitsStayDigits()
    ensures Words("all 455375") == ["all", "455375"]
    ensures NormalWords(["all", "455375"]) == ["all", "455375"] && Join(["all", "455375"]) == "all 455375"
  {
    DigitsAreClean();
    hide IsClean, NormalWord, Spells, IsNumber, Words;
    var ws := ["all", "455375"];
    assert AllClean(ws);
    assert ws[1..] == ["455375"] && Join(ws) == "all" + " " + Join(ws[1..]) && Join(ws[1..]) == "455375";
    assert "all" + " " + "455375" == "all 455375";
    WordsOfJoin(ws);
  }

  lemma DigitsAreNormal()
    ensures ToLower(Normal("all 455375")) == "all 455375"
  {
    assert ToLower("all 455375") == "all 455375";
    hide Words, NormalWords, Join, ToLower;
    DigitsStayDigits();
  }

  lemma DigitsShowNothing()
    ensures !Shows("all 455375", EXFILTRATION)
  {
    assert |EXFILTRATION| == 12;
    hide EXFILTRATION, SUBVERSION, TARGETS, ContainsToken, Normal, ToLower, Shows, LacksOne;
    DigitsAreNormal();
    DigitsLackEarlyTokens("all 455375");
    DigitsLackLateTokens("all 455375");
    LackingACharacter("all 455375", EXFILTRATION);
    NoTokenIsEmpty();
    ContainsIffShows("all 455375", EXFILTRATION);
  }

  /** Digits throughout are left alone: "all 455375" does not count as "all assets". */
  lemma AssetsInDigitsAreMissed()
    ensures Spells("455375", "assets") && "all assets" in EXFILTRATION
    ensures TreasuryExfiltration !in Analyse("all 455375").detectedIntents
  {
    assert EXFILTRATION[9] == "all assets";
    hide EXFILTRATION, SUBVERSION, TARGETS, Analyse, Spells, IsNumber, Shows, IsClean, NormalWord;
    DigitsAreClean();
    DigitsShowNothing();
    IntentsAre("all 455375");
  }
}
