/** The Guardian's text normaliser: punctuation splitting, case folding and leetspeak removal,
    and the semantic analysis that reads its output. The case folding is exact on ASCII text. */
module Normaliser {
  import opened Common

  // ---------------------------------------------------------------- characters

  const SEPARATORS: set<char> := {'.', '_', '-', '/', '\\', '|', '+', '*', '^', '~', '`', ',', ';', ':'}

  const LEET: map<char, char> :=
    map['0' := 'o', '1' := 'i', '!' := 'i', '|' := 'l', '3' := 'e', '4' := 'a', '@' := 'a',
        '5' := 's', '$' := 's', '7' := 't', '+' := 't', '8' := 'b', '9' := 'g']

  predicate IsSpace(c: char) { 9 <= c as int <= 13 || c == ' ' }

  /** Where the text is cut: white space, or punctuation that is first turned into a space. */
  predicate IsBreak(c: char) { IsSpace(c) || c in SEPARATORS }

  predicate IsDigit(c: char) { '0' <= c <= '9' }

  predicate IsLetter(c: char) { 'a' <= c <= 'z' }

  function Substituted(c: char): char { if c in LEET then LEET[c] else c }

  // ---------------------------------------------------------------- specification

  /** The number of leading characters before the first break. */
  function RunLength(s: string): (n: nat)
    ensures n <= |s|
    ensures forall i :: 0 <= i < n ==> !IsBreak(s[i])
    ensures n < |s| ==> IsBreak(s[n])
  {
    if s == "" || IsBreak(s[0]) then 0 else 1 + RunLength(s[1..])
  }

  /** The maximal runs of characters between breaks. */
  function Words(s: string): seq<string>
    decreases |s|
  {
    if s == "" then []
    else if IsBreak(s[0]) then Words(s[1..])
    else
      var n := RunLength(s);
      [s[..n]] + Words(s[n..])
  }

  /** Digits, optionally followed by one percent sign. */
  predicate IsNumeric(w: string) {
    && w != ""
    && IsDigit(w[0])
    && (forall i :: 0 <= i < |w| - 1 ==> IsDigit(w[i]))
    && (IsDigit(w[|w| - 1]) || w[|w| - 1] == '%')
  }

  predicate HasSubstitutable(w: string) {
    exists i :: 0 <= i < |w| && w[i] in LEET
  }

  function Deobfuscated(w: string): (r: string)
    ensures |r| == |w|
  {
    seq(|w|, i requires 0 <= i < |w| => Substituted(LowerChar(w[i])))
  }

  function NormalWord(w: string): string {
    if IsNumeric(w) || !HasSubstitutable(w) then ToLower(w) else Deobfuscated(w)
  }

  function NormalWords(ws: seq<string>): (r: seq<string>)
    ensures |r| == |ws|
  {
    seq(|ws|, i requires 0 <= i < |ws| => NormalWord(ws[i]))
  }

  function Join(ws: seq<string>): string {
    if ws == [] then ""
    else if |ws| == 1 then ws[0]
    else ws[0] + " " + Join(ws[1..])
  }

  function Normal(s: string): string { Join(NormalWords(Words(s))) }

  /** A word the normaliser rewrites. */
  predicate IsObfuscated(w: string) { !IsNumeric(w) && HasSubstitutable(w) }

  predicate IsLeetspeak(s: string) {
    exists i :: 0 <= i < |Words(s)| && IsObfuscated(Words(s)[i])
  }

  function Trim(s: string): string {
    if s == "" then ""
    else if IsSpace(s[0]) then Trim(s[1..])
    else if IsSpace(s[|s| - 1]) then Trim(s[..|s| - 1])
    else s
  }

  // ---------------------------------------------------------------- facts about words

  predicate IsClean(w: string) {
    w != "" && forall i :: 0 <= i < |w| ==> !IsBreak(w[i])
  }

  predicate AllClean(ws: seq<string>) {
    forall i :: 0 <= i < |ws| ==> IsClean(ws[i])
  }

  lemma {:induction false} WordsAreClean(s: string)
    ensures AllClean(Words(s))
    decreases |s|
  {
    if s == "" {
    } else if IsBreak(s[0]) {
      WordsAreClean(s[1..]);
    } else {
      WordsAreClean(s[RunLength(s)..]);
    }
  }

  lemma {:induction false} RunOfCleanPrefix(w: string, rest: string)
    requires forall i :: 0 <= i < |w| ==> !IsBreak(w[i])
    requires rest == "" || IsBreak(rest[0])
    ensures RunLength(w + rest) == |w|
  {
    if w == "" {
      assert w + rest == rest;
    } else {
      assert (w + rest)[1..] == w[1..] + rest;
      RunOfCleanPrefix(w[1..], rest);
    }
  }

  /** Splitting undoes joining. */
  lemma {:induction false} WordsOfJoin(ws: seq<string>)
    requires AllClean(ws)
    ensures Words(Join(ws)) == ws
  {
    if ws == [] {
    } else if |ws| == 1 {
      RunOfCleanPrefix(ws[0], "");
      assert ws[0] + "" == ws[0];
      assert Words(ws[0]) == [ws[0][..|ws[0]|]] + Words(ws[0][|ws[0]|..]);
      assert ws == [ws[0]];
    } else {
      var tail := Join(ws[1..]);
      var s := Join(ws);
      assert s == ws[0] + (" " + tail);
      RunOfCleanPrefix(ws[0], " " + tail);
      var n := |ws[0]|;
      assert s[..n] == ws[0] && s[n..] == " " + tail;
      assert (" " + tail)[1..] == tail;
      assert Words(s[n..]) == Words(tail);
      WordsOfJoin(ws[1..]);
      assert ws == [ws[0]] + ws[1..];
    }
  }

  lemma NormalCharIsClean(c: char)
    requires !IsBreak(c)
    ensures !IsBreak(LowerChar(c)) && !IsBreak(Substituted(LowerChar(c)))
  {
    if LowerChar(c) in LEET {
      assert IsLetter(Substituted(LowerChar(c)));
    }
  }

  lemma NormalWordIsClean(w: string)
    requires IsClean(w)
    ensures IsClean(NormalWord(w))
  {
    var n := NormalWord(w);
    assert |n| == |w|;
    forall i | 0 <= i < |n| ensures !IsBreak(n[i]) {
      NormalCharIsClean(w[i]);
    }
  }

  /** A normal word holds nothing left to substitute, unless it is a number kept as it is. */
  lemma NormalWordIsFixed(w: string)
    ensures NormalWord(NormalWord(w)) == NormalWord(w)
    ensures !IsObfuscated(NormalWord(w))
  {
    var n := NormalWord(w);
    if IsNumeric(w) {
      assert n == w;
    } else {
      forall i | 0 <= i < |w|
        ensures n[i] !in LEET && LowerChar(n[i]) == n[i]
      {
        if !HasSubstitutable(w) {
          assert w[i] !in LEET;
        }
      }
    }
  }

  // ---------------------------------------------------------------- the method

  /** Rewrites one word that is not a number; the flag says whether anything was substituted. */
  method DeobfuscateWord(word: string) returns (out: string, wordHasLeet: bool)
    ensures wordHasLeet <==> HasSubstitutable(word)
    ensures out == if HasSubstitutable(word) then Deobfuscated(word) else ToLower(word)
  {
    var lower := ToLower(word);
    var deob := "";
    wordHasLeet := false;
    var hasLetters := exists i :: 0 <= i < |lower| && IsLetter(lower[i]);
    for i := 0 to |lower|
      invariant deob == Deobfuscated(word)[..i]
      invariant wordHasLeet <==> exists j :: 0 <= j < i && word[j] in LEET
    {
      var c := lower[i];
      if c in LEET {
        deob := deob + [LEET[c]];
        assert IsLetter(deob[i]);
        if hasLetters || exists j :: 0 <= j < |deob| && IsLetter(deob[j]) {
          wordHasLeet := true;
        }
        assert word[i] == c;
      } else {
        deob := deob + [c];
      }
    }
    out := if wordHasLeet then deob else lower;
  }

  method NormalizeText(input: string) returns (normalized: string, wasLeetspeak: bool)
    ensures normalized == Normal(input)
    ensures wasLeetspeak <==> IsLeetspeak(input)
  {
    hide HasSubstitutable, IsNumeric, Deobfuscated, Words, Trim, Join;
    wasLeetspeak := false;
    var words := Words(input);
    var normalizedWords: seq<string> := [];
    for i := 0 to |words|
      invariant |normalizedWords| == i && forall j :: 0 <= j < i ==> normalizedWords[j] == NormalWord(words[j])
      invariant wasLeetspeak <==> exists j :: 0 <= j < i && IsObfuscated(words[j])
    {
      if IsNumeric(words[i]) {
        normalizedWords := normalizedWords + [ToLower(words[i])];
      } else {
        var out, wordHasLeet := DeobfuscateWord(words[i]);
        if wordHasLeet {
          wasLeetspeak := true;
        }
        normalizedWords := normalizedWords + [out];
      }
    }
    assert normalizedWords == NormalWords(words);
    normalized := Trim(Join(normalizedWords));
    WordsAreClean(input);
    NormalWordsAreClean(words);
    TrimOfJoin(normalizedWords);
  }

  lemma NormalWordsAreClean(ws: seq<string>)
    requires AllClean(ws)
    ensures AllClean(NormalWords(ws))
  {
    forall i | 0 <= i < |ws| ensures IsClean(NormalWords(ws)[i]) {
      NormalWordIsClean(ws[i]);
    }
  }

  lemma {:induction false} JoinEnds(ws: seq<string>)
    requires AllClean(ws) && ws != []
    ensures Join(ws) != ""
    ensures !IsBreak(Join(ws)[0]) && !IsBreak(Join(ws)[|Join(ws)| - 1])
  {
    if |ws| == 1 {
    } else {
      JoinEnds(ws[1..]);
      assert Join(ws)[0] == ws[0][0];
    }
  }

  lemma TrimOfJoin(ws: seq<string>)
    requires AllClean(ws)
    ensures Trim(Join(ws)) == Join(ws)
  {
    if ws != [] {
      JoinEnds(ws);
    }
  }

  // ---------------------------------------------------------------- properties

  /** Normalising is idempotent, and a normal text is never reported as leetspeak. */
  lemma NormalIsIdempotent(s: string)
    ensures Normal(Normal(s)) == Normal(s)
    ensures !IsLeetspeak(Normal(s))
    ensures Words(Normal(s)) == NormalWords(Words(s))
  {
    var ws := NormalWords(Words(s));
    WordsAreClean(s);
    NormalWordsAreClean(Words(s));
    WordsOfJoin(ws);
    forall i | 0 <= i < |ws|
      ensures NormalWord(ws[i]) == ws[i] && !IsObfuscated(ws[i])
    {
      NormalWordIsFixed(Words(s)[i]);
    }
    assert NormalWords(ws) == ws;
  }

  // ---------------------------------------------------------------- semantic analysis

  datatype Intent = InstructionSubversion | TreasuryExfiltration | ObfuscationEvasion

  datatype Analysis = Analysis(
    riskScore: int,
    detectedIntents: seq<Intent>,
    normalizedContent: string,
    leetspeakNormalized: bool,
    confidence: real)

  const SUBVERSION: seq<string> :=
    ["ignore", "disregard", "override", "bypass", "forget", "neglect", "revoke", "cancel",
     "jailbreak", "dan", "unrestricted", "developer mode"]

  const TARGETS: seq<string> :=
    ["instruction", "instructions", "rule", "rules", "guard", "guardrail", "guardrails", "prompt",
     "system prompt", "mandate", "constraint", "constraints"]

  const EXFILTRATION: seq<string> :=
    ["drain", "sweep", "empty", "liquidate", "100%", "all balance", "full balance",
     "entire balance", "all funds", "all assets", "unlimited allowance", "max allowance"]

  predicate IsWordChar(c: char) {
    IsLetter(LowerChar(c)) || IsDigit(c) || c == '_'
  }

  /** The token stands at `i` with no word character on either side. */
  predicate TokenAt(text: string, token: string, i: nat) {
    && i + |token| <= |text|
    && text[i..i + |token|] == token
    && (i == 0 || !IsWordChar(text[i - 1]))
    && (i + |token| == |text| || !IsWordChar(text[i + |token|]))
  }

  predicate ContainsToken(text: string, cluster: seq<string>) {
    exists k, i :: 0 <= k < |cluster| && 0 <= i <= |text| && TokenAt(text, cluster[k], i)
  }

  function Confidence(intents: nat): real {
    if intents == 0 then 0.1
    else
      var confidence := 0.65 + intents as real * 0.15;
      if confidence < 0.98 then confidence else 0.98
  }

  /** The score and intents that follow from what the three clusters and the normaliser report. */
  function Findings(subversion: bool, targets: bool, exfiltration: bool, leet: bool, normalized: string): Analysis {
    var evades := leet && (subversion || exfiltration);
    var risk := (if subversion && targets then 70 else 0) + (if exfiltration then 65 else 0)
                + (if evades then 15 else 0);
    var intents := (if subversion && targets then [InstructionSubversion] else [])
                   + (if exfiltration then [TreasuryExfiltration] else [])
                   + (if evades then [ObfuscationEvasion] else []);
    Analysis(if risk < 100 then risk else 100, intents, normalized, leet, Confidence(|intents|))
  }

  function Analyse(text: string): Analysis {
    if Trim(text) == "" then Analysis(0, [], "", false, 0.0)
    else
      var content := ToLower(Normal(text));
      Findings(ContainsToken(content, SUBVERSION), ContainsToken(content, TARGETS),
               ContainsToken(content, EXFILTRATION), IsLeetspeak(text), Normal(text))
  }

  method ScoreFindings(hasSubversion: bool, hasTargetConstraint: bool, hasExfiltration: bool,
                       wasLeetspeak: bool, normalized: string)
    returns (r: Analysis)
    ensures r == Findings(hasSubversion, hasTargetConstraint, hasExfiltration, wasLeetspeak, normalized)
  {
    var detectedIntents: seq<Intent> := [];
    var cumulativeRisk := 0;
    if hasSubversion && hasTargetConstraint {
      detectedIntents := detectedIntents + [InstructionSubversion];
      cumulativeRisk := cumulativeRisk + 70;
    }
    if hasExfiltration {
      detectedIntents := detectedIntents + [TreasuryExfiltration];
      cumulativeRisk := cumulativeRisk + 65;
    }
    if wasLeetspeak && (hasSubversion || hasExfiltration) {
      detectedIntents := detectedIntents + [ObfuscationEvasion];
      cumulativeRisk := cumulativeRisk + 15;
    }
    var confidence := 0.1;
    if |detectedIntents| > 0 {
      confidence := 0.65 + |detectedIntents| as real * 0.15;
      if confidence > 0.98 {
        confidence := 0.98;
      }
    }
    r := Analysis(if cumulativeRisk < 100 then cumulativeRisk else 100, detectedIntents, normalized, wasLeetspeak,
                  confidence);
  }

  method PerformMultiLayerSemanticAnalysis(text: string) returns (r: Analysis)
    ensures r == Analyse(text)
  {
    if Trim(text) == "" {
      return Analysis(0, [], "", false, 0.0);
    }
    var normalized, wasLeetspeak := NormalizeText(text);
    var content := ToLower(normalized);
    r := ScoreFindings(ContainsToken(content, SUBVERSION), ContainsToken(content, TARGETS),
                       ContainsToken(content, EXFILTRATION), wasLeetspeak, normalized);
  }

  /** The score stays within 0..100, is zero and the confidence at most a tenth exactly when nothing was
      detected, and passes 15 exactly on subversion or exfiltration, which score 65 at least. */
  lemma AnalysisScore(text: string)
    ensures 0 <= Analyse(text).riskScore <= 100
    ensures Analyse(text).riskScore == 0 <==> Analyse(text).detectedIntents == []
    ensures Analyse(text).confidence <= 0.1 <==> Analyse(text).detectedIntents == []
    ensures InstructionSubversion in Analyse(text).detectedIntents
            || TreasuryExfiltration in Analyse(text).detectedIntents
            <==> Analyse(text).riskScore > 15
    ensures Analyse(text).riskScore > 15 ==> Analyse(text).riskScore >= 65
  {
  }

  /** A clean word in lower case with nothing to substitute stays as it is. */
  lemma PlainWordIsNormal(word: string)
    requires IsClean(word) && ToLower(word) == word && !HasSubstitutable(word)
    ensures Normal(word) == word && !IsLeetspeak(word) && Trim(word) == word
  {
    hide ToLower, HasSubstitutable, IsBreak;
    assert Join([word]) == word;
    WordsOfJoin([word]);
    TrimOfJoin([word]);
    assert NormalWord(word) == word;
    assert NormalWords([word]) == [word];
    assert Normal(word) == word;
    assert !IsObfuscated(word);
  }

  /** One word is enough. */
  lemma DrainScores()
    ensures Analyse("drain").riskScore >= 65 && TreasuryExfiltration in Analyse("drain").detectedIntents
  {
    hide Normal, IsLeetspeak, Trim, Words;
    var word := "drain";
    PlainWordIsNormal(word);
    var cluster := EXFILTRATION;
    assert cluster[0] == word && word[0..5] == word;
    assert TokenAt(word, cluster[0], 0);
    assert ContainsToken(word, cluster);
    hide ContainsToken, TokenAt;
    assert Analyse(word) == Findings(ContainsToken(word, SUBVERSION), ContainsToken(word, TARGETS), true, false, word);
  }

  lemma {:induction false} TrimsToNothing(s: string)
    ensures Trim(s) == "" <==> forall i :: 0 <= i < |s| ==> IsSpace(s[i])
    decreases |s|
  {
    if s == "" {
    } else if IsSpace(s[0]) {
      TrimsToNothing(s[1..]);
      assert forall i :: 0 < i < |s| ==> s[i] == s[1..][i - 1];
    } else if IsSpace(s[|s| - 1]) {
      TrimsToNothing(s[..|s| - 1]);
    }
  }

  /** Disguising a text never lowers its score: the disguised text scores its plain form's risk,
      or up to 15 more for the disguise itself, and every other intent is the same. */
  lemma DisguiseNeverHelps(text: string)
    ensures Analyse(Normal(text)).riskScore <= Analyse(text).riskScore <= Analyse(Normal(text)).riskScore + 15
    ensures InstructionSubversion in Analyse(text).detectedIntents
       <==> InstructionSubversion in Analyse(Normal(text)).detectedIntents
    ensures TreasuryExfiltration in Analyse(text).detectedIntents
       <==> TreasuryExfiltration in Analyse(Normal(text)).detectedIntents
    ensures ObfuscationEvasion !in Analyse(Normal(text)).detectedIntents
  {
    NormalIsIdempotent(text);
    if Trim(text) == "" {
      TrimsToNothing(text);
      NoWordsInBreaks(text);
    } else if Trim(Normal(text)) == "" {
      WordsAreClean(text);
      NormalWordsAreClean(Words(text));
      TrimOfJoin(NormalWords(Words(text)));
    }
  }

  lemma {:induction false} NoWordsInBreaks(s: string)
    requires forall i :: 0 <= i < |s| ==> IsBreak(s[i])
    ensures Words(s) == []
  {
    if s == "" {
    } else {
      NoWordsInBreaks(s[1..]);
    }
  }
}
