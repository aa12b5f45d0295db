/** Deterministic reading of the conversation without the language model:
    a short reply is classified as a confirmation, a refusal or neither,
    and the assistant's last message is mapped to the stage the
    conversation is in. */
module Intent {
  import opened Common
  import opened Text
  import opened Tools

  // ------------------------------------------------------------ yes / no

  /** A quick reading of a short reply. */
  datatype Intent = Confirm | Deny | Unknown

  /** The alternatives of the anchored YES pattern. */
  function YesWords(): seq<string> {
    ["sim", "pode", "ok", "quero", "confirma", "confirmar", "pode ser", "isso", "exato", "certo",
     "tá bom", "ta bom", "manda", "faz", "vai", "yes", "s", "claro", "ótimo", "otimo",
     "perfeito", "fechado", "feito"]
  }

  /** The alternatives of the anchored NO pattern. */
  function NoWords(): seq<string> {
    ["não", "nao", "n", "cancela", "cancelar", "desisto", "quero não", "quero nao", "outro", "outra",
     "mudei", "mudou", "errei", "volta", "voltar", "mudança", "errado", "não quero", "nao quero"]
  }

  /** The characters of `[!?.…]`. */
  predicate IsMark(c: char) {
    c == '!' || c == '?' || c == '.' || c == '\U{2026}'
  }

  predicate AllMarks(s: string) {
    forall i :: 0 <= i < |s| ==> IsMark(s[i])
  }

  /** `s.replace(/[!?.…]+$/, '')`: the trailing run of marks removed. */
  function StripTrailingMarks(s: string): (r: string)
    ensures |r| <= |s| && r == s[..|r|]
    ensures r != [] ==> !IsMark(r[|r| - 1])
    ensures forall i :: |r| <= i < |s| ==> IsMark(s[i])
  {
    if s != [] && IsMark(s[|s| - 1]) then
      var r := StripTrailingMarks(s[..|s| - 1]);
      assert s[..|s| - 1][..|r|] == s[..|r|];
      assert forall i :: |r| <= i < |s| - 1 ==> s[i] == s[..|s| - 1][i];
      r
    else s
  }

  /** The text the patterns are matched against. */
  function Clean(message: string): string {
    Trim(StripTrailingMarks(ToLower(Trim(message))))
  }

  /** No reply is both a yes and a no. */
  lemma WordListsDisjoint()
    ensures forall w :: w in NoWords() ==> w !in YesWords()
  {
    NoWordsNotYes0();
    NoWordsNotYes5();
    NoWordsNotYes10();
    NoWordsNotYes15();
    assert |NoWords()| == 19;
  }

  // The no words, five at a time, are none of them yes words.

  lemma NoWordsNotYes0()
    ensures forall i :: 0 <= i < 5 ==> NoWords()[i] !in YesWords()
  {
    forall i | 0 <= i < 5 ensures NoWords()[i] !in YesWords() { }
  }

  lemma NoWordsNotYes5()
    ensures forall i :: 5 <= i < 10 ==> NoWords()[i] !in YesWords()
  {
    forall i | 5 <= i < 10 ensures NoWords()[i] !in YesWords() { }
  }

  lemma NoWordsNotYes10()
    ensures forall i :: 10 <= i < 15 ==> NoWords()[i] !in YesWords()
  {
    forall i | 10 <= i < 15 ensures NoWords()[i] !in YesWords() { }
  }

  lemma NoWordsNotYes15()
    ensures forall i :: 15 <= i < 19 ==> NoWords()[i] !in YesWords()
  {
    forall i | 15 <= i < 19 ensures NoWords()[i] !in YesWords() { }
  }

  /** `classifyIntent`: a trimmed reply longer than 40 UTF-16 units is left
      to the model; otherwise the cleaned reply is a confirmation when it is
      one of the yes words, a refusal when it is one of the no words, and
      unknown when it is neither. The stage is not consulted. */
  function ClassifyIntent(message: string, stage: Stage): (r: Intent)
    ensures Utf16Length(Trim(message)) > 40 ==> r == Unknown
    ensures r == Confirm <==> Utf16Length(Trim(message)) <= 40 && Clean(message) in YesWords()
    ensures r == Deny <==> Utf16Length(Trim(message)) <= 40 && Clean(message) in NoWords()
  {
    WordListsDisjoint();
    var trimmed := Trim(message);
    if Utf16Length(trimmed) > 40 then Unknown
    else
      var clean := Trim(StripTrailingMarks(ToLower(trimmed)));
      if clean in YesWords() then Confirm
      else if clean in NoWords() then Deny
      else Unknown
  }

  /** The stage argument never changes the reading. */
  lemma ClassifyIgnoresStage(message: string, s1: Stage, s2: Stage)
    ensures ClassifyIntent(message, s1) == ClassifyIntent(message, s2)
  {
  }

  /** Marks after a word that does not end in one are all that is stripped. */
  lemma {:induction false} StripMarksAfter(x: string, marks: string)
    requires AllMarks(marks)
    requires x != [] && !IsMark(x[|x| - 1])
    ensures StripTrailingMarks(x + marks) == x
    decreases |marks|
  {
    if marks == [] {
      assert x + marks == x;
    } else {
      var shorter := marks[..|marks| - 1];
      assert (x + marks)[..|x + marks| - 1] == x + shorter;
      StripMarksAfter(x, shorter);
    }
  }

  /** A lower-case letter, ASCII or Latin-1. */
  predicate IsLowerLetter(c: char) {
    'a' <= c <= 'z' || '\U{DF}' <= c <= '\U{FF}'
  }

  /** A word of the lists: non-empty, starting and ending with a visible
      character and not ending in a mark. */
  predicate WordShape(w: string) {
    w != [] && !IsJsWhitespace(w[0]) && !IsJsWhitespace(w[|w| - 1]) && !IsMark(w[|w| - 1])
  }

  /** Words that begin and end with a lower-case letter have that shape. */
  lemma LetterEdgesShaped(w: string)
    requires w != [] && IsLowerLetter(w[0]) && IsLowerLetter(w[|w| - 1])
    ensures WordShape(w)
  {
  }

  lemma YesWordsShaped(w: string)
    requires w in YesWords()
    ensures WordShape(w)
  {
    var i :| 0 <= i < |YesWords()| && YesWords()[i] == w;
    assert IsLowerLetter(w[0]) && IsLowerLetter(w[|w| - 1]);
    LetterEdgesShaped(w);
  }

  lemma NoWordsShaped(w: string)
    requires w in NoWords()
    ensures WordShape(w)
  {
    var i :| 0 <= i < |NoWords()| && NoWords()[i] == w;
    assert IsLowerLetter(w[0]) && IsLowerLetter(w[|w| - 1]);
    LetterEdgesShaped(w);
  }

  /** Lower-casing leaves marks alone. */
  lemma LowerKeepsMarks(marks: string)
    requires AllMarks(marks)
    ensures ToLower(marks) == marks
  {
    forall i | 0 <= i < |marks|
      ensures ToLower(marks)[i] == marks[i]
    {
      assert IsMark(marks[i]);
    }
  }

  /** A word whose lower-case form has the right shape has visible first
      and last characters itself. */
  lemma VisibleEdges(w: string)
    requires WordShape(ToLower(w))
    ensures w != [] && !IsJsWhitespace(w[0]) && !IsJsWhitespace(w[|w| - 1])
  {
    if IsJsWhitespace(w[0]) {
      LowerKeepsWhitespace(w[0]);
    }
    if IsJsWhitespace(w[|w| - 1]) {
      LowerKeepsWhitespace(w[|w| - 1]);
    }
  }

  /** Trimming a decorated word leaves the word and its marks. */
  lemma TrimDecorated(ws1: string, w: string, marks: string, ws2: string)
    requires AllWhitespace(ws1) && AllWhitespace(ws2) && AllMarks(marks)
    requires w != [] && !IsJsWhitespace(w[0]) && !IsJsWhitespace(w[|w| - 1])
    ensures Trim(ws1 + w + marks + ws2) == w + marks
  {
    var x := w + marks;
    assert !IsJsWhitespace(x[|x| - 1]) by {
      if marks != [] {
        assert x[|x| - 1] == marks[|marks| - 1];
      } else {
        assert x[|x| - 1] == w[|w| - 1];
      }
    }
    assert x[0] == w[0];
    assert ws1 + w + marks + ws2 == ws1 + x + ws2;
    TrimAround(ws1, x, ws2);
  }

  /** A word whose lower-case form has the shape of a listed word, followed
      by marks and surrounded by whitespace, cleans to that lower-case form. */
  lemma CleanDecorated(ws1: string, w: string, marks: string, ws2: string)
    requires AllWhitespace(ws1) && AllWhitespace(ws2) && AllMarks(marks)
    requires WordShape(ToLower(w))
    ensures Trim(ws1 + w + marks + ws2) == w + marks
    ensures Clean(ws1 + w + marks + ws2) == ToLower(w)
  {
    var lw := ToLower(w);
    var decorated := ws1 + w + marks + ws2;
    assert Trim(decorated) == w + marks by {
      VisibleEdges(w);
      TrimDecorated(ws1, w, marks, ws2);
    }
    calc {
      Clean(decorated);
      Trim(StripTrailingMarks(ToLower(w + marks)));
      { ToLowerAppend(w, marks); LowerKeepsMarks(marks); }
      Trim(StripTrailingMarks(lw + marks));
      { StripMarksAfter(lw, marks); }
      Trim(lw);
      { assert [] + lw + [] == lw; TrimAround([], lw, []); }
      lw;
    }
  }

  /** A yes word in any letter case, followed by any run of `!?.…` and
      surrounded by whitespace, is a confirmation ("Sim!!", " OK. "). */
  lemma DecoratedYesConfirms(ws1: string, w: string, marks: string, ws2: string, stage: Stage)
    requires AllWhitespace(ws1) && AllWhitespace(ws2) && AllMarks(marks)
    requires ToLower(w) in YesWords()
    requires Utf16Length(w + marks) <= 40
    ensures ClassifyIntent(ws1 + w + marks + ws2, stage) == Confirm
  {
    YesWordsShaped(ToLower(w));
    CleanDecorated(ws1, w, marks, ws2);
  }

  /** A no word, decorated the same way, is a refusal. */
  lemma DecoratedNoDenies(ws1: string, w: string, marks: string, ws2: string, stage: Stage)
    requires AllWhitespace(ws1) && AllWhitespace(ws2) && AllMarks(marks)
    requires ToLower(w) in NoWords()
    requires Utf16Length(w + marks) <= 40
    ensures ClassifyIntent(ws1 + w + marks + ws2, stage) == Deny
  {
    NoWordsShaped(ToLower(w));
    CleanDecorated(ws1, w, marks, ws2);
  }

  /** The patterns are anchored: a yes word followed by more words is not a
      confirmation ("sim por favor" is left to the model). */
  lemma SimPorFavorUnknown(message: string, stage: Stage)
    requires message == "sim por favor"
    ensures ClassifyIntent(message, stage) == Unknown
  {
    CleanUnchanged(message);
    if message in YesWords() || message in NoWords() {
      WordsShort(message);
    }
  }

  /** Lower-case ASCII text with visible ends is its own cleaned form. */
  lemma CleanUnchanged(message: string)
    requires message != [] && message[0] != ' ' && message[|message| - 1] != ' '
    requires forall i :: 0 <= i < |message| ==> 'a' <= message[i] <= 'z' || message[i] == ' '
    ensures Clean(message) == message
  {
    LowerAsciiFixed(message);
    LetterEdgesShaped(message);
    CleanDecorated([], message, [], []);
    assert [] + message + [] + [] == message;
  }

  /** No listed word is longer than nine characters. */
  lemma WordsShort(w: string)
    requires w in YesWords() || w in NoWords()
    ensures |w| <= 9
  {
    if w in YesWords() {
      var i :| 0 <= i < |YesWords()| && YesWords()[i] == w;
    } else {
      var i :| 0 <= i < |NoWords()| && NoWords()[i] == w;
    }
  }

  // ---------------------------------------------------------------- stage

  /** One alternative of a stage pattern: a literal, or `a.*b`. */
  datatype Cue = Word(w: string) | Then(a: string, b: string)

  /** The alternative matches somewhere in `s`. */
  predicate MatchesCue(s: string, c: Cue) {
    match c
    case Word(w) => Contains(s, w)
    case Then(a, b) => ThenOnSameLine(s, a, b)
  }

  /** Some alternative of the pattern matches. */
  predicate Matches(s: string, pattern: seq<Cue>) {
    exists i :: 0 <= i < |pattern| && MatchesCue(s, pattern[i])
  }

  /** `a.*(b1|b2|…)` as its alternatives `a.*bj`. */
  function ThenEach(a: string, seconds: seq<string>): (r: seq<Cue>)
    ensures forall c :: c in r <==> c.Then? && c.a == a && c.b in seconds
  {
    if seconds == [] then []
    else [Then(a, seconds[0])] + ThenEach(a, seconds[1..])
  }

  /** `(a1|a2|…).*(b1|b2|…)` as its alternatives `ai.*bj`. */
  function Pairs(firsts: seq<string>, seconds: seq<string>): (r: seq<Cue>)
    ensures forall c :: c in r <==> c.Then? && c.a in firsts && c.b in seconds
  {
    if firsts == [] then []
    else ThenEach(firsts[0], seconds) + Pairs(firsts[1..], seconds)
  }

  /** The pattern that signals each stage; the initial stage has none. */
  function PatternOf(stage: Stage): seq<Cue> {
    match stage
    case PreConfirmation =>
      [Word("posso confirmar"), Word("confirma o agendamento"), Word("você confirma"), Word("pode confirmar")]
    case AwaitingTime =>
      [Then("qual", "horário"), Word("que horas"), Then("escolha", "horário"), Then("prefere", "horário"),
       Word("horários disponíveis")]
    case AwaitingDay =>
      [Word("para que dia"), Then("qual", "dia"), Word("que dia"), Word("informe o dia")]
    case CancelFlow =>
      [Then("cpf", "cancelar"), Then("cpf", "reagendar"), Then("cancelar", "cpf"),
       Then("confirmar", "cancelamento"), Then("confirme", "cpf")]
    case Registration =>
      Pairs(["nome completo", "cpf"], ["cadastr", "informe", "preciso", "necessário", "nos informe"])
      + Pairs(["informe", "preciso"], ["nome", "cpf"])
    case Initial => []
  }

  /** The order in which the stages are tried. */
  function Rank(stage: Stage): nat {
    match stage
    case PreConfirmation => 0
    case AwaitingTime => 1
    case AwaitingDay => 2
    case CancelFlow => 3
    case Registration => 4
    case Initial => 5
  }

  /** `detectStage`: an empty message is the initial stage; otherwise the
      lower-cased message is matched against the stage patterns in a fixed
      order and the first that matches wins; a message matching none is the
      initial stage. */
  function DetectStage(lastBotMessage: string): (r: Stage)
    ensures lastBotMessage == "" ==> r == Initial
    ensures r != Initial ==> Matches(ToLower(lastBotMessage), PatternOf(r))
    ensures forall s :: Rank(s) < Rank(r) ==> lastBotMessage == "" || !Matches(ToLower(lastBotMessage), PatternOf(s))
  {
    if lastBotMessage == "" then Initial
    else
      var m := ToLower(lastBotMessage);
      if Matches(m, PatternOf(PreConfirmation)) then PreConfirmation
      else if Matches(m, PatternOf(AwaitingTime)) then AwaitingTime
      else if Matches(m, PatternOf(AwaitingDay)) then AwaitingDay
      else if Matches(m, PatternOf(CancelFlow)) then CancelFlow
      else if Matches(m, PatternOf(Registration)) then Registration
      else Initial
  }

  /** A stage whose pattern matches is never passed over for a later one:
      the result is the first matching stage in the order. */
  lemma FirstMatchWins(lastBotMessage: string, s: Stage)
    requires lastBotMessage != "" && s != Initial
    requires Matches(ToLower(lastBotMessage), PatternOf(s))
    ensures Rank(DetectStage(lastBotMessage)) <= Rank(s)
    ensures DetectStage(lastBotMessage) != Initial
  {
  }

  /** Text matching no pattern is the initial stage, never a restrictive one. */
  lemma NoCueMeansInitial(lastBotMessage: string)
    requires forall s :: !Matches(ToLower(lastBotMessage), PatternOf(s))
    ensures DetectStage(lastBotMessage) == Initial
  {
  }

  /** The stage depends only on the lower-cased message. */
  lemma StageIgnoresCase(lastBotMessage: string)
    ensures DetectStage(ToLower(lastBotMessage)) == DetectStage(lastBotMessage)
  {
    ToLowerIdempotent(lastBotMessage);
  }

  /** A confirmation question anywhere in the message, in any letter case,
      makes it the pre-confirmation stage, whatever else the message says. */
  lemma ConfirmationQuestionWins(before: string, q: string, after: string)
    requires Word(ToLower(q)) in PatternOf(PreConfirmation)
    ensures DetectStage(before + q + after) == PreConfirmation
  {
    var m := before + q + after;
    ToLowerAppend(before + q, after);
    ToLowerAppend(before, q);
    ContainsMiddle(ToLower(before), ToLower(q), ToLower(after));
    var i :| 0 <= i < |PatternOf(PreConfirmation)| && PatternOf(PreConfirmation)[i] == Word(ToLower(q));
    assert MatchesCue(ToLower(m), PatternOf(PreConfirmation)[i]);
    FirstMatchWins(m, PreConfirmation);
  }

  /** After the assistant asks for confirmation, booking is among the tools
      offered. */
  lemma ConfirmationQuestionOffersBooking(before: string, q: string, after: string)
    requires Word(ToLower(q)) in PatternOf(PreConfirmation)
    ensures CreateAppointment in SelectTools(DetectStage(before + q + after))
  {
    ConfirmationQuestionWins(before, q, after);
    BookingOnlyWhenConfirming(PreConfirmation);
  }
}
