// The deterministic mock score (app/domain/evaluation.py). What counts as white space and how a token is
// lowered are given, so the Unicode tables stay outside.
module Scoring {
  import opened Prelude
  import opened Jobs
  import opened Words

  datatype Text = Text(isSpace: char -> bool, lower: string -> string)

  const STOP_WORDS: set<string> :=
    {"the", "a", "an", "and", "or", "of", "to", "in", "is", "it", "for", "on", "with"}
  const PUNCTUATION := ".,!?;:()[]{}\"'"
  const JUSTIFICATION :=
    "Mock evaluation score based on answer length, question-term overlap, basic clarity signals, "
    + "and optional rubric overlap."

  function Clean(t: Text, token: string): string
  {
    Strip(Punctuation, t.lower(token))
  }

  predicate Punctuation(c: char) { c in PUNCTUATION }

  function CleanTokens(t: Text, tokens: seq<string>): set<string>
  {
    set i | 0 <= i < |tokens| && |tokens[i]| > 3 :: Clean(t, tokens[i])
  }

  function SignificantTerms(t: Text, s: string): set<string>
  {
    CleanTokens(t, Tokens(t.isSpace, s, "")) - STOP_WORDS
  }

  // The parts of the score of an already stripped answer.
  function LengthScore(answer: string): int { Min(|answer| / 8, 40) }

  function OverlapScore(questionTerms: set<string>, answerTerms: set<string>): int
  {
    Min(|questionTerms * answerTerms| * 10, 40)
  }

  // rubricTerms is None when the rubric is missing or empty.
  function RubricBonus(rubricTerms: Option<set<string>>, answerTerms: set<string>): int
  {
    if rubricTerms.Some? && rubricTerms.value * answerTerms != {} then 10 else 0
  }

  function RubricTerms(t: Text, rubric: Option<string>): Option<set<string>>
  {
    if rubric.Some? && rubric.value != "" then Some(SignificantTerms(t, rubric.value)) else None
  }

  function ClarityBonus(answer: string): int
  {
    if '.' in answer || '\n' in answer then 10 else 0
  }

  function Points(t: Text, r: Request): int
  {
    var answer := Strip(t.isSpace, r.answer);
    var terms := SignificantTerms(t, answer);
    LengthScore(answer) + OverlapScore(SignificantTerms(t, r.question), terms)
    + RubricBonus(RubricTerms(t, r.rubric), terms) + ClarityBonus(answer)
  }

  function Score(t: Text, r: Request): Evaluation
  {
    var clamped := if Points(t, r) > 100 then 100 else Points(t, r);
    Evaluation(if clamped < 0 then 0 else clamped, JUSTIFICATION, r.rubric.Some?)
  }

  // The points never leave 0..100, so the clamp never changes a score and the result is always valid.
  lemma ClampNeverFires(t: Text, r: Request)
    ensures 0 <= Points(t, r) <= 100
    ensures Score(t, r).score == Points(t, r)
  {
  }

  // ----- Terms -----

  lemma CleanTokensAdd(t: Text, a: seq<string>, b: seq<string>)
    ensures CleanTokens(t, a + b) == CleanTokens(t, a) + CleanTokens(t, b)
  {
    forall x | x in CleanTokens(t, a) ensures x in CleanTokens(t, a + b) {
      var i :| 0 <= i < |a| && |a[i]| > 3 && x == Clean(t, a[i]);
      assert (a + b)[i] == a[i];
    }
    forall x | x in CleanTokens(t, b) ensures x in CleanTokens(t, a + b) {
      var i :| 0 <= i < |b| && |b[i]| > 3 && x == Clean(t, b[i]);
      assert (a + b)[|a| + i] == b[i];
    }
  }

  // The terms of a text are the union of the terms of its parts, wherever white space parts them.
  lemma TermsAreUnion(t: Text, a: string, blank: string, b: string)
    requires Blank(t.isSpace, blank) && blank != ""
    ensures SignificantTerms(t, a + blank + b) == SignificantTerms(t, a) + SignificantTerms(t, b)
  {
    TokensSplit(t.isSpace, a, blank, b);
    CleanTokensAdd(t, Tokens(t.isSpace, a, ""), Tokens(t.isSpace, b, ""));
  }

  lemma StripKeepsTerms(t: Text, s: string)
    ensures SignificantTerms(t, Strip(t.isSpace, s)) == SignificantTerms(t, s)
  {
    StripKeepsTokens(t.isSpace, s);
  }

  // ----- Monotonicity -----

  lemma SubsetCards(a: set<string>, b: set<string>)
    requires a <= b
    ensures |a| <= |b|
  {
    assert b == a + (b - a);
  }

  // Every part of the score grows with the answer's text and terms.
  lemma TextPartsGrow(a: string, b: string)
    requires a <= b
    ensures LengthScore(a) <= LengthScore(b) && ClarityBonus(a) <= ClarityBonus(b)
  {
    assert a == b[..|a|];
    assert forall c :: c in b[..|a|] ==> c in b;
  }

  lemma TermPartsGrow(question: set<string>, rubric: Option<set<string>>, small: set<string>, large: set<string>)
    requires small <= large
    ensures OverlapScore(question, small) <= OverlapScore(question, large)
    ensures RubricBonus(rubric, small) <= RubricBonus(rubric, large)
  {
    SubsetCards(question * small, question * large);
    assert rubric.Some? ==> rubric.value * small <= rubric.value * large;
  }

  // Appending text after white space never lowers an answer's score, whatever the question and rubric.
  lemma AppendingNeverLowersTheScore(t: Text, r: Request, blank: string, more: string)
    requires Blank(t.isSpace, blank) && blank != ""
    ensures Score(t, r).score <= Score(t, r.(answer := r.answer + blank + more)).score
  {
    var longer := r.(answer := r.answer + blank + more);
    var a, b := Strip(t.isSpace, r.answer), Strip(t.isSpace, longer.answer);
    assert longer.answer == r.answer + (blank + more);
    StripGrows(t.isSpace, r.answer, blank + more);
    StripKeepsTerms(t, r.answer);
    StripKeepsTerms(t, longer.answer);
    TermsAreUnion(t, r.answer, blank, more);
    TextPartsGrow(a, b);
    TermPartsGrow(SignificantTerms(t, r.question), RubricTerms(t, r.rubric),
                  SignificantTerms(t, a), SignificantTerms(t, b));
    ClampNeverFires(t, r);
    ClampNeverFires(t, longer);
  }

  // ----- What the parts are worth -----

  // The lower-case token without the punctuation at its ends.
  ghost predicate CleansTo(lowered: string, x: string)
  {
    exists p: nat, q: nat :: CleanBetween(lowered, p, q, x)
  }

  ghost predicate CleanBetween(lowered: string, p: nat, q: nat, x: string)
  {
    && p <= q <= |lowered| && x == lowered[p..q]
    && (forall i :: 0 <= i < p || q <= i < |lowered| ==> lowered[i] in ".,!?;:()[]{}\"'")
    && (p < q ==> lowered[p] !in ".,!?;:()[]{}\"'" && lowered[q-1] !in ".,!?;:()[]{}\"'")
  }

  lemma CleanIff(t: Text, w: string, x: string)
    ensures x == Clean(t, w) <==> CleansTo(t.lower(w), x)
  {
    var s := t.lower(w);
    StripIff(Punctuation, s, x);
    forall p: nat, q: nat ensures StrippedTo(Punctuation, s, p, q, x) <==> CleanBetween(s, p, q, x) {}
  }

  // A word of more than three characters that cleans to x.
  ghost predicate TermAt(t: Text, s: string, w: string, x: string)
  {
    IsWord(t.isSpace, s, w) && |w| > 3 && CleansTo(t.lower(w), x)
  }

  lemma CleanTokenIsTerm(t: Text, s: string, i: nat)
    requires i < |Tokens(t.isSpace, s, "")| && |Tokens(t.isSpace, s, "")[i]| > 3
    ensures TermAt(t, s, Tokens(t.isSpace, s, "")[i], Clean(t, Tokens(t.isSpace, s, "")[i]))
  {
    var w := Tokens(t.isSpace, s, "")[i];
    TokensAreWords(t.isSpace, s, w);
    CleanIff(t, w, Clean(t, w));
  }

  lemma TermIsCleanToken(t: Text, s: string, w: string, x: string)
    requires TermAt(t, s, w, x)
    ensures x in CleanTokens(t, Tokens(t.isSpace, s, ""))
  {
    TokensAreWords(t.isSpace, s, w);
    CleanIff(t, w, x);
  }

  // The significant terms of a text are what its words of more than three characters clean to, but for stop words.
  lemma TermsAreCleanWords(t: Text, s: string, x: string)
    ensures x in SignificantTerms(t, s) <==>
              && x !in {"the", "a", "an", "and", "or", "of", "to", "in", "is", "it", "for", "on", "with"}
              && exists w: string :: TermAt(t, s, w, x)
  {
    var tokens := Tokens(t.isSpace, s, "");
    if x in CleanTokens(t, tokens) {
      var i: nat :| i < |tokens| && |tokens[i]| > 3 && Clean(t, tokens[i]) == x;
      CleanTokenIsTerm(t, s, i);
    }
    if w: string :| TermAt(t, s, w, x) { TermIsCleanToken(t, s, w, x); }
  }

  // Eight more characters are worth one point, up to 320 characters.
  lemma EightCharactersAddOne(answer: string, more: string)
    requires |more| == 8
    ensures LengthScore("") == 0
    ensures LengthScore(answer + more) == LengthScore(answer) + (if |answer| < 320 then 1 else 0)
    ensures |answer| < 8 ==> LengthScore(answer) == 0
  {
  }

  // A further term of the question in the answer is worth ten points, up to four terms; any other term none.
  lemma OneTermAddsTen(question: set<string>, answer: set<string>, x: string)
    requires x !in answer
    ensures OverlapScore(question, {}) == 0
    ensures OverlapScore(question, answer + {x})
              == OverlapScore(question, answer) + (if x in question && |question * answer| < 4 then 10 else 0)
  {
    assert question * (answer + {x}) == question * answer + (if x in question then {x} else {});
    assert question * {} == {};
  }

  // The rubric is worth ten points if and only if one of its terms is one of the answer's.
  lemma RubricAddsTenIff(t: Text, rubric: Option<string>, answer: string)
    ensures var bonus := RubricBonus(RubricTerms(t, rubric), SignificantTerms(t, answer));
            && (bonus == 10 || bonus == 0)
            && (bonus == 10 <==>
                  exists x :: rubric.Some? && x in SignificantTerms(t, rubric.value)
                              && x in SignificantTerms(t, answer))
  {
    var terms := SignificantTerms(t, answer);
    if rubric.Some? {
      if rubric.value == "" { assert SignificantTerms(t, "") == {}; }
      if x :| x in SignificantTerms(t, rubric.value) && x in terms {
        assert x in SignificantTerms(t, rubric.value) * terms;
      }
      if x :| x in SignificantTerms(t, rubric.value) * terms {
        assert x in SignificantTerms(t, rubric.value) && x in terms;
      }
    }
  }

  // Clarity is worth ten points if and only if a period or a line break occurs.
  lemma ClarityAddsTenIff(answer: string)
    ensures ClarityBonus(answer) == 10 || ClarityBonus(answer) == 0
    ensures ClarityBonus(answer) == 10 <==> exists i :: 0 <= i < |answer| && (answer[i] == '.' || answer[i] == '\n')
  {
  }

  // The score by the stripped answer a and its terms: a point for every eight characters up to 40 points, ten for
  // every term shared with the question up to 40, ten for a term shared with the rubric, ten for clarity.
  lemma ScoreIsWhatThePartsAreWorth(t: Text, r: Request, a: string)
    requires IsStripped(t.isSpace, r.answer, a)
    ensures var shared := SignificantTerms(t, r.question) * SignificantTerms(t, a);
            && Score(t, r).score
               == (if |a| >= 320 then 40 else |a| / 8) + (if |shared| >= 4 then 40 else 10 * |shared|)
                  + (if exists x :: r.rubric.Some? && x in SignificantTerms(t, r.rubric.value)
                                    && x in SignificantTerms(t, a) then 10 else 0)
                  + (if exists i :: 0 <= i < |a| && (a[i] == '.' || a[i] == '\n') then 10 else 0)
            && (Score(t, r).rubricUsed <==> r.rubric.Some?)
            && Score(t, r).justification
               == "Mock evaluation score based on answer length, question-term overlap, basic clarity signals, "
                  + "and optional rubric overlap."
  {
    StripIff(t.isSpace, r.answer, a);
    ClampNeverFires(t, r);
    RubricAddsTenIff(t, r.rubric, a);
    ClarityAddsTenIff(a);
  }

  // White space around the answer makes no difference.
  lemma SurroundingSpaceIsIgnored(t: Text, r: Request, before: string, after: string)
    requires Blank(t.isSpace, before) && Blank(t.isSpace, after)
    ensures Score(t, r.(answer := before + r.answer + after)) == Score(t, r)
  {
    StripIgnoresEnds(t.isSpace, before, r.answer, after);
  }

  // ----- Extremes -----

  // A blank answer scores nothing, whatever the question and rubric.
  lemma BlankAnswerScoresZero(t: Text, r: Request)
    requires Blank(t.isSpace, r.answer)
    ensures Score(t, r).score == 0
  {
    StripIgnoresEnds(t.isSpace, r.answer, "", "");
    assert r.answer + "" + "" == r.answer;
    assert Strip(t.isSpace, "") == "";
    assert SignificantTerms(t, "") == {};
  }

  // A word of lower-case letters.
  ghost predicate PlainWord(t: Text, w: string)
  {
    |w| > 3 && w !in STOP_WORDS && t.lower(w) == w && forall i :: 0 <= i < |w| ==> 'a' <= w[i] <= 'z'
  }

  lemma PlainWordIsItsTerm(t: Text, w: string)
    requires PlainWord(t, w) && forall c :: 'a' <= c <= 'z' ==> !t.isSpace(c)
    ensures SignificantTerms(t, w) == {w}
  {
    SolidTokens(t.isSpace, w, "");
    assert "" + w == w;
    assert StrippedTo(Punctuation, w, 0, |w|, w);
    StripIff(Punctuation, w, w);
    assert Tokens(t.isSpace, w, "") == [w];
    var tokens := [w];
    assert CleanTokens(t, tokens) == {w} by { assert tokens[0] == w; }
  }

  ghost predicate PlainAlphabet(t: Text)
  {
    t.isSpace(' ') && !t.isSpace('.') && forall c :: 'a' <= c <= 'z' ==> !t.isSpace(c)
  }

  lemma OneMoreTerm(t: Text, s: string, w: string)
    requires PlainAlphabet(t) && PlainWord(t, w)
    ensures SignificantTerms(t, s + " " + w) == SignificantTerms(t, s) + {w}
  {
    TermsAreUnion(t, s, " ", w);
    PlainWordIsItsTerm(t, w);
  }

  function Four(a: string, b: string, c: string, d: string): string
  {
    a + " " + b + " " + c + " " + d
  }

  lemma TermsOfFour(t: Text, a: string, b: string, c: string, d: string)
    requires PlainAlphabet(t) && PlainWord(t, a) && PlainWord(t, b) && PlainWord(t, c) && PlainWord(t, d)
    ensures SignificantTerms(t, Four(a, b, c, d)) == {a, b, c, d}
  {
    PlainWordIsItsTerm(t, a);
    OneMoreTerm(t, a, b);
    OneMoreTerm(t, a + " " + b, c);
    OneMoreTerm(t, a + " " + b + " " + c, d);
  }

  // An answer that repeats the question's four words at length and with periods, and a rubric that names one.
  function BestRequest(a: string, b: string, c: string, d: string): Request
  {
    Request("", "", Four(a, b, c, d), Four(a, b, c, d) + " " + seq(320, _ => '.'), Some(a))
  }

  lemma SolidEnds(t: Text, text: string, dots: string)
    requires PlainAlphabet(t) && text != "" && !t.isSpace(text[0]) && |dots| >= 320
    requires forall i :: 0 <= i < |dots| ==> dots[i] == '.'
    ensures var a := text + " " + dots; IsStripped(t.isSpace, a, a) && |a| >= 320 && a[|a|-1] == '.'
  {
    var a := text + " " + dots;
    assert a[0] == text[0] && a[|a|-1] == dots[|dots|-1];
    assert StrippedTo(t.isSpace, a, 0, |a|, a);
  }

  lemma FourShared(question: set<string>, answer: set<string>, a: string, b: string, c: string, d: string)
    requires question == {a, b, c, d} && question <= answer && a != b && a != c && a != d && b != c && b != d && c != d
    ensures |question * answer| == 4
  {
    assert question * answer == question;
  }

  // Full marks are attained: with any four different words of lower-case letters.
  lemma BestRequestScoresAll(t: Text, a: string, b: string, c: string, d: string)
    requires PlainAlphabet(t) && PlainWord(t, a) && PlainWord(t, b) && PlainWord(t, c) && PlainWord(t, d)
    requires a != b && a != c && a != d && b != c && b != d && c != d
    ensures Score(t, BestRequest(a, b, c, d)).score == 100
  {
    var r, dots, words := BestRequest(a, b, c, d), seq(320, _ => '.'), Four(a, b, c, d);
    TermsOfFour(t, a, b, c, d);
    PlainWordIsItsTerm(t, a);
    TermsAreUnion(t, words, " ", dots);
    assert words[0] == a[0];
    SolidEnds(t, words, dots);
    FourShared(SignificantTerms(t, words), SignificantTerms(t, r.answer), a, b, c, d);
    ScoreIsWhatThePartsAreWorth(t, r, r.answer);
    assert a in SignificantTerms(t, a) && a in SignificantTerms(t, r.answer);
  }
}
