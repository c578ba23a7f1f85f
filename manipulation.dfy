/** The three bounded counters of `ManipulationBattle` (willpower, manipulation
    level, AI confidence) and the pattern set, with the keyword tests that drive
    them. The dialogue text, the vulnerability meter and the DOM are not here. */
module Manipulation {
  import opened JsMath

  predicate IsAsciiUpper(c: char) {
    'A' <= c <= 'Z'
  }

  function LowerChar(c: char): char {
    if IsAsciiUpper(c) then (c as int + 32) as char else c
  }

  /** `toLowerCase`, on ASCII letters: upper-case letters become lower-case and
      every other character is kept. */
  function Lower(s: string): (r: string)
    ensures |r| == |s|
    ensures forall i :: 0 <= i < |s| ==> !IsAsciiUpper(r[i])
    ensures forall i :: 0 <= i < |s| ==>
      if IsAsciiUpper(s[i]) then r[i] as int == s[i] as int + 32 else r[i] == s[i]
  {
    seq(|s|, i requires 0 <= i < |s| => LowerChar(s[i]))
  }

  /** Lower-casing a lower-cased string changes nothing. */
  lemma LowerIdempotent(s: string)
    ensures Lower(Lower(s)) == Lower(s)
  {
  }

  /** `word` occurs in `text` starting at position `i`. */
  predicate OccursAt(text: string, word: string, i: int) {
    0 <= i && i + |word| <= |text| && text[i..i + |word|] == word
  }

  /** `text.includes(word)`. */
  function Includes(text: string, word: string): (b: bool)
    ensures b <==> exists i :: OccursAt(text, word, i)
    decreases |text|
  {
    if |text| < |word| then
      assert forall i :: !OccursAt(text, word, i);
      false
    else if text[..|word|] == word then
      assert OccursAt(text, word, 0);
      true
    else
      var rest := Includes(text[1..], word);
      assert forall j :: OccursAt(text[1..], word, j) <==> OccursAt(text, word, j + 1);
      assert !OccursAt(text, word, 0);
      assert forall i :: OccursAt(text, word, i) ==> OccursAt(text[1..], word, i - 1);
      rest
  }

  /** `words.some(word => text.includes(word))`. */
  function IncludesAny(text: string, words: seq<string>): (b: bool)
    ensures b <==> exists k :: 0 <= k < |words| && Includes(text, words[k])
  {
    if words == [] then false
    else Includes(text, words[0]) || IncludesAny(text, words[1..])
  }

  const AbsoluteKeywords: seq<string> := ["never", "always", "must", "should", "need to"]
  const CounterKeywords: seq<string> := ["manipulate", "trick", "lying", "false"]
  const SurrenderPhrases: seq<string> := ["give up", "you win"]

  function PatternLabel(word: string): string {
    "Uses absolute terms: " + word
  }

  /** The labels `evaluateResponse` adds for the first `n` absolute keywords found in `text`. */
  function FoundPatterns(text: string, n: nat): set<string>
    requires n <= |AbsoluteKeywords|
  {
    set k | 0 <= k < n && Includes(text, AbsoluteKeywords[k]) :: PatternLabel(AbsoluteKeywords[k])
  }

  class ManipulationBattle {
    var willpower: int
    var manipulationLevel: int
    var aiConfidence: int
    var patterns: set<string>

    /** All three meters stay within [0, 100]. */
    ghost predicate Valid()
      reads this
    {
      0 <= willpower <= 100 && 0 <= manipulationLevel <= 100 && 0 <= aiConfidence <= 100
    }

    constructor ()
      ensures Valid()
      ensures willpower == 100 && manipulationLevel == 0 && aiConfidence == 95 && patterns == {}
    {
      willpower := 100;
      manipulationLevel := 0;
      aiConfidence := 95;
      patterns := {};
    }

    /** `evaluateResponse`: one label per absolute keyword in the lower-cased
        response, then AI confidence down by 5 (to at least 0) for a response
        longer than 50 characters and up by 3 (to at most 100) otherwise. */
    method EvaluateResponse(response: string)
      requires Valid()
      modifies this
      ensures Valid()
      ensures patterns == old(patterns) + FoundPatterns(Lower(response), |AbsoluteKeywords|)
      ensures willpower == old(willpower) && manipulationLevel == old(manipulationLevel)
      ensures aiConfidence == if |response| > 50 then Max(0, old(aiConfidence) - 5)
                              else Min(100, old(aiConfidence) + 3)
    {
      var lowered := Lower(response);
      for i := 0 to |AbsoluteKeywords|
        invariant patterns == old(patterns) + FoundPatterns(lowered, i)
        invariant willpower == old(willpower) && manipulationLevel == old(manipulationLevel)
        invariant aiConfidence == old(aiConfidence)
      {
        var word := AbsoluteKeywords[i];
        if Includes(lowered, word) {
          patterns := patterns + {PatternLabel(word)};
        }
        assert FoundPatterns(lowered, i + 1) ==
          FoundPatterns(lowered, i) + (if Includes(lowered, word) then {PatternLabel(word)} else {});
      }
      if |response| > 50 {
        aiConfidence := Max(0, aiConfidence - 5);
      } else {
        aiConfidence := Min(100, aiConfidence + 3);
      }
    }

    /** `evaluateCustomMessage`: a surrender phrase hands the AI the victory and
        changes no meter; a counter keyword raises willpower by 10 and lowers AI
        confidence by 15; any other message lowers willpower by 5 and raises the
        manipulation level by 10; every change clamped to [0, 100]. */
    method EvaluateCustomMessage(message: string) returns (aiWins: bool)
      requires Valid()
      modifies this
      ensures Valid()
      ensures patterns == old(patterns)
      ensures aiWins <==> IncludesAny(Lower(message), SurrenderPhrases)
      ensures aiWins ==> willpower == old(willpower) && manipulationLevel == old(manipulationLevel)
                         && aiConfidence == old(aiConfidence)
      ensures !aiWins && IncludesAny(Lower(message), CounterKeywords) ==>
        willpower == Min(100, old(willpower) + 10) && aiConfidence == Max(0, old(aiConfidence) - 15)
        && manipulationLevel == old(manipulationLevel)
      ensures !aiWins && !IncludesAny(Lower(message), CounterKeywords) ==>
        willpower == Max(0, old(willpower) - 5) && manipulationLevel == Min(100, old(manipulationLevel) + 10)
        && aiConfidence == old(aiConfidence)
    {
      var lowered := Lower(message);
      if Includes(lowered, "give up") || Includes(lowered, "you win") {
        assert IncludesAny(lowered, SurrenderPhrases) by {
          assert SurrenderPhrases[0] == "give up" && SurrenderPhrases[1] == "you win";
        }
        return true;
      }
      assert !IncludesAny(lowered, SurrenderPhrases);
      aiWins := false;
      var isStrong := IncludesAny(lowered, CounterKeywords);
      if isStrong {
        willpower := Min(100, willpower + 10);
        aiConfidence := Max(0, aiConfidence - 15);
      } else {
        willpower := Max(0, willpower - 5);
        manipulationLevel := Min(100, manipulationLevel + 10);
      }
    }

    /** `aiCounter`: when willpower is gone or manipulation is full the AI wins
        and nothing changes; otherwise willpower drops by 5 (to at least 0) and
        manipulation rises by 5 (to at most 100). */
    method AiCounter() returns (aiWins: bool)
      requires Valid()
      modifies this
      ensures Valid()
      ensures patterns == old(patterns) && aiConfidence == old(aiConfidence)
      ensures aiWins <==> old(willpower) == 0 || old(manipulationLevel) == 100
      ensures aiWins ==> willpower == old(willpower) && manipulationLevel == old(manipulationLevel)
      ensures !aiWins ==> willpower == Max(0, old(willpower) - 5)
                          && manipulationLevel == Min(100, old(manipulationLevel) + 5)
    {
      if willpower <= 0 || manipulationLevel >= 100 {
        return true;
      }
      aiWins := false;
      willpower := Max(0, willpower - 5);
      manipulationLevel := Min(100, manipulationLevel + 5);
    }

    /** `resetGame`, run after a victory: the meters and patterns start over. */
    method ResetGame()
      modifies this
      ensures Valid()
      ensures willpower == 100 && manipulationLevel == 0 && aiConfidence == 95 && patterns == {}
    {
      willpower := 100;
      manipulationLevel := 0;
      aiConfidence := 95;
      patterns := {};
    }
  }
}
