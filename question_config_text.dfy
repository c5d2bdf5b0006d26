/** The shipped configuration fits the template's line structure: no entry holds a line
    break, so `createPrompt` puts each entry on a line of its own. The longer entries
    are checked in two halves. */
module QuestionConfigText {
  import opened JsStrings
  import opened QuestionConfig

  /** A text whose two halves hold no line break holds none. */
  lemma NoBreakInHalves(s: string, m: nat)
    requires m <= |s|
    requires forall k :: 0 <= k < m ==> s[k] != '\n'
    requires forall k :: m <= k < |s| ==> s[k] != '\n'
    ensures '\n' !in s
  {
  }

  // One lemma per entry, for the same reason as the per-piece lemmas of the template:
  // the solver handles one literal at a time far more cheaply than a whole list. An
  // entry of 28 characters or more is further checked in two index windows (Front and
  // Back) joined by NoBreakInHalves. The entries are gathered per list in
  // QuestionTypesSingleLines, AvoidTopicsSingleLines and ExamplesSingleLines.

  lemma Type0Single()
    ensures '\n' !in QuestionTypes[0]
  {
  }

  lemma Type1Single()
    ensures '\n' !in QuestionTypes[1]
  {
  }

  lemma Type2Single()
    ensures '\n' !in QuestionTypes[2]
  {
  }

  lemma Type3Front()
    ensures 18 <= |QuestionTypes[3]| && forall k :: 0 <= k < 18 ==> QuestionTypes[3][k] != '\n'
  {
  }

  lemma Type3Back()
    ensures forall k :: 18 <= k < |QuestionTypes[3]| ==> QuestionTypes[3][k] != '\n'
  {
  }

  lemma Type3Single()
    ensures '\n' !in QuestionTypes[3]
  {
    Type3Front();
    Type3Back();
    NoBreakInHalves(QuestionTypes[3], 18);
  }

  lemma Type4Single()
    ensures '\n' !in QuestionTypes[4]
  {
  }

  lemma Type5Single()
    ensures '\n' !in QuestionTypes[5]
  {
  }

  lemma Type6Single()
    ensures '\n' !in QuestionTypes[6]
  {
  }

  lemma Type7Single()
    ensures '\n' !in QuestionTypes[7]
  {
  }

  lemma Type8Single()
    ensures '\n' !in QuestionTypes[8]
  {
  }

  lemma Type9Single()
    ensures '\n' !in QuestionTypes[9]
  {
  }

  lemma Avoid0Front()
    ensures 16 <= |AvoidTopics[0]| && forall k :: 0 <= k < 16 ==> AvoidTopics[0][k] != '\n'
  {
  }

  lemma Avoid0Back()
    ensures forall k :: 16 <= k < |AvoidTopics[0]| ==> AvoidTopics[0][k] != '\n'
  {
  }

  lemma Avoid0Single()
    ensures '\n' !in AvoidTopics[0]
  {
    Avoid0Front();
    Avoid0Back();
    NoBreakInHalves(AvoidTopics[0], 16);
  }

  lemma Avoid1Front()
    ensures 15 <= |AvoidTopics[1]| && forall k :: 0 <= k < 15 ==> AvoidTopics[1][k] != '\n'
  {
  }

  lemma Avoid1Back()
    ensures forall k :: 15 <= k < |AvoidTopics[1]| ==> AvoidTopics[1][k] != '\n'
  {
  }

  lemma Avoid1Single()
    ensures '\n' !in AvoidTopics[1]
  {
    Avoid1Front();
    Avoid1Back();
    NoBreakInHalves(AvoidTopics[1], 15);
  }

  lemma Avoid2Front()
    ensures 15 <= |AvoidTopics[2]| && forall k :: 0 <= k < 15 ==> AvoidTopics[2][k] != '\n'
  {
  }

  lemma Avoid2Back()
    ensures forall k :: 15 <= k < |AvoidTopics[2]| ==> AvoidTopics[2][k] != '\n'
  {
  }

  lemma Avoid2Single()
    ensures '\n' !in AvoidTopics[2]
  {
    Avoid2Front();
    Avoid2Back();
    NoBreakInHalves(AvoidTopics[2], 15);
  }

  lemma Avoid3Single()
    ensures '\n' !in AvoidTopics[3]
  {
  }

  lemma Avoid4Single()
    ensures '\n' !in AvoidTopics[4]
  {
  }

  lemma Avoid5Single()
    ensures '\n' !in AvoidTopics[5]
  {
  }

  lemma Example0Front()
    ensures 16 <= |Examples[0]| && forall k :: 0 <= k < 16 ==> Examples[0][k] != '\n'
  {
  }

  lemma Example0Back()
    ensures forall k :: 16 <= k < |Examples[0]| ==> Examples[0][k] != '\n'
  {
  }

  lemma Example0Single()
    ensures '\n' !in Examples[0]
  {
    Example0Front();
    Example0Back();
    NoBreakInHalves(Examples[0], 16);
  }

  lemma Example1Front()
    ensures 20 <= |Examples[1]| && forall k :: 0 <= k < 20 ==> Examples[1][k] != '\n'
  {
  }

  lemma Example1Back()
    ensures forall k :: 20 <= k < |Examples[1]| ==> Examples[1][k] != '\n'
  {
  }

  lemma Example1Single()
    ensures '\n' !in Examples[1]
  {
    Example1Front();
    Example1Back();
    NoBreakInHalves(Examples[1], 20);
  }

  lemma Example2Front()
    ensures 16 <= |Examples[2]| && forall k :: 0 <= k < 16 ==> Examples[2][k] != '\n'
  {
  }

  lemma Example2Back()
    ensures forall k :: 16 <= k < |Examples[2]| ==> Examples[2][k] != '\n'
  {
  }

  lemma Example2Single()
    ensures '\n' !in Examples[2]
  {
    Example2Front();
    Example2Back();
    NoBreakInHalves(Examples[2], 16);
  }

  lemma Example3Front()
    ensures 19 <= |Examples[3]| && forall k :: 0 <= k < 19 ==> Examples[3][k] != '\n'
  {
  }

  lemma Example3Back()
    ensures forall k :: 19 <= k < |Examples[3]| ==> Examples[3][k] != '\n'
  {
  }

  lemma Example3Single()
    ensures '\n' !in Examples[3]
  {
    Example3Front();
    Example3Back();
    NoBreakInHalves(Examples[3], 19);
  }

  lemma Example4Front()
    ensures 18 <= |Examples[4]| && forall k :: 0 <= k < 18 ==> Examples[4][k] != '\n'
  {
  }

  lemma Example4Back()
    ensures forall k :: 18 <= k < |Examples[4]| ==> Examples[4][k] != '\n'
  {
  }

  lemma Example4Single()
    ensures '\n' !in Examples[4]
  {
    Example4Front();
    Example4Back();
    NoBreakInHalves(Examples[4], 18);
  }

  lemma Example5Front()
    ensures 21 <= |Examples[5]| && forall k :: 0 <= k < 21 ==> Examples[5][k] != '\n'
  {
  }

  lemma Example5Back()
    ensures forall k :: 21 <= k < |Examples[5]| ==> Examples[5][k] != '\n'
  {
  }

  lemma Example5Single()
    ensures '\n' !in Examples[5]
  {
    Example5Front();
    Example5Back();
    NoBreakInHalves(Examples[5], 21);
  }

  lemma Example6Front()
    ensures 19 <= |Examples[6]| && forall k :: 0 <= k < 19 ==> Examples[6][k] != '\n'
  {
  }

  lemma Example6Back()
    ensures forall k :: 19 <= k < |Examples[6]| ==> Examples[6][k] != '\n'
  {
  }

  lemma Example6Single()
    ensures '\n' !in Examples[6]
  {
    Example6Front();
    Example6Back();
    NoBreakInHalves(Examples[6], 19);
  }

  lemma Example7Front()
    ensures 18 <= |Examples[7]| && forall k :: 0 <= k < 18 ==> Examples[7][k] != '\n'
  {
  }

  lemma Example7Back()
    ensures forall k :: 18 <= k < |Examples[7]| ==> Examples[7][k] != '\n'
  {
  }

  lemma Example7Single()
    ensures '\n' !in Examples[7]
  {
    Example7Front();
    Example7Back();
    NoBreakInHalves(Examples[7], 18);
  }

  lemma Example8Front()
    ensures 17 <= |Examples[8]| && forall k :: 0 <= k < 17 ==> Examples[8][k] != '\n'
  {
  }

  lemma Example8Back()
    ensures forall k :: 17 <= k < |Examples[8]| ==> Examples[8][k] != '\n'
  {
  }

  lemma Example8Single()
    ensures '\n' !in Examples[8]
  {
    Example8Front();
    Example8Back();
    NoBreakInHalves(Examples[8], 17);
  }

  lemma Example9Front()
    ensures 20 <= |Examples[9]| && forall k :: 0 <= k < 20 ==> Examples[9][k] != '\n'
  {
  }

  lemma Example9Back()
    ensures forall k :: 20 <= k < |Examples[9]| ==> Examples[9][k] != '\n'
  {
  }

  lemma Example9Single()
    ensures '\n' !in Examples[9]
  {
    Example9Front();
    Example9Back();
    NoBreakInHalves(Examples[9], 20);
  }

  lemma QuestionTypesSingleLines()
    ensures SingleLines(QuestionTypes)
  {
    Type0Single();
    Type1Single();
    Type2Single();
    Type3Single();
    Type4Single();
    Type5Single();
    Type6Single();
    Type7Single();
    Type8Single();
    Type9Single();
    assert forall i :: 0 <= i < 10 ==> '\n' !in QuestionTypes[i];
  }

  lemma AvoidTopicsSingleLines()
    ensures SingleLines(AvoidTopics)
  {
    Avoid0Single();
    Avoid1Single();
    Avoid2Single();
    Avoid3Single();
    Avoid4Single();
    Avoid5Single();
    assert forall i :: 0 <= i < 6 ==> '\n' !in AvoidTopics[i];
  }

  lemma ExamplesSingleLines()
    ensures SingleLines(Examples)
  {
    Example0Single();
    Example1Single();
    Example2Single();
    Example3Single();
    Example4Single();
    Example5Single();
    Example6Single();
    Example7Single();
    Example8Single();
    Example9Single();
    assert forall i :: 0 <= i < 10 ==> '\n' !in Examples[i];
  }

  /** Every list of the shipped configuration has entries, none holding a line break. */
  lemma DefaultConfigSingleLines()
    ensures HasEntries(DefaultConfig)
    ensures SingleLines(QuestionTypes) && SingleLines(AvoidTopics) && SingleLines(Examples)
  {
    QuestionTypesSingleLines();
    AvoidTopicsSingleLines();
    ExamplesSingleLines();
  }

  /** `createPrompt` puts every line of the shipped configuration on a line of its own:
      split at its line breaks, the prompt is exactly its list of lines. */
  lemma CreatePromptLines(count: int)
    ensures Split(CreatePrompt(count), '\n') == PromptLines(DefaultConfig, count)
  {
    DefaultConfigSingleLines();
    PromptLinesSplit(DefaultConfig, count);
  }
}
