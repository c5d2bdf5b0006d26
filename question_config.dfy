/** The prompt template: the question configuration and `createPrompt`, which lays it
    out as bulleted sections around the requested count. */
module QuestionConfig {
  import opened JsStrings

  /** The shape of the configuration object. */
  datatype Config = Config(questionTypes: seq<string>, questionStyle: string,
                           avoidTopics: seq<string>, examples: seq<string>)

  /** The question types of the shipped configuration. */
  const QuestionTypes: seq<string> := [
      "favorite things",
      "travel and places",
      "food and dining",
      "entertainment (movies, music, books)",
      "memories and experiences",
      "dreams and goals",
      "relationship and feelings",
      "fun activities",
      "personal preferences",
      "gratitude and appreciation"
    ]

  /** The style text of the shipped configuration, line breaks and indentation included. */
  const QuestionStyle: string := "\n    - Personal but not too intimate\n    - Fun and conversation-starting  \n    - Suitable for couples or close friends\n    - Easy to answer and discuss\n    - Positive and uplifting tone\n    - Encouraging sharing and bonding\n  "

  /** The topics to avoid in the shipped configuration. */
  const AvoidTopics: seq<string> := [
      "overly intimate or sexual topics",
      "controversial political issues",
      "negative or depressing subjects",
      "deeply personal trauma",
      "financial details",
      "work stress or problems"
    ]

  /** The example questions of the shipped configuration. */
  const Examples: seq<string> := [
      "Name 3 favorite childhood snacks",
      "Name 3 places you want to visit together",
      "Name 3 songs that make you happy",
      "Name 3 things you're grateful for today",
      "Name 3 perfect date night activities",
      "Name 3 movies you could watch over and over",
      "Name 3 favorite ways to spend a Sunday",
      "Name 3 foods that remind you of home",
      "Name 3 adventures you'd love to try",
      "Name 3 things that always make you laugh"
    ]

  /** The configuration shipped with the application. */
  const DefaultConfig: Config := Config(QuestionTypes, QuestionStyle, AvoidTopics, Examples)

  /** The opening sentence, kept in short pieces so that each is checked on its own. */
  const Intro := IntroA + IntroB + IntroC + IntroD
  const IntroA := "You are creating conversation "
  const IntroB := "starter questions for couples "
  const IntroC := "or close friends to get to "
  const IntroD := "know each other better."
  const TypesHeader := "QUESTION TYPES TO INCLUDE:"
  const StyleHeader := "STYLE REQUIREMENTS:"
  const AvoidHeader := "AVOID THESE TOPICS:"
  const ExamplesHeader := "GOOD EXAMPLES:"
  const FormatLine := FormatStart + FormatMiddle + FormatEnd
  const FormatStart := "FORMAT: Return ONLY "
  const FormatMiddle := "the questions, one per line, "
  const FormatEnd := "each starting with \"Name 3\""

  const TaskPrefix := "TASK: Generate exactly "
  const TaskSuffix := TaskSuffixStart + TaskSuffixEnd
  const TaskSuffixStart := " unique \"Name 3\" questions "
  const TaskSuffixEnd := "that follow these guidelines."
  const FinalPrefix := "Generate "
  const FinalSuffix := " unique questions now:"

  /** The TASK line, with the count rendered in decimal. */
  function TaskLine(count: int): string {
    TaskPrefix + IntToString(count) + TaskSuffix
  }

  /** The closing line, with the count rendered in decimal. */
  function FinalLine(count: int): string {
    FinalPrefix + IntToString(count) + FinalSuffix
  }

  /** `items.map(item => `- ${item}`)`. */
  function BulletLines(items: seq<string>): seq<string> {
    seq(|items|, i requires 0 <= i < |items| => "- " + items[i])
  }

  /** `items.map(item => `- ${item}`).join('\n')`. */
  function Bullets(items: seq<string>): string {
    Join(BulletLines(items), '\n')
  }

  /** The template of `createPrompt` over a configuration. */
  function PromptFor(config: Config, count: int): string {
    Intro + "\n\n" + TypesHeader + "\n" + Bullets(config.questionTypes)
    + "\n\n" + StyleHeader + "\n" + config.questionStyle
    + "\n\n" + AvoidHeader + "\n" + Bullets(config.avoidTopics)
    + "\n\n" + ExamplesHeader + "\n" + Bullets(config.examples)
    + "\n\n" + TaskLine(count)
    + "\n\n" + FormatLine
    + "\n\n" + FinalLine(count)
  }

  /** `createPrompt(count)`. */
  function CreatePrompt(count: int): string {
    PromptFor(DefaultConfig, count)
  }

  /** The lines of the prompt, section by section and in order: a header line, then one
      `- ` line per list entry or the lines of the style text, with an empty line between
      sections. */
  function PromptLines(config: Config, count: int): seq<string> {
    [Intro] + [""] + [TypesHeader] + BulletLines(config.questionTypes)
    + [""] + [StyleHeader] + Split(config.questionStyle, '\n')
    + [""] + [AvoidHeader] + BulletLines(config.avoidTopics)
    + [""] + [ExamplesHeader] + BulletLines(config.examples)
    + [""] + [TaskLine(count)]
    + [""] + [FormatLine]
    + [""] + [FinalLine(count)]
  }

  /** Every list of the configuration has an entry. */
  predicate HasEntries(config: Config) {
    |config.questionTypes| >= 1 && |config.avoidTopics| >= 1 && |config.examples| >= 1
  }

  /** No entry of a list holds a line break. */
  predicate SingleLines(items: seq<string>) {
    forall i :: 0 <= i < |items| ==> '\n' !in items[i]
  }

  lemma JoinThen(l: seq<string>, m: seq<string>)
    requires |l| >= 1 && |m| >= 1
    ensures Join(l + m, '\n') == Join(l, '\n') + "\n" + Join(m, '\n')
  {
    JoinAppend(l, m, '\n');
  }

  lemma BlankLineText(p: string, t: string)
    ensures p + ['\n'] + "" + ['\n'] + t == p + "\n\n" + t
  {
    assert p + ['\n'] + "" == p + ['\n'];
  }

  lemma JoinBlankThen(l: seq<string>, t: string)
    requires |l| >= 1
    ensures Join(l + [""] + [t], '\n') == Join(l, '\n') + "\n\n" + t
  {
    var p := Join(l, '\n');
    JoinAppend(l, [""], '\n');
    assert Join([""], '\n') == "";
    JoinAppend(l + [""], [t], '\n');
    assert Join([t], '\n') == t;
    BlankLineText(p, t);
  }

  /** The prompt is its list of lines joined by line breaks. */
  lemma PromptIsJoinOfLines(config: Config, count: int)
    requires HasEntries(config)
    ensures PromptFor(config, count) == Join(PromptLines(config, count), '\n')
  {
    var types, style, avoid, examples :=
      config.questionTypes, config.questionStyle, config.avoidTopics, config.examples;
    var l1 := [Intro];
    var l3 := l1 + [""] + [TypesHeader];
    var l4 := l3 + BulletLines(types);
    var l6 := l4 + [""] + [StyleHeader];
    var l7 := l6 + Split(style, '\n');
    var l9 := l7 + [""] + [AvoidHeader];
    var l10 := l9 + BulletLines(avoid);
    var l12 := l10 + [""] + [ExamplesHeader];
    var l13 := l12 + BulletLines(examples);
    var l15 := l13 + [""] + [TaskLine(count)];
    var l17 := l15 + [""] + [FormatLine];
    var l19 := l17 + [""] + [FinalLine(count)];
    assert PromptLines(config, count) == l19;
    JoinBlankThen(l1, TypesHeader);
    JoinThen(l3, BulletLines(types));
    JoinBlankThen(l4, StyleHeader);
    JoinThen(l6, Split(style, '\n'));
    JoinSplit(style, '\n');
    JoinBlankThen(l7, AvoidHeader);
    JoinThen(l9, BulletLines(avoid));
    JoinBlankThen(l10, ExamplesHeader);
    JoinThen(l12, BulletLines(examples));
    JoinBlankThen(l13, TaskLine(count));
    JoinBlankThen(l15, FormatLine);
    JoinBlankThen(l17, FinalLine(count));
  }

  /** The bulleted block of a list splits back into its `- ` lines. */
  lemma BulletsSplit(items: seq<string>)
    requires |items| >= 1 && SingleLines(items)
    ensures Split(Bullets(items), '\n') == BulletLines(items)
  {
    var lines := BulletLines(items);
    forall k | 0 <= k < |lines| ensures '\n' !in lines[k] {
      assert lines[k] == "- " + items[k];
    }
    SplitJoin(lines, '\n');
  }

  // The fixed pieces of the template hold no line break. Each literal gets a lemma
  // of its own because a proof obligation about several string literals at once
  // costs the solver far more than the same facts taken one literal at a time; the
  // lemmas are gathered per line of the template in IntroSingleLine,
  // FormatSingleLine, HeadersSingleLine and CountLinesSingle below.

  lemma IntroASingleLine()
    ensures '\n' !in IntroA
  {
  }

  lemma IntroBSingleLine()
    ensures '\n' !in IntroB
  {
  }

  lemma IntroCSingleLine()
    ensures '\n' !in IntroC
  {
  }

  lemma IntroDSingleLine()
    ensures '\n' !in IntroD
  {
  }

  lemma FormatStartSingleLine()
    ensures '\n' !in FormatStart
  {
  }

  lemma FormatMiddleSingleLine()
    ensures '\n' !in FormatMiddle
  {
  }

  lemma FormatEndSingleLine()
    ensures '\n' !in FormatEnd
  {
  }

  lemma TypesHeaderSingleLine()
    ensures '\n' !in TypesHeader
  {
  }

  lemma StyleHeaderSingleLine()
    ensures '\n' !in StyleHeader
  {
  }

  lemma AvoidHeaderSingleLine()
    ensures '\n' !in AvoidHeader
  {
  }

  lemma ExamplesHeaderSingleLine()
    ensures '\n' !in ExamplesHeader
  {
  }

  lemma TaskPrefixSingleLine()
    ensures '\n' !in TaskPrefix
  {
  }

  lemma TaskSuffixStartSingleLine()
    ensures '\n' !in TaskSuffixStart
  {
  }

  lemma TaskSuffixEndSingleLine()
    ensures '\n' !in TaskSuffixEnd
  {
  }

  lemma FinalPrefixSingleLine()
    ensures '\n' !in FinalPrefix
  {
  }

  lemma FinalSuffixSingleLine()
    ensures '\n' !in FinalSuffix
  {
  }

  lemma IntroSingleLine()
    ensures '\n' !in Intro
  {
    IntroASingleLine();
    IntroBSingleLine();
    IntroCSingleLine();
    IntroDSingleLine();
  }

  lemma FormatSingleLine()
    ensures '\n' !in FormatLine
  {
    FormatStartSingleLine();
    FormatMiddleSingleLine();
    FormatEndSingleLine();
  }

  lemma HeadersSingleLine()
    ensures '\n' !in TypesHeader && '\n' !in StyleHeader
    ensures '\n' !in AvoidHeader && '\n' !in ExamplesHeader
  {
    TypesHeaderSingleLine();
    StyleHeaderSingleLine();
    AvoidHeaderSingleLine();
    ExamplesHeaderSingleLine();
  }

  lemma CountLinesSingle(count: int)
    ensures '\n' !in TaskLine(count) && '\n' !in FinalLine(count)
  {
    TaskPrefixSingleLine();
    TaskSuffixStartSingleLine();
    TaskSuffixEndSingleLine();
    FinalPrefixSingleLine();
    FinalSuffixSingleLine();
  }

  lemma SingleLinesAppend(x: seq<string>, y: seq<string>)
    requires SingleLines(x) && SingleLines(y)
    ensures SingleLines(x + y)
  {
  }

  lemma BulletLinesSingle(items: seq<string>)
    requires SingleLines(items)
    ensures SingleLines(BulletLines(items))
  {
    var lines := BulletLines(items);
    forall k | 0 <= k < |lines| ensures '\n' !in lines[k] {
      assert lines[k] == "- " + items[k];
    }
  }

  /** When no entry holds a line break, no line of the prompt does. */
  lemma PromptLinesSingle(config: Config, count: int)
    requires SingleLines(config.questionTypes) && SingleLines(config.avoidTopics)
    requires SingleLines(config.examples)
    ensures SingleLines(PromptLines(config, count))
  {
    var types, style, avoid, examples :=
      config.questionTypes, config.questionStyle, config.avoidTopics, config.examples;
    IntroSingleLine();
    FormatSingleLine();
    HeadersSingleLine();
    CountLinesSingle(count);
    BulletLinesSingle(types);
    BulletLinesSingle(avoid);
    BulletLinesSingle(examples);
    var l1 := [Intro];
    var l3 := l1 + [""] + [TypesHeader];
    var l4 := l3 + BulletLines(types);
    var l6 := l4 + [""] + [StyleHeader];
    var l7 := l6 + Split(style, '\n');
    var l9 := l7 + [""] + [AvoidHeader];
    var l10 := l9 + BulletLines(avoid);
    var l12 := l10 + [""] + [ExamplesHeader];
    var l13 := l12 + BulletLines(examples);
    var l15 := l13 + [""] + [TaskLine(count)];
    var l17 := l15 + [""] + [FormatLine];
    var l19 := l17 + [""] + [FinalLine(count)];
    assert PromptLines(config, count) == l19;
    assert SingleLines(l3);
    SingleLinesAppend(l3, BulletLines(types));
    assert SingleLines(l6);
    SingleLinesAppend(l6, Split(style, '\n'));
    assert SingleLines(l9);
    SingleLinesAppend(l9, BulletLines(avoid));
    assert SingleLines(l12);
    SingleLinesAppend(l12, BulletLines(examples));
    assert SingleLines(l15);
    assert SingleLines(l17);
  }

  /** Split at its line breaks, the prompt of a configuration whose entries are single
      lines gives back exactly its list of lines. */
  lemma PromptLinesSplit(config: Config, count: int)
    requires HasEntries(config) && SingleLines(config.questionTypes)
    requires SingleLines(config.avoidTopics) && SingleLines(config.examples)
    ensures Split(PromptFor(config, count), '\n') == PromptLines(config, count)
  {
    PromptIsJoinOfLines(config, count);
    PromptLinesSingle(config, count);
    SplitJoin(PromptLines(config, count), '\n');
  }

  /** The TASK line is the fifth line from the end, and the closing line the last. */
  lemma CountLinesPlace(config: Config, count: int)
    ensures var lines := PromptLines(config, count);
      lines[|lines| - 5] == TaskLine(count) && lines[|lines| - 1] == FinalLine(count)
  {
  }

  /** The count is written in decimal into the TASK line and the closing line, between
      spaces; reading the digits back gives the count. */
  lemma CountReadable(count: int)
    requires count >= 0
    ensures var digits := NatToString(count);
      && OccursAt(TaskLine(count), digits, |TaskPrefix|)
      && OccursAt(FinalLine(count), digits, |FinalPrefix|)
      && TaskLine(count)[|TaskPrefix| - 1] == ' ' && TaskLine(count)[|TaskPrefix| + |digits|] == ' '
      && FinalLine(count)[|FinalPrefix| - 1] == ' ' && FinalLine(count)[|FinalPrefix| + |digits|] == ' '
      && DigitsValue(digits) == count
  {
    NumberInLine(TaskPrefix, count, TaskSuffix);
    NumberInLine(FinalPrefix, count, FinalSuffix);
    assert TaskSuffix[0] == TaskSuffixStart[0];
  }

  /** A count written between two texts: its digits start right after the first text,
      which is what comes before them, and the second text's first character follows. */
  lemma NumberInLine(prefix: string, count: nat, suffix: string)
    requires |prefix| >= 1 && |suffix| >= 1
    ensures var line, digits := prefix + IntToString(count) + suffix, NatToString(count);
      && OccursAt(line, digits, |prefix|)
      && line[|prefix| - 1] == prefix[|prefix| - 1]
      && line[|prefix| + |digits|] == suffix[0]
      && DigitsValue(digits) == count
  {
    var digits := NatToString(count);
    NatToStringValue(count);
    var line := prefix + digits + suffix;
    assert line[|prefix|..|prefix| + |digits|] == digits;
  }

  /** An occurrence survives appending text after it. */
  lemma OccursAtExtended(x: string, y: string, sub: string, j: nat)
    requires OccursAt(x, sub, j)
    ensures OccursAt(x + y, sub, j)
  {
    assert (x + y)[j..j + |sub|] == x[j..j + |sub|];
  }

  lemma OccursAtExtendedBy(x: string, sep: string, y: string, sub: string, j: nat)
    requires OccursAt(x, sub, j)
    ensures OccursAt(x + sep + y, sub, j)
  {
    OccursAtExtended(x, sep, sub, j);
    OccursAtExtended(x + sep, y, sub, j);
  }

  /** In the shape of the template, the style section occurs right after the first
      section and its blank line, whatever the texts. */
  lemma StyleSectionOccurs(head: string, header: string, style: string, next: string,
                           avoid: string, exHeader: string, examples: string,
                           task: string, format: string, final: string)
    ensures OccursAt(head + "\n\n" + header + "\n" + style + "\n\n" + next + "\n" + avoid
                     + "\n\n" + exHeader + "\n" + examples + "\n\n" + task
                     + "\n\n" + format + "\n\n" + final,
                     header + "\n" + style + "\n\n" + next, |head| + 2)
  {
    var sub := header + "\n" + style + "\n\n" + next;
    var j := |head| + 2;
    var y := head + "\n\n" + header + "\n" + style + "\n\n" + next;
    assert y[j..j + |sub|] == sub;
    OccursAtExtendedBy(y, "\n", avoid, sub, j);
    y := y + "\n" + avoid;
    OccursAtExtendedBy(y, "\n\n", exHeader, sub, j);
    y := y + "\n\n" + exHeader;
    OccursAtExtendedBy(y, "\n", examples, sub, j);
    y := y + "\n" + examples;
    OccursAtExtendedBy(y, "\n\n", task, sub, j);
    y := y + "\n\n" + task;
    OccursAtExtendedBy(y, "\n\n", format, sub, j);
    y := y + "\n\n" + format;
    OccursAtExtendedBy(y, "\n\n", final, sub, j);
  }

  /** The style text is inserted verbatim, right below its header and followed by the
      section of topics to avoid. */
  lemma StyleVerbatim(config: Config, count: int)
    ensures Contains(PromptFor(config, count),
                     StyleHeader + "\n" + config.questionStyle + "\n\n" + AvoidHeader)
  {
    var head := Intro + "\n\n" + TypesHeader + "\n" + Bullets(config.questionTypes);
    StyleSectionOccurs(head, StyleHeader, config.questionStyle, AvoidHeader,
                       Bullets(config.avoidTopics), ExamplesHeader, Bullets(config.examples),
                       TaskLine(count), FormatLine, FinalLine(count));
  }
}
