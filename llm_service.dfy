/** The question pipeline of the LLM service: the keyword categoriser, the sampler
    over the built-in question bank, the parser that turns a completion into a batch,
    and the choice between a sampled batch and a parsed one. */
module LlmService {
  import opened Wrappers
  import opened JsStrings
  import opened Questions

  // ---------------------------------------------------------------------------
  // Category labels and the keyword classifier

  const FoodDining := "Food & Dining"
  const TravelAdventure := "Travel & Adventure"
  const Entertainment := "Entertainment"
  const Relationship := "Relationship"
  const DreamsGoals := "Dreams & Goals"
  const Memories := "Memories"
  const Personal := "Personal"

  /** The seven labels the classifier can produce. */
  const Labels: set<string> :=
    {FoodDining, TravelAdventure, Entertainment, Relationship, DreamsGoals, Memories, Personal}

  /** `categorizeQuestion`: the first keyword family, in a fixed order, with a keyword
      occurring in the lower-cased text decides the label; "Personal" otherwise. */
  function Categorize(questionText: string): (category: string)
    ensures category in Labels
  {
    var text := ToLower(questionText);
    if Contains(text, "food") || Contains(text, "eat") || Contains(text, "cook") || Contains(text, "dessert") then
      FoodDining
    else if Contains(text, "travel") || Contains(text, "place") || Contains(text, "vacation") || Contains(text, "adventure") then
      TravelAdventure
    else if Contains(text, "music") || Contains(text, "song") || Contains(text, "movie") || Contains(text, "book") then
      Entertainment
    else if Contains(text, "love") || Contains(text, "romantic") || Contains(text, "date") || Contains(text, "relationship") then
      Relationship
    else if Contains(text, "dream") || Contains(text, "goal") || Contains(text, "future") || Contains(text, "want") then
      DreamsGoals
    else if Contains(text, "childhood") || Contains(text, "memory") || Contains(text, "past") then
      Memories
    else
      Personal
  }

  /** A keyword family and the label it gives. */
  datatype Family = Family(keywords: seq<string>, category: string)

  /** The families in the order the classifier tries them. */
  const Families: seq<Family> := [
    Family(["food", "eat", "cook", "dessert"], FoodDining),
    Family(["travel", "place", "vacation", "adventure"], TravelAdventure),
    Family(["music", "song", "movie", "book"], Entertainment),
    Family(["love", "romantic", "date", "relationship"], Relationship),
    Family(["dream", "goal", "future", "want"], DreamsGoals),
    Family(["childhood", "memory", "past"], Memories)
  ]

  /** Some keyword of `family` occurs in `text`. */
  predicate Hits(text: string, family: Family) {
    exists w :: w in family.keywords && Contains(text, w)
  }

  /** Reference reading of a priority classifier: the label of the first family that
      hits, or "Personal" when none does. */
  function FirstHit(text: string, families: seq<Family>): string
    decreases |families|
  {
    if families == [] then Personal
    else if Hits(text, families[0]) then families[0].category
    else FirstHit(text, families[1..])
  }

  /** The first family that hits decides `FirstHit`. */
  lemma {:induction false} FirstHitIsEarliest(text: string, families: seq<Family>, k: nat)
    requires k < |families| && Hits(text, families[k])
    requires forall j :: 0 <= j < k ==> !Hits(text, families[j])
    ensures FirstHit(text, families) == families[k].category
    decreases k
  {
    if k > 0 {
      assert !Hits(text, families[0]);
      FirstHitIsEarliest(text, families[1..], k - 1);
    }
  }

  /** When no family hits, `FirstHit` gives "Personal". */
  lemma {:induction false} FirstHitDefault(text: string, families: seq<Family>)
    requires forall j :: 0 <= j < |families| ==> !Hits(text, families[j])
    ensures FirstHit(text, families) == Personal
    decreases |families|
  {
    if families != [] {
      assert !Hits(text, families[0]);
      FirstHitDefault(text, families[1..]);
    }
  }

  /** The priority search over `Families`, unfolded. */
  lemma FirstHitUnfolded(text: string)
    ensures FirstHit(text, Families) ==
      if Hits(text, Families[0]) then FoodDining
      else if Hits(text, Families[1]) then TravelAdventure
      else if Hits(text, Families[2]) then Entertainment
      else if Hits(text, Families[3]) then Relationship
      else if Hits(text, Families[4]) then DreamsGoals
      else if Hits(text, Families[5]) then Memories
      else Personal
  {
    var fs := Families;
    var f1, f2, f3, f4, f5, f6 := fs[1..], fs[2..], fs[3..], fs[4..], fs[5..], fs[6..];
    assert f1[1..] == f2 && f2[1..] == f3 && f3[1..] == f4 && f4[1..] == f5 && f5[1..] == f6;
    assert f1[0] == fs[1] && f2[0] == fs[2] && f3[0] == fs[3] && f4[0] == fs[4] && f5[0] == fs[5];
    assert f6 == [];
    assert FirstHit(text, f5) == if Hits(text, fs[5]) then Memories else Personal;
    assert FirstHit(text, f4) == if Hits(text, fs[4]) then DreamsGoals else FirstHit(text, f5);
    assert FirstHit(text, f3) == if Hits(text, fs[3]) then Relationship else FirstHit(text, f4);
    assert FirstHit(text, f2) == if Hits(text, fs[2]) then Entertainment else FirstHit(text, f3);
    assert FirstHit(text, f1) == if Hits(text, fs[1]) then TravelAdventure else FirstHit(text, f2);
  }

  /** Each family hits exactly when one of the keywords the classifier tests occurs. */
  lemma FamilyKeywords(text: string)
    ensures Hits(text, Families[0]) <==> Contains(text, "food") || Contains(text, "eat") || Contains(text, "cook") || Contains(text, "dessert")
    ensures Hits(text, Families[1]) <==> Contains(text, "travel") || Contains(text, "place") || Contains(text, "vacation") || Contains(text, "adventure")
    ensures Hits(text, Families[2]) <==> Contains(text, "music") || Contains(text, "song") || Contains(text, "movie") || Contains(text, "book")
    ensures Hits(text, Families[3]) <==> Contains(text, "love") || Contains(text, "romantic") || Contains(text, "date") || Contains(text, "relationship")
    ensures Hits(text, Families[4]) <==> Contains(text, "dream") || Contains(text, "goal") || Contains(text, "future") || Contains(text, "want")
    ensures Hits(text, Families[5]) <==> Contains(text, "childhood") || Contains(text, "memory") || Contains(text, "past")
  {
    FourKeywords(text, "food", "eat", "cook", "dessert", FoodDining);
    FourKeywords(text, "travel", "place", "vacation", "adventure", TravelAdventure);
    FourKeywords(text, "music", "song", "movie", "book", Entertainment);
    FourKeywords(text, "love", "romantic", "date", "relationship", Relationship);
    FourKeywords(text, "dream", "goal", "future", "want", DreamsGoals);
    ThreeKeywords(text, "childhood", "memory", "past", Memories);
  }

  lemma FourKeywords(text: string, a: string, b: string, c: string, d: string, category: string)
    ensures Hits(text, Family([a, b, c, d], category)) <==>
      Contains(text, a) || Contains(text, b) || Contains(text, c) || Contains(text, d)
  {
    var keywords := [a, b, c, d];
    assert keywords[0] == a && keywords[1] == b && keywords[2] == c && keywords[3] == d;
  }

  lemma ThreeKeywords(text: string, a: string, b: string, c: string, category: string)
    ensures Hits(text, Family([a, b, c], category)) <==> Contains(text, a) || Contains(text, b) || Contains(text, c)
  {
    var keywords := [a, b, c];
    assert keywords[0] == a && keywords[1] == b && keywords[2] == c;
  }

  /** The if/else chain of the classifier is the priority search over `Families`. */
  lemma CategorizeIsFirstHit(questionText: string)
    ensures Categorize(questionText) == FirstHit(ToLower(questionText), Families)
  {
    FirstHitUnfolded(ToLower(questionText));
    FamilyKeywords(ToLower(questionText));
  }

  /** Priority: the label is that of the earliest family with a keyword in the
      lower-cased text, and "Personal" exactly when no family has one. */
  lemma CategorizeByPriority(questionText: string, k: nat)
    requires k < |Families| && Hits(ToLower(questionText), Families[k])
    requires forall j :: 0 <= j < k ==> !Hits(ToLower(questionText), Families[j])
    ensures Categorize(questionText) == Families[k].category
  {
    CategorizeIsFirstHit(questionText);
    FirstHitIsEarliest(ToLower(questionText), Families, k);
  }

  lemma CategorizeDefault(questionText: string)
    requires forall j :: 0 <= j < |Families| ==> !Hits(ToLower(questionText), Families[j])
    ensures Categorize(questionText) == Personal
  {
    CategorizeIsFirstHit(questionText);
    FirstHitDefault(ToLower(questionText), Families);
  }

  /** The classifier ignores letter case. */
  lemma CategorizeIgnoresCase(questionText: string)
    ensures Categorize(questionText) == Categorize(ToLower(questionText))
  {
    ToLowerIdempotent(questionText);
  }

  // ---------------------------------------------------------------------------
  // The question bank and the sampler

  datatype BankEntry = BankEntry(text: string, category: string)

  /** The fixed bank of 25 questions with their labels. */
  const Bank: seq<BankEntry> := [
    BankEntry("Name 3 favorite foods", FoodDining),
    BankEntry("Name 3 places you want to travel", TravelAdventure),
    BankEntry("Name 3 songs you both love", Entertainment),
    BankEntry("Name 3 funny habits", Personal),
    BankEntry("Name 3 movies to rewatch", Entertainment),
    BankEntry("Name 3 dream jobs", DreamsGoals),
    BankEntry("Name 3 romantic date ideas", Relationship),
    BankEntry("Name 3 weekend activities", Personal),
    BankEntry("Name 3 favorite desserts", FoodDining),
    BankEntry("Name 3 things you admire about each other", Relationship),
    BankEntry("Name 3 childhood memories", Memories),
    BankEntry("Name 3 goals for next year", DreamsGoals),
    BankEntry("Name 3 favorite seasons and why", Personal),
    BankEntry("Name 3 skills you want to learn", DreamsGoals),
    BankEntry("Name 3 books that changed your life", Entertainment),
    BankEntry("Name 3 perfect vacation activities", TravelAdventure),
    BankEntry("Name 3 ways to show love", Relationship),
    BankEntry("Name 3 favorite family traditions", Memories),
    BankEntry("Name 3 things that make you laugh", Personal),
    BankEntry("Name 3 dream adventures", TravelAdventure),
    BankEntry("Name 3 hobbies you'd like to try", Personal),
    BankEntry("Name 3 ways to relax", Personal),
    BankEntry("Name 3 favorite childhood games", Memories),
    BankEntry("Name 3 things you're grateful for", Personal),
    BankEntry("Name 3 perfect morning activities", Personal)
  ]

  /** No two bank entries share a text, and every bank label is one of the seven. */
  lemma BankWellFormed()
    ensures |Bank| == 25
    ensures forall i, j :: 0 <= i < j < |Bank| ==> Bank[i].text != Bank[j].text
    ensures forall i :: 0 <= i < |Bank| ==> Bank[i].category in Labels
  {
    BankRowsDistinct0To3();
    BankRowsDistinct3To8();
    BankRowsDistinct8To14();
    BankRowsDistinct14To25();
  }

  // The distinctness of the bank texts, checked a few rows at a time.
  lemma BankRowsDistinct0To3()
    ensures forall i, j :: 0 <= i < 3 && i < j < |Bank| ==> Bank[i].text != Bank[j].text
  {
  }

  lemma BankRowsDistinct3To8()
    ensures forall i, j :: 3 <= i < 8 && i < j < |Bank| ==> Bank[i].text != Bank[j].text
  {
  }

  lemma BankRowsDistinct8To14()
    ensures forall i, j :: 8 <= i < 14 && i < j < |Bank| ==> Bank[i].text != Bank[j].text
  {
  }

  lemma BankRowsDistinct14To25()
    ensures forall i, j :: 14 <= i < 25 && i < j < |Bank| ==> Bank[i].text != Bank[j].text
  {
  }

  /** An ordering of the bank: a sequence of distinct bank positions covering the bank. */
  predicate IsShuffle(p: seq<int>) {
    && |p| == |Bank|
    && (forall i :: 0 <= i < |p| ==> 0 <= p[i] < |Bank|)
    && (forall i, j :: 0 <= i < j < |p| ==> p[i] != p[j])
  }

  /** The order that one `sort` with a random comparator leaves the bank copy in. */
  type Shuffle = p: seq<int> | IsShuffle(p) witness seq(25, i => i)

  /** `generateEnhancedMockQuestions`: the first `count` questions (as `slice` counts them)
      of the bank reordered by `shuffle`, numbered from 1. */
  function GenerateEnhancedMockQuestions(count: int, shuffle: Shuffle): (r: seq<Question>)
    ensures |r| == SliceLength(|Bank|, count)
    ensures 0 <= count ==> |r| == if count < |Bank| then count else |Bank|
    ensures IdsFromOne(r)
    ensures forall i :: 0 <= i < |r| ==>
              r[i].text == Bank[shuffle[i]].text && r[i].category == Some(Bank[shuffle[i]].category)
  {
    var shuffled := seq(|Bank|, i requires 0 <= i < |Bank| => Bank[shuffle[i]]);
    var taken := shuffled[..SliceLength(|shuffled|, count)];
    seq(|taken|, index requires 0 <= index < |taken| =>
      Question(index + 1, taken[index].text, Some(taken[index].category)))
  }

  /** A sample never repeats a bank question, and every label in it is one of the seven. */
  lemma MockQuestionsDistinct(count: int, shuffle: Shuffle)
    ensures var r := GenerateEnhancedMockQuestions(count, shuffle);
      && (forall i, j :: 0 <= i < j < |r| ==> r[i].text != r[j].text)
      && (forall i :: 0 <= i < |r| ==> r[i].category.Some? && r[i].category.value in Labels)
  {
    BankWellFormed();
    var r := GenerateEnhancedMockQuestions(count, shuffle);
    forall i, j | 0 <= i < j < |r| ensures r[i].text != r[j].text {
      assert shuffle[i] != shuffle[j];
      if shuffle[i] < shuffle[j] {
        assert Bank[shuffle[i]].text != Bank[shuffle[j]].text;
      } else {
        assert Bank[shuffle[j]].text != Bank[shuffle[i]].text;
      }
    }
  }

  // ---------------------------------------------------------------------------
  // Parsing a completion

  /** The bullet characters the parser strips: hyphen, asterisk and U+2022. */
  predicate IsBullet(c: char) {
    c == '-' || c == '*' || c == '\U{2022}'
  }

  /** `line.replace` with the pattern `^[-*•]\s*` and an empty replacement: one bullet in the very first position is removed
      together with the whitespace after it; anything else is left as it is. */
  function StripBullet(line: string): string {
    if line != [] && IsBullet(line[0]) then TrimStart(line[1..]) else line
  }

  /** The cleaned line: bullet stripped, then trimmed. */
  function CleanLine(line: string): string {
    Trim(StripBullet(line))
  }

  /** The parser keeps a line when its cleaned, lower-cased form starts with "name 3". */
  predicate Keeps(line: string) {
    StartsWith(ToLower(CleanLine(line)), "name 3")
  }

  /** The lines of a completion whose trimmed form is non-empty, in order. */
  function NonBlank(lines: seq<string>): seq<string>
    decreases |lines|
  {
    if lines == [] then []
    else if Trim(lines[0]) != [] then [lines[0]] + NonBlank(lines[1..])
    else NonBlank(lines[1..])
  }

  /** The filter keeps exactly the lines that do not trim to nothing. */
  lemma {:induction false} NonBlankSpec(lines: seq<string>)
    ensures var r := NonBlank(lines);
      && (forall k :: 0 <= k < |r| ==> Trim(r[k]) != [] && r[k] in lines)
      && (forall k :: 0 <= k < |lines| && Trim(lines[k]) != [] ==> lines[k] in r)
      && |r| <= |lines|
    decreases |lines|
  {
    if lines != [] {
      NonBlankSpec(lines[1..]);
      forall k | 1 <= k < |lines| ensures lines[k] == lines[1..][k - 1] { }
    }
  }

  /** The filter works line by line: filtering a concatenation concatenates the
      filtered parts, so it keeps the order and the repetitions of the lines it keeps. */
  lemma {:induction false} NonBlankAppend(a: seq<string>, b: seq<string>)
    ensures NonBlank(a + b) == NonBlank(a) + NonBlank(b)
    decreases |a|
  {
    if a != [] {
      assert (a + b)[0] == a[0] && (a + b)[1..] == a[1..] + b;
      NonBlankAppend(a[1..], b);
      if Trim(a[0]) != [] {
        assert NonBlank(a) == [a[0]] + NonBlank(a[1..]);
        assert NonBlank(a + b) == [a[0]] + NonBlank(a[1..] + b);
      } else {
        assert NonBlank(a) == NonBlank(a[1..]);
        assert NonBlank(a + b) == NonBlank(a[1..] + b);
      }
    } else {
      assert a + b == b;
    }
  }

  /** The filter on one line keeps it exactly when it does not trim to nothing. */
  lemma NonBlankSingle(line: string)
    ensures NonBlank([line]) == if Trim(line) != [] then [line] else []
  {
    assert [line][1..] == [];
  }

  /** The line at position `k` that does not trim to nothing sits in the filtered list
      right after the filtered lines before it. */
  lemma NonBlankPosition(lines: seq<string>, k: nat)
    requires k < |lines| && Trim(lines[k]) != []
    ensures var before := NonBlank(lines[..k]);
      |before| < |NonBlank(lines)| && NonBlank(lines)[|before|] == lines[k]
  {
    assert lines == lines[..k] + ([lines[k]] + lines[k + 1..]);
    NonBlankAppend(lines[..k], [lines[k]] + lines[k + 1..]);
    NonBlankAppend([lines[k]], lines[k + 1..]);
    NonBlankSingle(lines[k]);
  }

  /** `text.split('\n').filter(line => line.trim().length > 0)`. */
  function NonBlankLines(text: string): seq<string> {
    NonBlank(Split(text, '\n'))
  }

  /** The question built from the non-blank line at position `index`. */
  function ParsedQuestion(index: nat, line: string): Question {
    var cleanLine := CleanLine(line);
    Question(index + 1, cleanLine, Some(Categorize(cleanLine)))
  }

  /** A filter-and-number pass over positions: the question `make(i, lines[i])` for every
      position `i` whose line satisfies `keep`, in order. */
  function SelectLines(lines: seq<string>, keep: string -> bool, make: (nat, string) -> Question): seq<Question>
    decreases |lines|
  {
    if lines == [] then []
    else
      var last := |lines| - 1;
      var earlier := SelectLines(lines[..last], keep, make);
      if keep(lines[last]) then earlier + [make(last, lines[last])] else earlier
  }

  /** The questions the first pass over `lines` keeps, with ids from line positions. */
  function KeptQuestions(lines: seq<string>): seq<Question> {
    SelectLines(lines, Keeps, ParsedQuestion)
  }

  /** The padding question appended when the batch has `position` questions: the first
      question of the shuffled bank, numbered `position + 1`. */
  function PadEntry(position: nat, shuffle: Shuffle): Question {
    var entry := Bank[shuffle[0]];
    Question(position + 1, entry.text, Some(entry.category))
  }

  /** A padding question is the single question of a one-question sample, renumbered. */
  lemma PadEntryIsOneDraw(position: nat, shuffle: Shuffle)
    ensures GenerateEnhancedMockQuestions(1, shuffle)[0].(id := position + 1) == PadEntry(position, shuffle)
  {
  }

  /** `n` padding questions after `kept` parsed ones; draw `j` uses `shuffles(j)`. */
  function Padding(kept: nat, n: nat, shuffles: nat -> Shuffle): seq<Question> {
    seq(n, j requires 0 <= j < n => PadEntry(kept + j, shuffles(j)))
  }

  /** The kept questions padded to ten with draws from the bank and cut to ten:
      `shuffles(j)` is the bank order the `j`-th draw sees. */
  function PaddedToTen(kept: seq<Question>, shuffles: nat -> Shuffle): (r: seq<Question>)
    ensures |r| == 10
  {
    var padded := if |kept| < 10 then kept + Padding(|kept|, 10 - |kept|, shuffles) else kept;
    padded[..10]
  }

  /** The batch `parseQuestionsFromText` returns for a completion. */
  function ParsedBatch(text: string, shuffles: nat -> Shuffle): (r: seq<Question>)
    ensures |r| == 10
  {
    PaddedToTen(KeptQuestions(NonBlankLines(text)), shuffles)
  }

  /** One more line extends the first pass by at most that line's question. */
  lemma KeptStep(lines: seq<string>, index: nat)
    requires index < |lines|
    ensures KeptQuestions(lines[..index + 1]) ==
      if Keeps(lines[index]) then KeptQuestions(lines[..index]) + [ParsedQuestion(index, lines[index])]
      else KeptQuestions(lines[..index])
  {
    SelectStep(lines, index, Keeps, ParsedQuestion);
  }

  lemma SelectStep(lines: seq<string>, index: nat, keep: string -> bool, make: (nat, string) -> Question)
    requires index < |lines|
    ensures SelectLines(lines[..index + 1], keep, make) ==
      if keep(lines[index]) then SelectLines(lines[..index], keep, make) + [make(index, lines[index])]
      else SelectLines(lines[..index], keep, make)
  {
    var step := lines[..index + 1];
    assert step[..index] == lines[..index];
    assert step[index] == lines[index];
  }

  /** One more draw extends the padding by one entry. */
  lemma PaddingStep(kept: nat, n: nat, shuffles: nat -> Shuffle)
    ensures Padding(kept, n + 1, shuffles) == Padding(kept, n, shuffles) + [PadEntry(kept + n, shuffles(n))]
  {
  }

  /** The first pass of `parseQuestionsFromText`: each non-blank line, cleaned, becomes a
      question numbered by its position when it starts with "name 3". */
  method CollectQuestions(lines: seq<string>) returns (questions: seq<Question>)
    ensures questions == KeptQuestions(lines)
  {
    questions := [];
    for index := 0 to |lines|
      invariant questions == KeptQuestions(lines[..index])
    {
      KeptStep(lines, index);
      var cleanLine := CleanLine(lines[index]);
      if StartsWith(ToLower(cleanLine), "name 3") {
        var question := Question(index + 1, cleanLine, Some(Categorize(cleanLine)));
        assert question == ParsedQuestion(index, lines[index]);
        questions := questions + [question];
      }
    }
    assert lines[..|lines|] == lines;
  }

  /** The second pass of `parseQuestionsFromText`: bank draws renumbered to follow the
      kept questions until there are ten, then the first ten. */
  method PadToTen(kept: seq<Question>, shuffles: nat -> Shuffle) returns (batch: seq<Question>)
    ensures batch == PaddedToTen(kept, shuffles)
  {
    var questions := kept;
    var draws := 0;
    while |questions| < 10
      invariant questions == kept + Padding(|kept|, draws, shuffles)
      invariant |kept| >= 10 ==> draws == 0
      invariant |kept| < 10 ==> |questions| <= 10
      decreases 10 - |questions|
    {
      var mockQuestion := GenerateEnhancedMockQuestions(1, shuffles(draws))[0];
      mockQuestion := mockQuestion.(id := |questions| + 1);
      PadEntryIsOneDraw(|questions|, shuffles(draws));
      PaddingStep(|kept|, draws, shuffles);
      assert |questions| == |kept| + draws;
      assert mockQuestion == PadEntry(|kept| + draws, shuffles(draws));
      questions := questions + [mockQuestion];
      draws := draws + 1;
    }
    batch := questions[..10];
  }

  /** `parseQuestionsFromText`. */
  method ParseQuestionsFromText(text: string, shuffles: nat -> Shuffle) returns (batch: seq<Question>)
    ensures batch == ParsedBatch(text, shuffles)
  {
    var lines := NonBlankLines(text);
    var questions := CollectQuestions(lines);
    batch := PadToTen(questions, shuffles);
  }

  // ---------------------------------------------------------------------------
  // What the parser keeps

  /** `make` numbers the question of position `i` with `i + 1`. */
  ghost predicate NumbersByPosition(make: (nat, string) -> Question) {
    forall i: nat, line: string :: make(i, line).id == i + 1
  }

  /** `q` is the question `make` builds from the line at position `q.id - 1`, and that
      line satisfies `keep`. */
  ghost predicate SelectedFrom(q: Question, lines: seq<string>, keep: string -> bool, make: (nat, string) -> Question) {
    1 <= q.id <= |lines| && keep(lines[q.id - 1]) && q == make(q.id - 1, lines[q.id - 1])
  }

  lemma SelectLast(lines: seq<string>, keep: string -> bool, make: (nat, string) -> Question)
    requires lines != []
    ensures var last := |lines| - 1;
      SelectLines(lines, keep, make) ==
        if keep(lines[last]) then SelectLines(lines[..last], keep, make) + [make(last, lines[last])]
        else SelectLines(lines[..last], keep, make)
  {
  }

  /** Every selected question comes from a line that satisfies `keep`, at the position its
      id names. */
  lemma {:induction false} SelectSound(lines: seq<string>, keep: string -> bool, make: (nat, string) -> Question)
    requires NumbersByPosition(make)
    ensures var r := SelectLines(lines, keep, make);
      forall k :: 0 <= k < |r| ==> SelectedFrom(r[k], lines, keep, make)
    decreases |lines|
  {
    if lines != [] {
      var last := |lines| - 1;
      var init := lines[..last];
      SelectSound(init, keep, make);
      SelectLast(lines, keep, make);
      var earlier := SelectLines(init, keep, make);
      var r := SelectLines(lines, keep, make);
      forall k | 0 <= k < |r| ensures SelectedFrom(r[k], lines, keep, make) {
        if k < |earlier| {
          var q := earlier[k];
          assert r[k] == q;
          assert SelectedFrom(q, init, keep, make);
          assert lines[q.id - 1] == init[q.id - 1];
        } else {
          assert make(last, lines[last]).id == last + 1;
        }
      }
    }
  }

  /** The ids of the selected questions strictly increase. */
  lemma {:induction false} SelectOrdered(lines: seq<string>, keep: string -> bool, make: (nat, string) -> Question)
    requires NumbersByPosition(make)
    ensures var r := SelectLines(lines, keep, make);
      forall a, b :: 0 <= a < b < |r| ==> r[a].id < r[b].id
    decreases |lines|
  {
    if lines != [] {
      var last := |lines| - 1;
      var init := lines[..last];
      SelectOrdered(init, keep, make);
      SelectSound(init, keep, make);
      SelectLast(lines, keep, make);
      var earlier := SelectLines(init, keep, make);
      var r := SelectLines(lines, keep, make);
      forall a, b | 0 <= a < b < |r| ensures r[a].id < r[b].id {
        assert r[a] == earlier[a];
        assert SelectedFrom(earlier[a], init, keep, make);
        if b < |earlier| {
          assert r[b] == earlier[b];
        } else {
          assert make(last, lines[last]).id == last + 1;
        }
      }
    }
  }

  /** A line satisfying `keep` yields its question. */
  lemma {:induction false} SelectComplete(lines: seq<string>, i: nat, keep: string -> bool, make: (nat, string) -> Question)
    requires i < |lines| && keep(lines[i])
    ensures make(i, lines[i]) in SelectLines(lines, keep, make)
    decreases |lines|
  {
    var last := |lines| - 1;
    var init := lines[..last];
    var earlier := SelectLines(init, keep, make);
    SelectLast(lines, keep, make);
    if i == last {
      LastElementIn(earlier, make(i, lines[i]));
    } else {
      assert lines[i] == init[i];
      SelectComplete(init, i, keep, make);
      ElementOfPrefix(make(i, lines[i]), earlier, SelectLines(lines, keep, make));
    }
  }

  lemma ParsedQuestionNumbers()
    ensures NumbersByPosition(ParsedQuestion)
  {
  }

  /** Every kept question is the question of a line that passes the filter, numbered by
      that line's position. */
  lemma KeptQuestionsSound(lines: seq<string>)
    ensures var kept := KeptQuestions(lines);
      forall k :: 0 <= k < |kept| ==>
        1 <= kept[k].id <= |lines| && Keeps(lines[kept[k].id - 1])
        && kept[k] == ParsedQuestion(kept[k].id - 1, lines[kept[k].id - 1])
  {
    ParsedQuestionNumbers();
    SelectSound(lines, Keeps, ParsedQuestion);
    assert KeptQuestions(lines) == SelectLines(lines, Keeps, ParsedQuestion);
  }

  /** The ids of the kept questions strictly increase. */
  lemma KeptQuestionsOrdered(lines: seq<string>)
    ensures var kept := KeptQuestions(lines);
      forall a, b :: 0 <= a < b < |kept| ==> kept[a].id < kept[b].id
  {
    ParsedQuestionNumbers();
    SelectOrdered(lines, Keeps, ParsedQuestion);
    assert KeptQuestions(lines) == SelectLines(lines, Keeps, ParsedQuestion);
  }

  /** Every line that passes the filter yields its question. */
  lemma KeptQuestionsComplete(lines: seq<string>)
    ensures forall i :: 0 <= i < |lines| && Keeps(lines[i]) ==> ParsedQuestion(i, lines[i]) in KeptQuestions(lines)
  {
    forall i | 0 <= i < |lines| && Keeps(lines[i]) ensures ParsedQuestion(i, lines[i]) in KeptQuestions(lines) {
      SelectComplete(lines, i, Keeps, ParsedQuestion);
      assert KeptQuestions(lines) == SelectLines(lines, Keeps, ParsedQuestion);
    }
  }

  lemma LastElementIn(s: seq<Question>, q: Question)
    ensures q in s + [q]
  {
    assert (s + [q])[|s|] == q;
  }

  lemma ElementOfPrefix(q: Question, prefix: seq<Question>, s: seq<Question>)
    requires q in prefix && prefix <= s
    ensures q in s
  {
    var j :| 0 <= j < |prefix| && prefix[j] == q;
    assert s[j] == q;
  }

  /** The cleaned line is the trimmed rest after a leading bullet, and the trimmed line
      otherwise. */
  lemma CleanLineSpec(line: string)
    ensures CleanLine(line) == if line != [] && IsBullet(line[0]) then Trim(line[1..]) else Trim(line)
  {
    if line != [] && IsBullet(line[0]) {
      TrimAfterTrimStart(line[1..]);
    }
  }

  /** A bullet with whitespace in front of it is not stripped, and the line is dropped:
      its cleaned form starts with the bullet, not with "name 3". */
  lemma IndentedBulletDiscarded(ws: string, bullet: char, rest: string)
    requires ws != [] && AllWhitespace(ws) && IsBullet(bullet)
    ensures CleanLine(ws + [bullet] + rest) != [] && CleanLine(ws + [bullet] + rest)[0] == bullet
    ensures !Keeps(ws + [bullet] + rest)
  {
    var line := ws + [bullet] + rest;
    assert line[0] == ws[0];
    assert StripBullet(line) == line;
    TrimFirstChar(ws, bullet, rest);
    var lowered := ToLower(CleanLine(line));
    assert lowered[0] == bullet;
  }

  /** A bullet in the first position is removed with the whitespace after it, and the
      trimmed rest is what remains. */
  lemma BulletStripped(bullet: char, ws: string, body: string)
    requires IsBullet(bullet) && AllWhitespace(ws)
    requires body != [] && !IsWhitespace(body[0]) && !IsWhitespace(body[|body| - 1])
    ensures CleanLine([bullet] + ws + body) == body
  {
    var line := [bullet] + ws + body;
    assert line[1..] == ws + [body[0]] + body[1..];
    TrimStartBefore(ws, body[0], body[1..]);
    assert [body[0]] + body[1..] == body;
    TrimOfTrimmed(body);
  }

  /** A bulleted question loses its bullet and the space after it. */
  lemma BulletedQuestionCleaned()
    ensures CleanLine("- Name 3 favorite foods") == "Name 3 favorite foods"
  {
    var body := "Name 3 favorite foods";
    assert "- Name 3 favorite foods" == ['-'] + " " + body;
    BulletStripped('-', " ", body);
  }

  /** A bulleted question is kept. */
  lemma BulletedQuestionKept()
    ensures Keeps("- Name 3 favorite foods")
  {
    BulletedQuestionCleaned();
    LowerCasedStartsWithName3();
  }

  lemma LowerCasedStartsWithName3()
    ensures StartsWith(ToLower("Name 3 favorite foods"), "name 3")
  {
    assert "Name 3 favorite foods" == "Name 3" + " favorite foods";
    ToLowerAppend("Name 3", " favorite foods");
    assert ToLower("Name 3") == "name 3";
  }

  /** The cleaned bulleted question is Food & Dining. */
  lemma BulletedQuestionCategorized()
    ensures Categorize("Name 3 favorite foods") == FoodDining
  {
    LowerCasedFoods();
    OccursAtByChars("name 3 favorite foods", "food", 16);
  }

  lemma LowerCasedFoods()
    ensures ToLower("Name 3 favorite foods") == "name 3 favorite foods"
  {
    assert "Name 3 favorite foods" == "Name 3" + " favorite foods";
    ToLowerAppend("Name 3", " favorite foods");
    LowerCasedName3();
    LowerCasedFoodsRest();
  }

  lemma LowerCasedName3()
    ensures ToLower("Name 3") == "name 3"
  {
  }

  lemma LowerCasedFoodsRest()
    ensures ToLower(" favorite foods") == " favorite foods"
  {
    ToLowerByChars(" favorite foods", " favorite foods");
  }

  // ---------------------------------------------------------------------------
  // Layout of a parsed batch

  /** A padded batch starts with the kept questions (the first ten when there are more),
      and every later slot holds a bank draw numbered by its slot; draw `j` fills slot
      `|kept| + j`. */
  lemma PaddedToTenLayout(kept: seq<Question>, shuffles: nat -> Shuffle)
    ensures var r := PaddedToTen(kept, shuffles);
      && (forall j :: 0 <= j < 10 && j < |kept| ==> r[j] == kept[j])
      && (forall j :: |kept| <= j < 10 ==> r[j] == PadEntry(j, shuffles(j - |kept|)) && r[j].id == j + 1)
  {
    if |kept| < 10 {
      var padded := kept + Padding(|kept|, 10 - |kept|, shuffles);
      forall j | |kept| <= j < 10 ensures padded[j] == PadEntry(j, shuffles(j - |kept|)) {
        assert padded[j] == Padding(|kept|, 10 - |kept|, shuffles)[j - |kept|];
      }
    }
  }

  /** The parsed batch: the questions of the kept lines first, in line order, then bank
      draws numbered by their slots. */
  lemma ParsedBatchLayout(text: string, shuffles: nat -> Shuffle)
    ensures var kept, r := KeptQuestions(NonBlankLines(text)), ParsedBatch(text, shuffles);
      && (forall j :: 0 <= j < 10 && j < |kept| ==> r[j] == kept[j])
      && (forall j :: |kept| <= j < 10 ==> r[j] == PadEntry(j, shuffles(j - |kept|)) && r[j].id == j + 1)
  {
    ParsedBatchIsPadded(text, shuffles);
    PaddedToTenLayout(KeptQuestions(NonBlankLines(text)), shuffles);
  }

  lemma ParsedBatchIsPadded(text: string, shuffles: nat -> Shuffle)
    ensures ParsedBatch(text, shuffles) == PaddedToTen(KeptQuestions(NonBlankLines(text)), shuffles)
  {
  }

  // ---------------------------------------------------------------------------
  // Choosing between the sampled and the parsed batch

  /** The placeholder value of the example environment file. */
  const PlaceholderKey := "your_anthropic_api_key_here"

  /** `env.VITE_ANTHROPIC_API_KEY || config.apiKey`: the environment key when it is a
      non-empty string, the configured one otherwise; `None` is an unset value. */
  function ResolveApiKey(envKey: Option<string>, configKey: Option<string>): (key: Option<string>)
    ensures envKey.Some? && envKey.value != [] ==> key == envKey
    ensures !(envKey.Some? && envKey.value != []) ==> key == configKey
    ensures (key.Some? && key.value != []) <==>
              (envKey.Some? && envKey.value != []) || (configKey.Some? && configKey.value != [])
  {
    if envKey.Some? && envKey.value != [] then envKey else configKey
  }

  /** The key passes the guard of `generateQuestions`: set, non-empty and not the
      placeholder. */
  predicate HasUsableKey(key: Option<string>) {
    key.Some? && key.value != [] && key.value != PlaceholderKey
  }

  /** One block of the `content` array of a reply; `None` when it has no string `text`. */
  datatype ContentBlock = ContentBlock(text: Option<string>)

  /** A reply body; `Malformed` when it is not JSON or has no `content` array. */
  datatype ReplyBody = Malformed | Reply(content: seq<ContentBlock>)

  /** What `fetch` yields: a rejected request, or a status with a body. */
  datatype ApiResponse = FetchFailed | HttpResponse(status: int, body: ReplyBody)

  /** Why `callAnthropicAPI` throws. */
  datatype ApiFailure = NetworkFailure | HttpStatus(status: int) | UnreadableReply

  /** `response.ok`: a status in the 2xx range. */
  predicate IsOk(status: int) {
    200 <= status <= 299
  }

  /** The completion text `callAnthropicAPI` passes to the parser, or why it throws
      before getting there. */
  function CompletionText(response: ApiResponse): Result<string, ApiFailure> {
    match response
    case FetchFailed => Failure(NetworkFailure)
    case HttpResponse(status, body) =>
      if !IsOk(status) then Failure(HttpStatus(status))
      else if body.Malformed? || body.content == [] || body.content[0].text.None? then Failure(UnreadableReply)
      else Success(body.content[0].text.value)
  }

  /** A text reaches the parser exactly when the request succeeded with a 2xx status and
      the first content block carries a text; that text is the one parsed. */
  lemma CompletionTextSpec(response: ApiResponse)
    ensures CompletionText(response).Success? <==>
      response.HttpResponse? && IsOk(response.status) && response.body.Reply?
      && response.body.content != [] && response.body.content[0].text.Some?
    ensures CompletionText(response).Success? ==>
      CompletionText(response).value == response.body.content[0].text.value
    ensures response.HttpResponse? && !IsOk(response.status) ==>
      CompletionText(response) == Failure(HttpStatus(response.status))
  {
  }

  /** Only the first content block matters: later blocks are never read. */
  lemma CompletionIgnoresLaterBlocks(status: int, first: ContentBlock, rest: seq<ContentBlock>)
    ensures CompletionText(HttpResponse(status, Reply([first] + rest))) ==
            CompletionText(HttpResponse(status, Reply([first])))
  {
  }

  /** `callAnthropicAPI` after the request: the parsed batch of the completion text, or
      the failure it throws. The key and the count only shape the request, which is the
      abstract `response` here. */
  method CallAnthropicApi(response: ApiResponse, shuffles: nat -> Shuffle) returns (result: Result<seq<Question>, ApiFailure>)
    ensures CompletionText(response).Failure? ==> result == Failure(CompletionText(response).error)
    ensures CompletionText(response).Success? ==> result == Success(ParsedBatch(CompletionText(response).value, shuffles))
  {
    var text := CompletionText(response);
    if text.Failure? {
      return Failure(text.error);
    }
    var batch := ParseQuestionsFromText(text.value, shuffles);
    return Success(batch);
  }

  /** The batch `generateQuestions(count)` returns: the bank sample when the key is
      unusable or the call throws, the parsed batch otherwise. The sample is the first
      draw from the bank in the request, so it sees `shuffles(0)`. */
  function GeneratedBatch(count: int, envKey: Option<string>, configKey: Option<string>,
                          response: ApiResponse, shuffles: nat -> Shuffle): seq<Question>
  {
    if !HasUsableKey(ResolveApiKey(envKey, configKey)) then GenerateEnhancedMockQuestions(count, shuffles(0))
    else match CompletionText(response)
      case Failure(_) => GenerateEnhancedMockQuestions(count, shuffles(0))
      case Success(text) => ParsedBatch(text, shuffles)
  }

  /** `generateQuestions`. */
  method GenerateQuestions(count: int, envKey: Option<string>, configKey: Option<string>,
                           response: ApiResponse, shuffles: nat -> Shuffle) returns (batch: seq<Question>)
    ensures batch == GeneratedBatch(count, envKey, configKey, response, shuffles)
  {
    var apiKey := ResolveApiKey(envKey, configKey);
    if apiKey.None? || apiKey.value == [] || apiKey.value == PlaceholderKey {
      batch := GenerateEnhancedMockQuestions(count, shuffles(0));
      return;
    }
    var result := CallAnthropicApi(response, shuffles);
    if result.Failure? {
      batch := GenerateEnhancedMockQuestions(count, shuffles(0));
    } else {
      batch := result.value;
    }
  }

  /** A missing, empty or placeholder key gives the bank sample for `count`, whatever the
      reply would have been. */
  lemma MockWithoutKey(count: int, envKey: Option<string>, configKey: Option<string>,
                       response: ApiResponse, shuffles: nat -> Shuffle)
    requires var key := ResolveApiKey(envKey, configKey);
      key.None? || key.value == [] || key.value == PlaceholderKey
    ensures GeneratedBatch(count, envKey, configKey, response, shuffles) == GenerateEnhancedMockQuestions(count, shuffles(0))
  {
  }

  /** A failed call (network, non-2xx status, unreadable reply) also gives the bank
      sample for `count`. */
  lemma MockAfterFailure(count: int, envKey: Option<string>, configKey: Option<string>,
                         response: ApiResponse, shuffles: nat -> Shuffle)
    requires CompletionText(response).Failure?
    ensures GeneratedBatch(count, envKey, configKey, response, shuffles) == GenerateEnhancedMockQuestions(count, shuffles(0))
  {
  }

  /** With a usable key and a readable reply the batch is the parsed one: always ten
      questions, and the same for every `count`. */
  lemma ParsedWhenAnswered(count: int, otherCount: int, envKey: Option<string>, configKey: Option<string>,
                           response: ApiResponse, shuffles: nat -> Shuffle)
    requires HasUsableKey(ResolveApiKey(envKey, configKey)) && CompletionText(response).Success?
    ensures var batch := GeneratedBatch(count, envKey, configKey, response, shuffles);
      && batch == ParsedBatch(CompletionText(response).value, shuffles)
      && |batch| == 10
      && batch == GeneratedBatch(otherCount, envKey, configKey, response, shuffles)
  {
  }

  /** Every batch is either the bank sample for `count` or ten questions. */
  lemma GeneratedBatchShape(count: int, envKey: Option<string>, configKey: Option<string>,
                            response: ApiResponse, shuffles: nat -> Shuffle)
    ensures var batch := GeneratedBatch(count, envKey, configKey, response, shuffles);
      batch == GenerateEnhancedMockQuestions(count, shuffles(0)) || |batch| == 10
  {
  }
}
