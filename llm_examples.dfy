/** Worked examples of the LLM service: two classifications, where each text also holds
    a keyword of a later family ("love", "want") that loses to the earlier family, and a
    parse whose ids collide. */
module LlmExamples {
  import opened Wrappers
  import opened JsStrings
  import opened Questions
  import opened LlmService

  lemma SongsLowerFront()
    ensures var q, t := "Name 3 songs you both love", "name 3 songs you both love"; |q| == |t| && forall i :: 0 <= i < 13 ==> LowerChar(q[i]) == t[i]
  {
  }

  lemma SongsLowerBack()
    ensures var q, t := "Name 3 songs you both love", "name 3 songs you both love"; forall i :: 13 <= i < |q| ==> LowerChar(q[i]) == t[i]
  {
  }

  lemma SongsLower()
    ensures ToLower("Name 3 songs you both love") == "name 3 songs you both love"
  {
    SongsLowerFront();
    SongsLowerBack();
    ToLowerByChars("Name 3 songs you both love", "name 3 songs you both love");
  }

  const SongsAlphabet: set<char> := {'n', 'a', 'm', 'e', ' ', '3', 's', 'o', 'g', 'y', 'u', 'b', 't', 'h', 'l', 'v'}

  lemma SongsLetters()
    ensures var t := "name 3 songs you both love"; forall i :: 0 <= i < |t| ==> t[i] in SongsAlphabet
  {
  }

  /** Neither example text holds "eat": its 'e's are never followed by an 'a'. */
  lemma NoEatInExamples()
    ensures !Contains("name 3 songs you both love", "eat")
    ensures !Contains("name 3 places you want to travel", "eat")
  {
    AbsentPair("name 3 songs you both love", "eat");
    AbsentPair("name 3 places you want to travel", "eat");
  }

  lemma SongsMissFood()
    ensures var t := "name 3 songs you both love";
      !Contains(t, "food") && !Contains(t, "eat") && !Contains(t, "cook") && !Contains(t, "dessert")
  {
    var t := "name 3 songs you both love";
    NoEatInExamples();
    SongsLetters();
    AbsentChar(t, "food", 'f', SongsAlphabet);
    AbsentChar(t, "cook", 'c', SongsAlphabet);
    AbsentChar(t, "dessert", 'd', SongsAlphabet);
  }

  lemma SongsMissTravel()
    ensures var t := "name 3 songs you both love";
      !Contains(t, "travel") && !Contains(t, "place") && !Contains(t, "vacation") && !Contains(t, "adventure")
  {
    var t := "name 3 songs you both love";
    SongsLetters();
    AbsentChar(t, "travel", 'r', SongsAlphabet);
    AbsentChar(t, "place", 'p', SongsAlphabet);
    AbsentChar(t, "vacation", 'c', SongsAlphabet);
    AbsentChar(t, "adventure", 'd', SongsAlphabet);
  }

  lemma SongsHits()
    ensures var t := "name 3 songs you both love"; OccursAt(t, "song", 7) && OccursAt(t, "love", 22)
  {
    OccursAtByChars("name 3 songs you both love", "song", 7);
    OccursAtByChars("name 3 songs you both love", "love", 22);
  }

  /** "Name 3 songs you both love" is Entertainment, although "love" is a Relationship
      keyword. */
  lemma CategorizeSongsExample()
    ensures Contains(ToLower("Name 3 songs you both love"), "love")
    ensures Categorize("Name 3 songs you both love") == Entertainment
  {
    SongsLower();
    ToLowerIdempotent("Name 3 songs you both love");
    CategorizeIgnoresCase("Name 3 songs you both love");
    SongsMissFood();
    SongsMissTravel();
    SongsHits();
  }

  lemma PlacesLowerFront()
    ensures var q, t := "Name 3 places you want to travel", "name 3 places you want to travel"; |q| == |t| && forall i :: 0 <= i < 16 ==> LowerChar(q[i]) == t[i]
  {
  }

  lemma PlacesLowerBack()
    ensures var q, t := "Name 3 places you want to travel", "name 3 places you want to travel"; forall i :: 16 <= i < |q| ==> LowerChar(q[i]) == t[i]
  {
  }

  lemma PlacesLower()
    ensures ToLower("Name 3 places you want to travel") == "name 3 places you want to travel"
  {
    PlacesLowerFront();
    PlacesLowerBack();
    ToLowerByChars("Name 3 places you want to travel", "name 3 places you want to travel");
  }

  const PlacesAlphabet: set<char> := {'n', 'a', 'm', 'e', ' ', '3', 'p', 'l', 'c', 's', 'y', 'o', 'u', 'w', 't', 'r', 'v'}

  lemma PlacesLetters()
    ensures var t := "name 3 places you want to travel"; forall i :: 0 <= i < |t| ==> t[i] in PlacesAlphabet
  {
  }

  lemma PlacesMissFood()
    ensures var t := "name 3 places you want to travel";
      !Contains(t, "food") && !Contains(t, "eat") && !Contains(t, "cook") && !Contains(t, "dessert")
  {
    var t := "name 3 places you want to travel";
    NoEatInExamples();
    PlacesLetters();
    AbsentChar(t, "food", 'f', PlacesAlphabet);
    AbsentChar(t, "cook", 'k', PlacesAlphabet);
    AbsentChar(t, "dessert", 'd', PlacesAlphabet);
  }

  lemma PlacesHits()
    ensures var t := "name 3 places you want to travel"; OccursAt(t, "place", 7) && OccursAt(t, "want", 18)
  {
    OccursAtByChars("name 3 places you want to travel", "place", 7);
    OccursAtByChars("name 3 places you want to travel", "want", 18);
  }

  /** "Name 3 places you want to travel" is Travel & Adventure, although "want" is a
      Dreams & Goals keyword. */
  lemma CategorizePlacesExample()
    ensures Contains(ToLower("Name 3 places you want to travel"), "want")
    ensures Categorize("Name 3 places you want to travel") == TravelAdventure
  {
    PlacesLower();
    ToLowerIdempotent("Name 3 places you want to travel");
    CategorizeIgnoresCase("Name 3 places you want to travel");
    PlacesMissFood();
    PlacesHits();
  }

  // A completion whose only question is on its second line.

  lemma TwoLinesSplit(first: string, second: string)
    requires '\n' !in first && '\n' !in second
    ensures Split(first + "\n" + second, '\n') == [first, second]
  {
    assert first + "\n" + second == first + ['\n'] + second;
    SplitAppend(first, second, '\n');
    SplitPlain(first, '\n');
    SplitPlain(second, '\n');
  }

  lemma TwoLinesNonBlank(first: string, second: string)
    requires Trim(first) != [] && Trim(second) != []
    ensures NonBlank([first, second]) == [first, second]
  {
    var lines := [first, second];
    assert lines[1..] == [second];
    assert [second][1..] == [];
    assert NonBlank([second]) == [second];
  }

  lemma SecondLineKept(first: string, second: string)
    requires !Keeps(first) && Keeps(second)
    ensures KeptQuestions([first, second]) == [ParsedQuestion(1, second)]
  {
    var lines := [first, second];
    assert KeptQuestions(lines) == SelectLines(lines, Keeps, ParsedQuestion);
    SelectLast(lines, Keeps, ParsedQuestion);
    assert lines[..1] == [first];
    SelectLast([first], Keeps, ParsedQuestion);
    assert [first][..0] == [];
  }

  lemma OnlySecondKept(first: string, second: string)
    requires '\n' !in first && '\n' !in second
    requires Trim(first) != [] && !Keeps(first) && Keeps(second)
    ensures KeptQuestions(NonBlankLines(first + "\n" + second)) == [ParsedQuestion(1, second)]
  {
    TrimOfKept(second);
    TwoLinesSplit(first, second);
    TwoLinesNonBlank(first, second);
    assert NonBlankLines(first + "\n" + second) == [first, second];
    SecondLineKept(first, second);
  }

  /** The id of a parsed question is its line number, not its place in the batch, and
      the first padding question is numbered by its place. When the only question of a
      completion is on its second line, both are 2 and no question has id 1. */
  lemma ParsedIdsCollide(first: string, second: string, shuffles: nat -> Shuffle)
    requires '\n' !in first && '\n' !in second
    requires Trim(first) != [] && !Keeps(first) && Keeps(second)
    ensures var r := ParsedBatch(first + "\n" + second, shuffles);
      && r[0] == ParsedQuestion(1, second) && r[0].id == 2
      && r[1].id == 2
      && forall j :: 0 <= j < |r| ==> r[j].id != 1
  {
    OnlySecondKept(first, second);
    var kept := [ParsedQuestion(1, second)];
    assert ParsedBatch(first + "\n" + second, shuffles) == PaddedToTen(kept, shuffles);
    LoneSecondPadded(kept, shuffles);
  }

  /** A single kept question numbered 2 is followed by a padding question numbered 2. */
  lemma LoneSecondPadded(kept: seq<Question>, shuffles: nat -> Shuffle)
    requires |kept| == 1 && kept[0].id == 2
    ensures var r := PaddedToTen(kept, shuffles);
      && r[0] == kept[0] && r[1].id == 2
      && forall j :: 0 <= j < |r| ==> r[j].id != 1
  {
    PaddedToTenLayout(kept, shuffles);
    var r := PaddedToTen(kept, shuffles);
    forall j | 0 <= j < |r| ensures r[j].id != 1 {
      if j >= 1 {
        assert r[j].id == j + 1;
      }
    }
  }

  /** A kept line does not trim to nothing. */
  lemma TrimOfKept(line: string)
    requires Keeps(line)
    ensures Trim(line) != []
  {
    if line != [] && IsBullet(line[0]) {
      TrimOfBulleted(line);
    } else {
      assert StripBullet(line) == line;
      assert |ToLower(CleanLine(line))| >= 6;
    }
  }

  lemma TrimOfBulleted(line: string)
    requires line != [] && IsBullet(line[0])
    ensures Trim(line) != []
  {
    assert [] + [line[0]] + line[1..] == line;
    TrimFirstChar([], line[0], line[1..]);
  }

  lemma HelloDropped()
    ensures Trim("Hello") != [] && !Keeps("Hello")
  {
    HelloClean();
    assert |ToLower(CleanLine("Hello"))| == 5;
  }

  lemma HelloClean()
    ensures Trim("Hello") == "Hello" && CleanLine("Hello") == "Hello"
  {
    TrimOfTrimmed("Hello");
    assert StripBullet("Hello") == "Hello";
  }

  /** A line that starts with "Name 3" and does not end in whitespace is kept. */
  lemma Name3Kept(line: string)
    requires |line| >= 6 && line[0] == 'N' && line[1] == 'a' && line[2] == 'm'
    requires line[3] == 'e' && line[4] == ' ' && line[5] == '3'
    requires !IsWhitespace(line[|line| - 1])
    ensures Keeps(line)
  {
    assert StripBullet(line) == line;
    TrimOfTrimmed(line);
    assert CleanLine(line) == line;
    var lowered := ToLower(line);
    assert lowered[..6] == "name 3" by {
      assert lowered[0] == 'n' && lowered[1] == 'a' && lowered[2] == 'm';
      assert lowered[3] == 'e' && lowered[4] == ' ' && lowered[5] == '3';
    }
  }

  lemma FoodsKept()
    ensures Keeps("Name 3 foods")
  {
    Name3Kept("Name 3 foods");
  }

  lemma NoNewlines()
    ensures '\n' !in "Hello" && '\n' !in "Name 3 foods"
  {
  }

  /** The completion "Hello" followed by "Name 3 foods" is such a case. */
  lemma HelloThenFoods()
    ensures '\n' !in "Hello" && '\n' !in "Name 3 foods"
    ensures Trim("Hello") != [] && !Keeps("Hello") && Keeps("Name 3 foods")
  {
    NoNewlines();
    HelloDropped();
    FoodsKept();
  }
}
