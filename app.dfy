/** The application shell: the mock generator of numbered batches of ten, and the
    state it keeps around it (the batch on show, the loading flag and the set
    counter). */
module QuestionApp {
  import opened Wrappers
  import opened JsStrings
  import opened Questions

  /** The topics the mock questions ask about, one per position in a batch. */
  const Topics: seq<string> := [
    "React hooks", "TypeScript generics", "async/await", "closures in JavaScript", "REST APIs",
    "GraphQL", "microservices", "Docker containers", "JWT tokens", "database indexing"
  ]

  /** The category labels a mock question is given at random. */
  const TopicCategories: seq<string> := ["Frontend", "Programming", "Backend", "DevOps", "Security"]

  /** `Math.floor(Math.random() * 5)`: an index into the labels. */
  type CategoryPick = i: int | 0 <= i < 5

  const QuestionPrefix := "Question "
  const TopicIntro := ": What is the significance of "

  /** The id of the question at `index` in the batch of set `questionSet`. */
  function QuestionId(questionSet: int, index: int): int {
    (questionSet - 1) * 10 + index + 1
  }

  /** The text of the mock question with id `id` about `topic`. */
  function QuestionText(id: int, topic: string): string {
    QuestionPrefix + IntToString(id) + TopicIntro + topic + "?"
  }

  /** The batch `generateQuestions` builds for set `questionSet`; `picks(i)` is the
      random draw made for the `i`-th question. */
  function MockBatch(questionSet: int, picks: nat -> CategoryPick): (r: seq<Question>)
    ensures |r| == 10
    ensures forall i :: 0 <= i < |r| ==> r[i].category.Some? && r[i].category.value in TopicCategories
  {
    var r := seq(10, index requires 0 <= index < 10 =>
      Question(QuestionId(questionSet, index), QuestionText(QuestionId(questionSet, index), Topics[index]),
               Some(TopicCategories[picks(index)])));
    assert forall i :: 0 <= i < 10 ==> r[i].category.value == TopicCategories[picks(i)];
    r
  }

  /** `id` lies in the block of ten ids of set `questionSet`. */
  predicate InBlock(questionSet: int, id: int) {
    (questionSet - 1) * 10 < id <= questionSet * 10
  }

  /** The ids of the batch of set `k` run through the block `(k-1)*10+1 .. k*10`, one
      per position and increasing: exactly those ids, each once. */
  lemma BatchIdsBlock(questionSet: int, picks: nat -> CategoryPick)
    ensures var r := MockBatch(questionSet, picks);
      && (forall i :: 0 <= i < |r| ==> r[i].id == (questionSet - 1) * 10 + i + 1)
      && (forall i, j :: 0 <= i < j < |r| ==> r[i].id < r[j].id)
      && (forall id :: InBlock(questionSet, id) <==> exists i :: 0 <= i < |r| && r[i].id == id)
  {
    var r := MockBatch(questionSet, picks);
    assert |r| == 10 && forall i :: 0 <= i < 10 ==> r[i].id == QuestionId(questionSet, i);
    forall id | InBlock(questionSet, id)
      ensures exists i :: 0 <= i < |r| && r[i].id == id
    {
      var i := id - (questionSet - 1) * 10 - 1;
      assert 0 <= i < 10 && r[i].id == id;
    }
    forall id | exists i :: 0 <= i < |r| && r[i].id == id
      ensures InBlock(questionSet, id)
    {
      var i :| 0 <= i < |r| && r[i].id == id;
      assert id == (questionSet - 1) * 10 + i + 1;
    }
  }

  /** Two batches of consecutive sets are adjacent: the next one starts right after the
      last id of the previous one, and no id is shared. */
  lemma ConsecutiveBatchesAdjacent(questionSet: int, picks: nat -> CategoryPick, nextPicks: nat -> CategoryPick)
    ensures var r, s := MockBatch(questionSet, picks), MockBatch(questionSet + 1, nextPicks);
      && s[0].id == r[|r| - 1].id + 1
      && (forall i, j :: 0 <= i < |r| && 0 <= j < |s| ==> r[i].id < s[j].id)
  {
    BatchIdsBlock(questionSet, picks);
    BatchIdsBlock(questionSet + 1, nextPicks);
  }

  /** The text of a question with a positive id starts with its id in decimal, followed
      by the colon, and ends asking about its topic. */
  lemma QuestionTextNamesId(id: int, topic: string)
    requires id >= 1
    ensures var t, digits := QuestionText(id, topic), NatToString(id);
      && OccursAt(t, digits, |QuestionPrefix|)
      && DigitsValue(digits) == id
      && t[|QuestionPrefix| + |digits|] == ':'
      && OccursAt(t, topic, |QuestionPrefix| + |digits| + |TopicIntro|)
      && t[|t| - 1] == '?'
  {
    var digits := NatToString(id);
    NatToStringValue(id);
    var t := QuestionText(id, topic);
    assert t == QuestionPrefix + digits + TopicIntro + topic + "?";
    assert t[|QuestionPrefix|..|QuestionPrefix| + |digits|] == digits;
    var at := |QuestionPrefix| + |digits| + |TopicIntro|;
    assert t[at..at + |topic|] == topic;
  }

  /** In a batch of a proper set, each text names the question's own id and the topic of
      its position. */
  lemma BatchTextsNameIds(questionSet: int, picks: nat -> CategoryPick, i: int)
    requires questionSet >= 1 && 0 <= i < 10
    ensures var q := MockBatch(questionSet, picks)[i];
      && q.text == QuestionText(q.id, Topics[i])
      && OccursAt(q.text, NatToString(q.id), |QuestionPrefix|)
      && DigitsValue(NatToString(q.id)) == q.id
  {
    var q := MockBatch(questionSet, picks)[i];
    assert q.id == QuestionId(questionSet, i) && q.id >= 1;
    QuestionTextNamesId(q.id, Topics[i]);
  }

  /** The ids that the batch on show for displayed set number `shown` must carry. */
  predicate HoldsBlockOf(questions: seq<Question>, shown: int) {
    |questions| == 10 && forall i :: 0 <= i < |questions| ==> questions[i].id == QuestionId(shown, i)
  }

  class App {
    var questions: seq<Question>
    var isLoading: bool
    var currentQuestionSet: int

    /** The counter never drops below its start, and once a batch is on show its ids
        are the block of the set number on display. */
    predicate Valid()
      reads this
    {
      && currentQuestionSet >= 1
      && (currentQuestionSet == 1 ==> questions == [])
      && (currentQuestionSet > 1 ==> HoldsBlockOf(questions, DisplayedSetNumber()))
    }

    /** "Question Set #n" shows one less than the counter. */
    function DisplayedSetNumber(): int
      reads this
    {
      currentQuestionSet - 1
    }

    /** The generate button is disabled while a batch is being produced. */
    function GenerateDisabled(): bool
      reads this
    {
      isLoading
    }

    /** The state at first render: no questions, not loading, set 1. */
    constructor ()
      ensures Valid()
      ensures questions == [] && !isLoading && currentQuestionSet == 1
    {
      questions := [];
      isLoading := false;
      currentQuestionSet := 1;
    }

    /** The first half of `generateQuestions`: the loading flag goes up. */
    method StartGeneration()
      modifies this
      ensures isLoading && GenerateDisabled()
      ensures questions == old(questions) && currentQuestionSet == old(currentQuestionSet)
    {
      isLoading := true;
    }

    /** The second half of `generateQuestions`, after the delay: the batch of the
        current set is built and the loading flag comes down. */
    method FinishGeneration(picks: nat -> CategoryPick) returns (batch: seq<Question>)
      modifies this
      ensures batch == MockBatch(currentQuestionSet, picks)
      ensures !isLoading && !GenerateDisabled()
      ensures questions == old(questions) && currentQuestionSet == old(currentQuestionSet)
    {
      batch := MockBatch(currentQuestionSet, picks);
      isLoading := false;
    }

    /** `handleGenerateQuestions`: the new batch replaces the old one wholesale and the
        counter goes up by one, so the batch on show is the block of the set now on
        display. */
    method HandleGenerateQuestions(picks: nat -> CategoryPick)
      requires Valid()
      modifies this
      ensures Valid()
      ensures questions == MockBatch(old(currentQuestionSet), picks)
      ensures currentQuestionSet == old(currentQuestionSet) + 1 && !isLoading
      ensures DisplayedSetNumber() == old(currentQuestionSet)
    {
      StartGeneration();
      var batch := FinishGeneration(picks);
      BatchIdsBlock(currentQuestionSet, picks);
      questions := batch;
      currentQuestionSet := currentQuestionSet + 1;
    }
  }

  /** Mounting generates set 1 (ids 1 to 10); the next click shows set 2 (ids 11 to 20). */
  method MountThenNext(first: nat -> CategoryPick, second: nat -> CategoryPick)
    returns (shownFirst: seq<Question>, shownSecond: seq<Question>, setShown: int)
    ensures |shownFirst| == 10 && |shownSecond| == 10
    ensures forall i :: 0 <= i < 10 ==> shownFirst[i].id == i + 1 && shownSecond[i].id == i + 11
    ensures setShown == 2
  {
    var app := new App();
    app.HandleGenerateQuestions(first);
    shownFirst := app.questions;
    app.HandleGenerateQuestions(second);
    shownSecond := app.questions;
    setShown := app.DisplayedSetNumber();
  }
}
