/** The MCP-style facade over the question service: a connection flag that gates
    `generateQuestions`, and a fallback batch with randomly picked categories. */
module McpService {
  import opened Wrappers
  import opened Questions
  import LlmService

  /** The protocol client object; the service never creates one, so only its absence
      is observable. */
  class SdkClient {
  }

  /** The message of the error thrown when questions are asked for before `connect`. */
  const NotConnectedMessage := "MCP Service not connected"

  /** The service object: the client slot and the connection flag it updates. */
  class Service {
    var client: SdkClient?
    var isConnected: bool

    /** A fresh service holds no client and is not connected. */
    constructor ()
      ensures client == null && !isConnected
    {
      client := null;
      isConnected := false;
    }

    /** `connect`: only raises the flag (the direct mode never opens a client). */
    method Connect()
      modifies this
      ensures isConnected && client == old(client)
    {
      isConnected := true;
    }

    /** `disconnect`: lowers the flag and drops the client, from any state. */
    method Disconnect()
      modifies this
      ensures !isConnected && client == null
    {
      isConnected := false;
      client := null;
    }

    /** `generateQuestions`: refused unless connected; otherwise the batch of the
        question service for the same inputs. The service never throws, so the
        fallback of the catch clause is never reached. */
    method GenerateQuestions(count: int, envKey: Option<string>, configKey: Option<string>,
                             response: LlmService.ApiResponse, shuffles: nat -> LlmService.Shuffle)
      returns (result: Result<seq<Question>, string>)
      ensures !isConnected ==> result == Failure(NotConnectedMessage)
      ensures isConnected ==>
        result == Success(LlmService.GeneratedBatch(count, envKey, configKey, response, shuffles))
    {
      if !isConnected {
        return Failure(NotConnectedMessage);
      }
      var batch := LlmService.GenerateQuestions(count, envKey, configKey, response, shuffles);
      return Success(batch);
    }
  }

  /** The questions of the fallback batch, in order. */
  const FallbackTexts: seq<string> := [
    "Name 3 favorite foods",
    "Name 3 places you want to travel",
    "Name 3 songs you both love",
    "Name 3 funny habits",
    "Name 3 movies to rewatch",
    "Name 3 dream jobs",
    "Name 3 romantic date ideas",
    "Name 3 weekend activities",
    "Name 3 favorite desserts",
    "Name 3 things you admire about each other"
  ]

  /** The labels `getRandomCategory` picks from. */
  const Categories: seq<string> := ["Personal", "Relationship", "Dreams", "Fun", "Life"]

  /** `Math.floor(Math.random() * categories.length)`: an index into the labels. */
  type CategoryPick = i: int | 0 <= i < 5

  /** `getRandomCategory` for the index the random draw produced. */
  function RandomCategory(pick: CategoryPick): (c: string)
    ensures c in Categories
  {
    Categories[pick]
  }

  /** Every label can be drawn. */
  lemma EveryCategoryDrawn(c: string)
    requires c in Categories
    ensures exists pick: CategoryPick :: RandomCategory(pick) == c
  {
    var k :| 0 <= k < |Categories| && Categories[k] == c;
    var pick: CategoryPick := k;
    assert RandomCategory(pick) == c;
  }

  /** `getFallbackQuestions(count)`; `picks(i)` is the draw made for the `i`-th question. */
  function FallbackQuestions(count: int, picks: nat -> CategoryPick): (r: seq<Question>)
    ensures |r| == SliceLength(|FallbackTexts|, count)
    ensures IdsFromOne(r)
    ensures forall i :: 0 <= i < |r| ==> r[i].category.Some? && r[i].category.value in Categories
  {
    var n := SliceLength(|FallbackTexts|, count);
    var r := seq(n, i requires 0 <= i < n => Question(i + 1, FallbackTexts[i], Some(RandomCategory(picks(i)))));
    assert forall i :: 0 <= i < n ==> r[i].category.value == RandomCategory(picks(i));
    r
  }

  /** The texts of a fallback batch are the first entries of the list, as `slice`
      counts them, whatever the draws. */
  lemma FallbackTextsArePrefix(count: int, picks: nat -> CategoryPick, otherPicks: nat -> CategoryPick)
    ensures var r := FallbackQuestions(count, picks);
      && (forall i :: 0 <= i < |r| ==> r[i].text == FallbackTexts[i])
      && (forall i :: 0 <= i < |r| ==> r[i].text == FallbackQuestions(count, otherPicks)[i].text)
      && (0 <= count ==> |r| == if count < 10 then count else 10)
  {
  }

  /** The fallback list is the first ten questions of the bank the mock generator
      samples from. */
  lemma FallbackTextsInBank()
    ensures forall i :: 0 <= i < |FallbackTexts| ==> FallbackTexts[i] == LlmService.Bank[i].text
  {
    FallbackFrontInBank();
    FallbackBackInBank();
  }

  lemma FallbackFrontInBank()
    ensures forall i :: 0 <= i < 5 ==> FallbackTexts[i] == LlmService.Bank[i].text
  {
  }

  lemma FallbackBackInBank()
    ensures forall i :: 5 <= i < 10 ==> FallbackTexts[i] == LlmService.Bank[i].text
  {
  }

  /** A fallback batch never repeats a question. */
  lemma FallbackDistinct(count: int, picks: nat -> CategoryPick)
    ensures var r := FallbackQuestions(count, picks);
      forall i, j :: 0 <= i < j < |r| ==> r[i].text != r[j].text
  {
    FallbackTextsInBank();
    LlmService.BankWellFormed();
  }

  /** A service starts refusing, serves once connected, and refuses again after
      `disconnect`. */
  method ConnectionLifecycle(count: int, envKey: Option<string>, configKey: Option<string>,
                             response: LlmService.ApiResponse, shuffles: nat -> LlmService.Shuffle)
    returns (before: Result<seq<Question>, string>, during: Result<seq<Question>, string>,
             after: Result<seq<Question>, string>)
    ensures before == Failure(NotConnectedMessage) && after == Failure(NotConnectedMessage)
    ensures during == Success(LlmService.GeneratedBatch(count, envKey, configKey, response, shuffles))
  {
    var service := new Service();
    before := service.GenerateQuestions(count, envKey, configKey, response, shuffles);
    service.Connect();
    during := service.GenerateQuestions(count, envKey, configKey, response, shuffles);
    service.Disconnect();
    after := service.GenerateQuestions(count, envKey, configKey, response, shuffles);
  }
}
