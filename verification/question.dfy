/** Question selection for one game: the list of question ids already
    served, the bounded retry over repeated candidates, and the fixed
    difficulty and language tables. The question store is abstracted to the
    rows it returns: `candidates` are the successive rows the random-question
    query yields, and `Translations` holds the translated texts. */
module Questions {
  import opened Common

  /** A row of the question table. */
  datatype QuestionRow = QuestionRow(id: int, correctAnswer: int, img: string)

  /** Translated question texts and answer lists, keyed by question id and language. */
  datatype Translations = Translations(questions: map<(int, string), string>, answers: map<(int, string), seq<string>>)

  /** How a request ends: the question with its translated text and answers;
      an error raised inside the asynchronous chain and handed back as the
      result value; or an error thrown before the chain is built. */
  datatype Reply =
    | Delivered(question: QuestionRow, text: string, answers: seq<string>)
    | Caught(error: string)
    | Thrown(error: string)

  const RetryLimit := 50

  const NoQuestionsLeft := "No appropriate questions left."
  const NoDifficultyId := "Unable to get difficultyId."
  const NoLanguageId := "Unable to get languageId."
  /** Reading `id` of the missing row when the query returns no rows. */
  const NoQuestionRow := "TypeError: cannot read property 'id' of undefined"
  /** Reading `content` of the missing row when no translation exists. */
  const NoTranslation := "TypeError: cannot read property 'content' of undefined"

  // ---------------------------------------------------------------------
  // Lookup tables

  /** The difficulty name as stored in the question table. Only the three
      names are known; a number, as the game controller sends, never is. */
  function GetDifficultyId(difficulty: Value): (r: Result<int>)
    ensures r.Ok? <==> difficulty in {Str("easy"), Str("medium"), Str("hard")}
    ensures r.Ok? ==> 1 <= r.value <= 3
    ensures r.Err? ==> r.error == NoDifficultyId
    ensures difficulty.Num? ==> r.Err?
  {
    match difficulty
    case Str("easy") => Ok(1)
    case Str("medium") => Ok(2)
    case Str("hard") => Ok(3)
    case _ => Err(NoDifficultyId)
  }

  /** The difficulty name an id stands for; the inverse of GetDifficultyId. */
  function DifficultyName(id: int): Option<string> {
    if id == 1 then Some("easy") else if id == 2 then Some("medium") else if id == 3 then Some("hard") else None
  }

  /** The difficulty table is a bijection between the three names and 1..3. */
  lemma DifficultyRoundTrip(name: string, id: int)
    ensures GetDifficultyId(Str(name)) == Ok(id) <==> DifficultyName(id) == Some(name)
  {
  }

  /** The language id used by the translation table. */
  function GetLanguageId(language: string): (r: Result<int>)
    ensures r.Ok? <==> language in {"German", "Czech", "English"}
    ensures r.Ok? ==> 1 <= r.value <= 3
    ensures r.Err? ==> r.error == NoLanguageId
  {
    match language
    case "German" => Ok(1)
    case "Czech" => Ok(2)
    case "English" => Ok(3)
    case _ => Err(NoLanguageId)
  }

  /** The language an id stands for; the inverse of GetLanguageId. */
  function LanguageName(id: int): Option<string> {
    if id == 1 then Some("German") else if id == 2 then Some("Czech") else if id == 3 then Some("English") else None
  }

  /** The language table is a bijection between the three names and 1..3,
      so no two languages share an id. */
  lemma LanguageRoundTrip(language: string, id: int)
    ensures GetLanguageId(language) == Ok(id) <==> LanguageName(id) == Some(language)
  {
  }

  lemma LanguageIdInjective(a: string, b: string)
    requires GetLanguageId(a).Ok? && GetLanguageId(b).Ok?
    requires GetLanguageId(a).value == GetLanguageId(b).value
    ensures a == b
  {
    LanguageRoundTrip(a, GetLanguageId(a).value);
    LanguageRoundTrip(b, GetLanguageId(b).value);
  }

  // ---------------------------------------------------------------------
  // The retry chain, as a function of the state it starts from

  /** The answers in `language` for a question: the query's rows, none if it has none. */
  function AnswersFor(tr: Translations, id: int, language: string): seq<string> {
    if (id, language) in tr.answers then tr.answers[(id, language)] else []
  }

  /** The result of a request together with the number of candidates drawn
      and the used-id list and retry counter it leaves behind. */
  datatype Attempt = Attempt(reply: Reply, drawn: nat, used: seq<int>, counter: int)

  /** The chain of `getQuestionWithAnswers` once the difficulty is known:
      draw a candidate; a new one is recorded as used and, once its texts are
      found, delivered with the counter reset; a repeated one is retried
      while the counter is at most 50 (incrementing it) and ends the request
      otherwise. */
  function Retrieve(used: seq<int>, counter: int, language: string, candidates: seq<QuestionRow>, tr: Translations): (a: Attempt)
    ensures a.drawn <= |candidates|
    ensures a.reply.Delivered? || a.reply.Caught?
    decreases |candidates|
  {
    if |candidates| == 0 then
      Attempt(Caught(NoQuestionRow), 0, used, counter)
    else
      var item := candidates[0];
      if item.id !in used then
        if (item.id, language) in tr.questions then
          Attempt(Delivered(item, tr.questions[(item.id, language)], AnswersFor(tr, item.id, language)), 1, used + [item.id], 0)
        else
          Attempt(Caught(NoTranslation), 1, used + [item.id], counter)
      else if counter > RetryLimit then
        Attempt(Caught(NoQuestionsLeft), 1, used, counter)
      else
        var rest := Retrieve(used, counter + 1, language, candidates[1..], tr);
        rest.(drawn := rest.drawn + 1)
  }

  /** A request draws at most 52 - counter candidates (52 from a fresh
      counter), never more than the store offers, and keeps the counter
      within 0..51. */
  lemma {:induction false} RetrieveBounded(used: seq<int>, counter: int, language: string, candidates: seq<QuestionRow>, tr: Translations)
    requires 0 <= counter <= RetryLimit + 1
    ensures var a := Retrieve(used, counter, language, candidates, tr);
      a.drawn <= |candidates| && a.drawn <= RetryLimit + 2 - counter && 0 <= a.counter <= RetryLimit + 1
    decreases |candidates|
  {
    if |candidates| > 0 && candidates[0].id in used && counter <= RetryLimit {
      RetrieveBounded(used, counter + 1, language, candidates[1..], tr);
    }
  }

  /** Every candidate drawn before the last was a repeat; a delivered
      question is the last candidate drawn, was new, is now recorded as
      used, and leaves the counter at 0. */
  lemma {:induction false} RetrieveDelivers(used: seq<int>, counter: int, language: string, candidates: seq<QuestionRow>, tr: Translations)
    ensures var a := Retrieve(used, counter, language, candidates, tr);
      && a.drawn <= |candidates|
      && (forall j :: 0 <= j < a.drawn - 1 ==> candidates[j].id in used)
      && (a.reply.Delivered? ==>
            && a.drawn >= 1
            && a.reply.question == candidates[a.drawn - 1]
            && candidates[a.drawn - 1].id !in used
            && a.used == used + [candidates[a.drawn - 1].id]
            && a.counter == 0)
    decreases |candidates|
  {
    if |candidates| > 0 && candidates[0].id in used && counter <= RetryLimit {
      RetrieveDelivers(used, counter + 1, language, candidates[1..], tr);
    }
  }

  /** The used list only grows, by at most the one new id drawn, and never
      gains a duplicate. */
  lemma {:induction false} RetrieveGrowsWithoutDuplicates(used: seq<int>, counter: int, language: string, candidates: seq<QuestionRow>, tr: Translations)
    ensures var a := Retrieve(used, counter, language, candidates, tr);
      && (a.used == used || (a.drawn >= 1 && a.used == used + [candidates[a.drawn - 1].id] && candidates[a.drawn - 1].id !in used))
      && (NoDuplicates(used) ==> NoDuplicates(a.used))
    decreases |candidates|
  {
    if |candidates| > 0 && candidates[0].id in used && counter <= RetryLimit {
      RetrieveGrowsWithoutDuplicates(used, counter + 1, language, candidates[1..], tr);
    }
  }

  /** When the next 52 - counter candidates are all repeats, the request
      draws exactly that many, changes no used id, leaves the counter at 51
      and reports that no questions are left. */
  lemma {:induction false} RetrieveExhausts(used: seq<int>, counter: int, language: string, candidates: seq<QuestionRow>, tr: Translations)
    requires 0 <= counter <= RetryLimit + 1
    requires |candidates| >= RetryLimit + 2 - counter
    requires forall j :: 0 <= j < RetryLimit + 2 - counter ==> candidates[j].id in used
    ensures var a := Retrieve(used, counter, language, candidates, tr);
      a == Attempt(Caught(NoQuestionsLeft), RetryLimit + 2 - counter, used, RetryLimit + 1)
    decreases |candidates|
  {
    if counter <= RetryLimit {
      assert candidates[0].id in used;
      RetrieveExhausts(used, counter + 1, language, candidates[1..], tr);
    }
  }

  /** A new id is taken at the first draw whatever the counter, since the
      novelty test comes before the counter test; the counter is reset only
      when the texts are found. */
  lemma RetrieveTakesNewAtAnyCount(used: seq<int>, counter: int, language: string, candidates: seq<QuestionRow>, tr: Translations)
    requires |candidates| > 0 && candidates[0].id !in used
    ensures var a := Retrieve(used, counter, language, candidates, tr);
      && a.drawn == 1 && a.used == used + [candidates[0].id]
      && (a.reply.Delivered? <==> (candidates[0].id, language) in tr.questions)
      && a.counter == (if a.reply.Delivered? then 0 else counter)
  {
  }

  /** Retrying reaches the first new candidate: when the first `j` draws are
      repeats and the budget allows `j` retries, the `j+1`-th draw is taken,
      recorded as used, and delivered exactly when its texts exist. */
  lemma {:induction false} RetrieveFindsFirstNew(used: seq<int>, counter: int, language: string, candidates: seq<QuestionRow>, tr: Translations, j: nat)
    requires j < |candidates| && j < RetryLimit + 2 - counter
    requires forall i :: 0 <= i < j ==> candidates[i].id in used
    requires candidates[j].id !in used
    ensures var a := Retrieve(used, counter, language, candidates, tr);
      && a.drawn == j + 1
      && a.used == used + [candidates[j].id]
      && (a.reply.Delivered? <==> (candidates[j].id, language) in tr.questions)
      && (a.reply.Delivered? ==> a.reply.question == candidates[j] && a.counter == 0)
      && (!a.reply.Delivered? ==> a.reply == Caught(NoTranslation) && a.counter == counter + j)
    decreases j
  {
    if j > 0 {
      assert candidates[0].id in used;
      RetrieveFindsFirstNew(used, counter + 1, language, candidates[1..], tr, j - 1);
    }
  }

  /** `Retrieve` with the candidates counted from an offset. */
  function Shift(a: Attempt, k: nat): Attempt {
    a.(drawn := a.drawn + k)
  }

  // ---------------------------------------------------------------------
  // The stateful object

  class Question {
    var usedQuestionIds: seq<int>
    var recursionSafetyCounter: int

    predicate Valid()
      reads this
    {
      0 <= recursionSafetyCounter <= RetryLimit + 1
    }

    constructor ()
      ensures Valid() && usedQuestionIds == [] && recursionSafetyCounter == 0
    {
      usedQuestionIds := [];
      recursionSafetyCounter := 0;
    }

    /** `saveQuestionIdToRam`: append the id. */
    method SaveQuestionIdToRam(questionId: int)
      modifies this`usedQuestionIds
      ensures usedQuestionIds == old(usedQuestionIds) + [questionId]
    {
      usedQuestionIds := usedQuestionIds + [questionId];
    }

    /** `isNewQuestion`: an id not yet used is recorded and reported new; a
        used one is reported old and nothing changes. Filling the list only
        this way keeps it free of duplicates. */
    method IsNewQuestion(questionId: int) returns (isNew: bool)
      modifies this`usedQuestionIds
      ensures isNew <==> questionId !in old(usedQuestionIds)
      ensures usedQuestionIds == if isNew then old(usedQuestionIds) + [questionId] else old(usedQuestionIds)
      ensures NoDuplicates(old(usedQuestionIds)) ==> NoDuplicates(usedQuestionIds)
    {
      if questionId !in usedQuestionIds {
        SaveQuestionIdToRam(questionId);
        return true;
      }
      return false;
    }

    /** `getQuestionWithAnswers` for a difficulty and language, with the
        recursion written as a loop over the candidates the store returns.
        An unknown difficulty is thrown before anything is drawn; otherwise
        the request ends as `Retrieve` describes. */
    method GetQuestionWithAnswers(difficulty: Value, language: string, candidates: seq<QuestionRow>, tr: Translations)
      returns (r: Reply, drawn: nat)
      requires Valid()
      modifies this
      ensures Valid()
      ensures GetDifficultyId(difficulty).Err? ==>
        && r == Thrown(NoDifficultyId) && drawn == 0
        && usedQuestionIds == old(usedQuestionIds) && recursionSafetyCounter == old(recursionSafetyCounter)
      ensures GetDifficultyId(difficulty).Ok? ==>
        Attempt(r, drawn, usedQuestionIds, recursionSafetyCounter) ==
        Retrieve(old(usedQuestionIds), old(recursionSafetyCounter), language, candidates, tr)
    {
      drawn := 0;
      if GetDifficultyId(difficulty).Err? {
        return Thrown(NoDifficultyId), 0;
      }
      ghost var goal := Retrieve(usedQuestionIds, recursionSafetyCounter, language, candidates, tr);
      while true
        invariant Valid() && drawn <= |candidates|
        invariant usedQuestionIds == old(usedQuestionIds)
        invariant Shift(Retrieve(usedQuestionIds, recursionSafetyCounter, language, candidates[drawn..], tr), drawn) == goal
        decreases RetryLimit + 1 - recursionSafetyCounter
      {
        if drawn == |candidates| {
          return Caught(NoQuestionRow), drawn;
        }
        var item := candidates[drawn];
        assert candidates[drawn..][1..] == candidates[drawn + 1..];
        drawn := drawn + 1;
        var isNew := IsNewQuestion(item.id);
        if isNew {
          if (item.id, language) !in tr.questions {
            return Caught(NoTranslation), drawn;
          }
          var text := tr.questions[(item.id, language)];
          var answers := AnswersFor(tr, item.id, language);
          recursionSafetyCounter := 0;
          return Delivered(item, text, answers), drawn;
        } else if recursionSafetyCounter > RetryLimit {
          return Caught(NoQuestionsLeft), drawn;
        }
        recursionSafetyCounter := recursionSafetyCounter + 1;
      }
    }
  }

  // ---------------------------------------------------------------------
  // Scenarios

  /** The controller asks with the number 1, 3 or 5, which the difficulty
      table does not know: every such request is thrown without drawing. */
  method NumericDifficultyThrows(d: int, candidates: seq<QuestionRow>, tr: Translations) returns (r: Reply, drawn: nat)
    requires d in {1, 3, 5}
    ensures r == Thrown(NoDifficultyId) && drawn == 0
  {
    var q := new Question();
    r, drawn := q.GetQuestionWithAnswers(Num(d), "English", candidates, tr);
  }

  /** The same question id drawn twice in one game is delivered only once:
      the second request skips it and delivers the next new one. */
  method NoRepeatAcrossRequests(a: QuestionRow, b: QuestionRow, tr: Translations)
    returns (first: Reply, second: Reply)
    requires a.id != b.id && (a.id, "English") in tr.questions && (b.id, "English") in tr.questions
    ensures first.Delivered? && first.question == a
    ensures second.Delivered? && second.question == b
  {
    var q := new Question();
    var n;
    first, n := q.GetQuestionWithAnswers(Str("easy"), "English", [a], tr);
    second, n := q.GetQuestionWithAnswers(Str("easy"), "English", [a, b], tr);
  }
}
