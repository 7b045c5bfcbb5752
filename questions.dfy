/**
 * Normalisation of the trivia API response into question records: the loop
 * in the completion callback of the question-fetching effect in App.js.
 */
module Questions {
  import opened Wrappers
  import opened Shuffling

  /** The loop always builds exactly this many questions. */
  const BatchSize: nat := 5

  /** The correct answer and incorrectAnswers[0..2]. */
  const AnswerCount: nat := 4

  /** One decoded record of the API response, with the fields the app reads. */
  datatype RawRecord = RawRecord(question: string, correctAnswer: string, incorrectAnswers: seq<string>)

  /**
   * A question as the app holds it. Blank is the placeholder the state starts
   * with (empty text and answer, no number and no answer list).
   */
  datatype Question =
    | Blank
    | Quiz(questionNumber: nat, questionText: string, correctAnswer: string,
           incorrectAnswer: seq<string>, allAnswers: seq<Option<string>>)

  /** JavaScript's arr[k]: undefined (None) past the end of the array. */
  function ElementAt(s: seq<string>, k: nat): (r: Option<string>)
    ensures r == None <==> |s| <= k
    ensures r.Some? ==> r.value == s[k]
  {
    if k < |s| then Some(s[k]) else None
  }

  /** The array handed to shuffle: [correct, incorrect[0], incorrect[1], incorrect[2]]. */
  function Candidates(correct: string, incorrect: seq<string>): (r: seq<Option<string>>)
    ensures |r| == AnswerCount && r[0] == Some(correct)
    ensures forall k :: 1 <= k < AnswerCount ==> (r[k] == None <==> |incorrect| < k)
    ensures forall k :: 1 <= k < AnswerCount ==> r[k] == ElementAt(incorrect, k - 1)
  {
    [Some(correct), ElementAt(incorrect, 0), ElementAt(incorrect, 1), ElementAt(incorrect, 2)]
  }

  /** Question i as the loop builds it from record r with the draws of its shuffle. */
  function MakeQuestion(r: RawRecord, i: nat, draws: seq<Draw>): (q: Question)
    requires |draws| >= AnswerCount
    ensures q.Quiz? && q.questionNumber == i && |q.allAnswers| == AnswerCount
  {
    Quiz(i, r.question, r.correctAnswer, r.incorrectAnswers,
         Shuffled(Candidates(r.correctAnswer, r.incorrectAnswers), draws))
  }

  /** Question q is a built question numbered i whose answers are a permutation of its candidates. */
  predicate WellFormed(q: Question, i: nat)
  {
    q.Quiz? && q.questionNumber == i && |q.allAnswers| == AnswerCount &&
    multiset(q.allAnswers) == multiset(Candidates(q.correctAnswer, q.incorrectAnswer))
  }

  /** A full batch: BatchSize well-formed questions, question i numbered i. */
  predicate WellFormedBatch(qs: seq<Question>)
  {
    |qs| == BatchSize && forall i :: 0 <= i < |qs| ==> WellFormed(qs[i], i)
  }

  /**
   * Question i carries number i, copies the text, the correct answer and the
   * incorrect answers of record r, and its four answers are a permutation of
   * the candidates.
   */
  lemma MakeQuestionWellFormed(r: RawRecord, i: nat, draws: seq<Draw>)
    requires |draws| >= AnswerCount
    ensures WellFormed(MakeQuestion(r, i, draws), i)
    ensures MakeQuestion(r, i, draws).questionText == r.question
    ensures MakeQuestion(r, i, draws).correctAnswer == r.correctAnswer
    ensures MakeQuestion(r, i, draws).incorrectAnswer == r.incorrectAnswers
  {
    ShuffledPermutes(Candidates(r.correctAnswer, r.incorrectAnswers), draws);
  }

  /**
   * A well-formed question with at least three incorrect answers shows
   * exactly the correct answer and the first three incorrect ones, none of
   * them undefined.
   */
  lemma FullRecordAnswers(q: Question, i: nat)
    requires WellFormed(q, i) && |q.incorrectAnswer| >= 3
    ensures multiset(q.allAnswers) == multiset{Some(q.correctAnswer), Some(q.incorrectAnswer[0]),
                                                Some(q.incorrectAnswer[1]), Some(q.incorrectAnswer[2])}
    ensures None !in q.allAnswers
  {
    var c := Candidates(q.correctAnswer, q.incorrectAnswer);
    assert c == [Some(q.correctAnswer), Some(q.incorrectAnswer[0]), Some(q.incorrectAnswer[1]), Some(q.incorrectAnswer[2])];
    assert None !in multiset(c);
  }

  /**
   * A record with correct answer "Paris" and incorrect answers "Rome",
   * "Berlin" and "Madrid" yields exactly those four answers, whatever the
   * draws.
   */
  lemma ParisRecordAnswers(text: string, draws: seq<Draw>)
    requires |draws| >= AnswerCount
    ensures multiset(MakeQuestion(RawRecord(text, "Paris", ["Rome", "Berlin", "Madrid"]), 0, draws).allAnswers)
         == multiset{Some("Paris"), Some("Rome"), Some("Berlin"), Some("Madrid")}
  {
    var r := RawRecord(text, "Paris", ["Rome", "Berlin", "Madrid"]);
    MakeQuestionWellFormed(r, 0, draws);
    FullRecordAnswers(MakeQuestion(r, 0, draws), 0);
  }

  /** The first n questions of the batch, question k built from record k. */
  function Normalised(records: seq<RawRecord>, draws: seq<seq<Draw>>, n: nat): (qs: seq<Question>)
    requires n <= |records| && n <= |draws|
    requires forall i :: 0 <= i < |draws| ==> |draws[i]| >= AnswerCount
    ensures |qs| == n
  {
    if n == 0 then [] else Normalised(records, draws, n - 1) + [MakeQuestion(records[n - 1], n - 1, draws[n - 1])]
  }

  /** Question k of the batch is built from record k with the draws of its shuffle. */
  lemma {:induction false} NormalisedAt(records: seq<RawRecord>, draws: seq<seq<Draw>>, n: nat, k: nat)
    requires n <= |records| && n <= |draws|
    requires forall i :: 0 <= i < |draws| ==> |draws[i]| >= AnswerCount
    requires k < n
    ensures Normalised(records, draws, n)[k] == MakeQuestion(records[k], k, draws[k])
  {
    if k < n - 1 {
      NormalisedAt(records, draws, n - 1, k);
    }
  }

  /** A normalised batch of five is well-formed. */
  lemma NormalisedWellFormed(records: seq<RawRecord>, draws: seq<seq<Draw>>)
    requires BatchSize <= |records| && BatchSize <= |draws|
    requires forall i :: 0 <= i < |draws| ==> |draws[i]| >= AnswerCount
    ensures WellFormedBatch(Normalised(records, draws, BatchSize))
  {
    var qs := Normalised(records, draws, BatchSize);
    forall k | 0 <= k < BatchSize
      ensures WellFormed(qs[k], k)
    {
      NormalisedAt(records, draws, BatchSize, k);
      MakeQuestionWellFormed(records[k], k, draws[k]);
    }
  }

  /**
   * One push of the loop: the object literal for question i, whose allAnswers
   * is a fresh array [correct, incorrect[0], incorrect[1], incorrect[2]]
   * shuffled in place.
   */
  method BuildQuestion(rec: RawRecord, i: nat, draws: seq<Draw>) returns (q: Question)
    requires |draws| >= AnswerCount
    ensures q == MakeQuestion(rec, i, draws)
    ensures WellFormed(q, i)
  {
    var answers := new Option<string>[AnswerCount] [Some(rec.correctAnswer), ElementAt(rec.incorrectAnswers, 0),
                                                    ElementAt(rec.incorrectAnswers, 1), ElementAt(rec.incorrectAnswers, 2)];
    assert answers[..] == Candidates(rec.correctAnswer, rec.incorrectAnswers);
    Shuffle(answers, draws);
    q := Quiz(i, rec.question, rec.correctAnswer, rec.incorrectAnswers, answers[..]);
    MakeQuestionWellFormed(rec, i, draws);
  }

  /**
   * The normalisation loop: for i in 0..4 build question i from record i,
   * shuffling a fresh four-element array with the draws draws[i], giving the
   * batch Normalised. With fewer than five records, reading record |records|
   * throws and no batch results.
   */
  method NormaliseResponse(records: seq<RawRecord>, draws: seq<seq<Draw>>) returns (r: Option<seq<Question>>)
    requires |draws| >= BatchSize
    requires forall i :: 0 <= i < |draws| ==> |draws[i]| >= AnswerCount
    ensures r.None? <==> |records| < BatchSize
    ensures r.Some? ==> r.value == Normalised(records, draws, BatchSize)
    ensures r.Some? ==> WellFormedBatch(r.value)
  {
    var questionsArr: seq<Question> := [];
    var i := 0;
    while i < BatchSize
      invariant 0 <= i <= BatchSize && i <= |records|
      invariant questionsArr == Normalised(records, draws, i)
    {
      if i >= |records| {
        return None;
      }
      var q := BuildQuestion(records[i], i, draws[i]);
      questionsArr := questionsArr + [q];
      i := i + 1;
    }
    NormalisedWellFormed(records, draws);
    r := Some(questionsArr);
  }
}
