/** The intro app: the questions loaded at import time become the five
    radio-button fields q1..q5 of the player, and the comprehension test
    lets a participant on only when all five answers are right. */
module Intro {
  import opened Base
  import opened QuestionReader

  /** The form fields of the comprehension test, in question order. */
  const FieldNames: seq<string> := ["q1", "q2", "q3", "q4", "q5"]
  /** The number of questions the player fields and the test use. */
  const QuestionsUsed: int := 5
  /** The message shown next to every wrong answer. */
  const NotCorrect: string := "This is not correct. Please try again"

  /** The guard of the constants class as written: at least four questions. */
  const GuardAsWritten: int := 4

  /** What importing the app can raise: the AssertionError of the guard, or
      an IndexError when the player class reads a question that is not there. */
  datatype ImportError = TooFewQuestions | QuestionIndexError(index: int)

  /** A player field: its name, its label and its choices. */
  datatype Field = Field(name: string, prompt: string, choices: seq<(int, string)>)

  /** The fields q1..q5, built from QUESTIONS[0] .. QUESTIONS[4]. */
  function PlayerFields(qs: seq<Question>): (fs: seq<Field>)
    requires |qs| >= QuestionsUsed
    ensures |fs| == QuestionsUsed
  {
    seq(QuestionsUsed, i requires 0 <= i < QuestionsUsed => Field(FieldNames[i], qs[i].prompt, qs[i].choices))
  }

  /** Importing the app as written: the guard lets four questions through,
      and the player class then indexes QUESTIONS[4]. */
  function ImportAsWritten(qs: seq<Question>): (r: Result<seq<Field>, ImportError>)
    ensures |qs| < GuardAsWritten <==> r == Failure(TooFewQuestions)
    ensures r.Success? <==> |qs| >= QuestionsUsed
  {
    if |qs| < GuardAsWritten then Failure(TooFewQuestions)
    else if |qs| < QuestionsUsed then Failure(QuestionIndexError(|qs|))
    else Success(PlayerFields(qs))
  }

  /** A sheet of four questions passes the guard as written and then fails
      on QUESTIONS[4]. */
  lemma FourQuestionsPassGuardThenFail(qs: seq<Question>)
    requires |qs| == 4
    ensures |qs| >= GuardAsWritten
    ensures ImportAsWritten(qs) == Failure(QuestionIndexError(4))
  {
  }

  /** Importing the app with the guard at five questions, as its message
      asks: the guard alone decides, and the fields are q1..q5 carrying the
      labels and choices of the first five questions in order. */
  function Import(qs: seq<Question>): (r: Result<seq<Field>, ImportError>)
    ensures r.Success? <==> |qs| >= QuestionsUsed
    ensures r.Failure? ==> r.error == TooFewQuestions
    ensures r.Success? ==> |r.value| == QuestionsUsed && forall i :: 0 <= i < QuestionsUsed ==>
      r.value[i].name == FieldNames[i] && r.value[i].prompt == qs[i].prompt && r.value[i].choices == qs[i].choices
  {
    if |qs| < QuestionsUsed then Failure(TooFewQuestions)
    else Success(PlayerFields(qs))
  }

  /** The corrected import and the one as written build the same fields
      wherever either succeeds; they differ only on four questions, where
      the corrected guard reports the shortage instead of an IndexError. */
  lemma ImportAgreesWithAsWritten(qs: seq<Question>)
    ensures Import(qs).Success? <==> ImportAsWritten(qs).Success?
    ensures Import(qs).Success? ==> Import(qs) == ImportAsWritten(qs)
    ensures Import(qs) != ImportAsWritten(qs) <==> |qs| == 4
  {
  }

  /** Whether a submitted value is the right answer to question i; a field
      missing from the submission is wrong. */
  predicate AnswerRight(qs: seq<Question>, values: map<string, int>, i: int)
    requires 0 <= i < QuestionsUsed <= |qs|
  {
    FieldNames[i] in values && values[FieldNames[i]] == qs[i].correct
  }

  /** ComprehensionTest.error_message: None when all five answers are
      right, else one message per wrong field, and no message for the
      right ones. */
  function ComprehensionErrors(qs: seq<Question>, values: map<string, int>): (r: Option<map<string, string>>)
    requires |qs| >= QuestionsUsed
    ensures r.None? <==> forall i :: 0 <= i < QuestionsUsed ==> AnswerRight(qs, values, i)
    ensures r.Some? ==> forall i :: 0 <= i < QuestionsUsed ==> (FieldNames[i] in r.value <==> !AnswerRight(qs, values, i))
    ensures r.Some? ==> forall f :: f in r.value ==> f in FieldNames && r.value[f] == NotCorrect
  {
    var errors := map i | 0 <= i < QuestionsUsed && !AnswerRight(qs, values, i) :: FieldNames[i] := NotCorrect;
    if forall i :: 0 <= i < QuestionsUsed ==> AnswerRight(qs, values, i) then None else Some(errors)
  }

  /** The submission that answers every field with its question's right
      position. */
  function AnswerKey(qs: seq<Question>): (values: map<string, int>)
    requires |qs| >= QuestionsUsed
    ensures forall i :: 0 <= i < QuestionsUsed ==> FieldNames[i] in values && values[FieldNames[i]] == qs[i].correct
  {
    map i | 0 <= i < QuestionsUsed :: FieldNames[i] := qs[i].correct
  }

  /** The radio buttons of question q include the value `answer`. */
  predicate Offered(q: Question, answer: int) {
    exists k :: 0 <= k < |q.choices| && q.choices[k].0 == answer
  }

  /** The test can be passed from loaded questions: the answer key passes,
      and each of its answers is one of the choices the field offers. */
  lemma AnswerKeyPasses(qs: seq<Question>)
    requires |qs| >= QuestionsUsed
    requires forall i :: 0 <= i < |qs| ==> WellFormed(qs[i])
    ensures ComprehensionErrors(qs, AnswerKey(qs)).None?
    ensures forall i :: 0 <= i < QuestionsUsed ==> Offered(qs[i], AnswerKey(qs)[FieldNames[i]])
  {
    forall i | 0 <= i < QuestionsUsed
      ensures Offered(qs[i], AnswerKey(qs)[FieldNames[i]])
    {
      assert WellFormed(qs[i]);
      assert qs[i].choices[qs[i].correct - 1].0 == qs[i].correct;
      assert AnswerKey(qs)[FieldNames[i]] == qs[i].correct;
    }
  }

  /** The five field names are different from one another. */
  lemma FieldNamesDistinct()
    ensures Distinct(FieldNames)
  {
    assert forall i :: 0 <= i < QuestionsUsed ==> |FieldNames[i]| == 2 && FieldNames[i][1] as int == '1' as int + i;
  }

  /** A submission whose only wrong answer is the one to question j gets
      exactly one message, on field j. */
  lemma OnlyWrongFieldFlagged(qs: seq<Question>, values: map<string, int>, j: int)
    requires |qs| >= QuestionsUsed && 0 <= j < QuestionsUsed
    requires forall i :: 0 <= i < QuestionsUsed ==> (AnswerRight(qs, values, i) <==> i != j)
    ensures ComprehensionErrors(qs, values) == Some(map[FieldNames[j] := NotCorrect])
  {
    var r := ComprehensionErrors(qs, values);
    assert !AnswerRight(qs, values, j);
    assert r.value.Keys == {FieldNames[j]} by {
      forall f | f in r.value ensures f == FieldNames[j] {
        var i :| 0 <= i < QuestionsUsed && FieldNames[i] == f;
      }
    }
    assert r.value[FieldNames[j]] == NotCorrect;
    assert r.value == map[FieldNames[j] := NotCorrect];
  }

  /** Changing one answer of the key to a wrong value flags exactly that field. */
  lemma OneWrongAnswerFlagsOnlyIt(qs: seq<Question>, j: int, wrong: int)
    requires |qs| >= QuestionsUsed && 0 <= j < QuestionsUsed
    requires wrong != qs[j].correct
    ensures ComprehensionErrors(qs, AnswerKey(qs)[FieldNames[j] := wrong]) == Some(map[FieldNames[j] := NotCorrect])
  {
    var values := AnswerKey(qs)[FieldNames[j] := wrong];
    FieldNamesDistinct();
    forall i | 0 <= i < QuestionsUsed
      ensures AnswerRight(qs, values, i) <==> i != j
    {
      assert FieldNames[i] == FieldNames[j] <==> i == j;
    }
    OnlyWrongFieldFlagged(qs, values, j);
  }
}
