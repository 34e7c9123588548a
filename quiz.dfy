/** The quiz flow of pages/QuizPage.tsx: one question at a time, the answer map,
    and the safety-modal detour after question 10. */
module Quiz {
  import opened QuizData

  /** The progress bar width `currentQuestionIndex / QUIZ_QUESTIONS.length * 100`. */
  function Progress(index: nat): (p: real)
    ensures index < |QuizQuestions| ==> 0.0 <= p < 100.0
    ensures p * |QuizQuestions| as real == index as real * 100.0
  {
    index as real / |QuizQuestions| as real * 100.0
  }

  /** Every question has been answered. */
  ghost predicate Complete(a: Answers)
  {
    forall i :: 0 <= i < |QuizQuestions| ==> i in a
  }

  /** The page's React state, plus the answer maps it has handed to `onQuizComplete`. */
  class QuizPage {
    var currentIndex: nat
    var answers: Answers
    var showSafetyModal: bool
    var submitted: seq<Answers>

    ghost predicate Valid()
      reads this
    {
      && currentIndex < |QuizQuestions|
      && (forall i :: 0 <= i < currentIndex ==> i in answers)
      && (forall k :: k in answers ==> 0 <= k < |QuizQuestions| && 0 <= answers[k] < |QuizQuestions[k].options|)
      && (showSafetyModal ==> currentIndex == SafetyQuestionIndex && SafetyQuestionIndex in answers)
      && (forall j :: 0 <= j < |submitted| ==> Complete(submitted[j]))
    }

    constructor ()
      ensures Valid()
      ensures currentIndex == 0 && answers == map[] && !showSafetyModal && submitted == []
    {
      currentIndex := 0;
      answers := map[];
      showSafetyModal := false;
      submitted := [];
    }

    /** `advanceQuestion`: next question, or hand the answers to `onQuizComplete`
        when the current question is the last one. */
    method AdvanceQuestion(currentAnswers: Answers)
      requires Valid()
      requires !showSafetyModal
      requires currentIndex == |QuizQuestions| - 1 ==> Complete(currentAnswers)
      requires forall i :: 0 <= i <= currentIndex ==> i in answers
      modifies this
      ensures Valid()
      ensures answers == old(answers) && showSafetyModal == old(showSafetyModal)
      ensures old(currentIndex) < |QuizQuestions| - 1 ==>
                currentIndex == old(currentIndex) + 1 && submitted == old(submitted)
      ensures old(currentIndex) == |QuizQuestions| - 1 ==>
                currentIndex == old(currentIndex) && submitted == old(submitted) + [currentAnswers]
    {
      if currentIndex < |QuizQuestions| - 1 {
        currentIndex := currentIndex + 1;
      } else {
        submitted := submitted + [currentAnswers];
      }
    }

    /** `handleAnswer`: store the option under the current question; at question 10
        with any option but the first, open the safety modal instead of advancing.
        While the modal is shown it covers the option buttons, so no answer arrives. */
    method HandleAnswer(optionIndex: nat)
      requires Valid()
      requires !showSafetyModal
      requires optionIndex < |QuizQuestions[currentIndex].options|
      modifies this
      ensures Valid()
      ensures answers == old(answers)[old(currentIndex) := optionIndex as int]
      ensures old(currentIndex) == SafetyQuestionIndex && optionIndex > 0 ==>
                showSafetyModal && currentIndex == old(currentIndex) && submitted == old(submitted)
      ensures !(old(currentIndex) == SafetyQuestionIndex && optionIndex > 0) ==>
                && !showSafetyModal
                && (old(currentIndex) < |QuizQuestions| - 1 ==>
                      currentIndex == old(currentIndex) + 1 && submitted == old(submitted))
                && (old(currentIndex) == |QuizQuestions| - 1 ==>
                      currentIndex == old(currentIndex) && submitted == old(submitted) + [answers])
    {
      var newAnswers := answers[currentIndex := optionIndex as int];
      answers := newAnswers;
      if currentIndex == SafetyQuestionIndex && optionIndex > 0 {
        showSafetyModal := true;
      } else {
        AdvanceQuestion(newAnswers);
      }
    }

    /** `handleCloseModalAndContinue`: close the modal, then advance as usual. */
    method CloseModalAndContinue()
      requires Valid()
      requires showSafetyModal
      modifies this
      ensures Valid()
      ensures !showSafetyModal && answers == old(answers)
      ensures currentIndex == old(currentIndex) + 1 && submitted == old(submitted)
    {
      showSafetyModal := false;
      AdvanceQuestion(answers);
    }
  }
}
