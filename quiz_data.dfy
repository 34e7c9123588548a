/** The quiz question table of constants.ts, and the answer map the quiz fills in. */
module QuizData {

  datatype Question = Question(text: string, options: seq<string>)

  /** `QuizAnswers`: question index to chosen option index. */
  type Answers = map<int, int>

  const QuizQuestions: seq<Question> := [
    Question("How would you rate your overall mood today?",
      ["Excellent \U{1F331}", "Good", "Okay", "Not so great", "Really struggling"]),
    Question("How many hours of quality sleep did you get last night?",
      ["Less than 4 hours", "4-6 hours", "7-8 hours \U{1F319}", "More than 8 hours"]),
    Question("How physically active have you been in the last 24 hours?",
      ["Very active", "Moderately active", "Lightly active", "Not active at all"]),
    Question("How connected do you feel to friends or family right now?",
      ["Very connected", "Somewhat connected", "A little disconnected", "Very isolated"]),
    Question("How much time did you spend on social media today?",
      ["Less than 30 minutes", "30-60 minutes", "1-2 hours", "More than 2 hours"]),
    Question("How would you describe your energy levels?",
      ["High energy", "Steady energy", "Feeling a bit sluggish", "Completely drained"]),
    Question("How often have you felt overwhelmed by your responsibilities lately?",
      ["Rarely or never", "Sometimes", "Often", "Almost constantly"]),
    Question("How easily can you focus on a single task without getting distracted?",
      ["Very easily", "Somewhat easily", "With some difficulty", "It's a real struggle"]),
    Question("How often do you find yourself worrying about the future?",
      ["Rarely", "Occasionally", "Frequently", "Almost all the time"]),
    Question("In the past two weeks, how often have you had thoughts that you would be better off dead or of hurting yourself in some way?",
      ["Not at all", "Several days", "More than half the days", "Nearly every day"]),
    Question("How would you describe your short-term memory (e.g., remembering a phone number)?",
      ["Excellent, like a vault", "Pretty good", "A bit fuzzy", "What was the question?"]),
    Question("When faced with a complex problem, how do you typically feel?",
      ["Energized and ready to solve", "Cautiously optimistic", "A little anxious", "Completely overwhelmed"]),
    Question("How often do you engage in creative activities (e.g., drawing, writing, music)?",
      ["Daily", "A few times a week", "Once in a while", "Almost never"]),
    Question("How adaptable are you to unexpected changes in your routine?",
      ["Very adaptable, I love spontaneity", "I can adjust with some effort", "I find it difficult", "I strongly dislike change"]),
    Question("How would you rate your ability to learn a new skill?",
      ["I learn very quickly", "Average learning pace", "It takes me a while", "I struggle to learn new things"]),
    Question("How often do you feel mentally 'sharp' and alert?",
      ["Most of the time", "About half the time", "Occasionally", "Rarely"]),
    Question("When you make a mistake, how do you typically react?",
      ["Learn from it and move on", "Feel a bit down but recover", "Criticize myself harshly", "Dwell on it for a long time"])
  ]

  /** The question after which the safety modal may open (question 10). */
  const SafetyQuestionIndex: nat := 9

  /** Shape of the table: 17 questions, the first with five options, the rest with four,
      and no option text is empty. */
  lemma QuizQuestionsShape()
    ensures |QuizQuestions| == 17
    ensures |QuizQuestions[0].options| == 5
    ensures forall i :: 1 <= i < |QuizQuestions| ==> |QuizQuestions[i].options| == 4
    ensures forall i, j :: 0 <= i < |QuizQuestions| && 0 <= j < |QuizQuestions[i].options| ==>
              QuizQuestions[i].options[j] != ""
    ensures SafetyQuestionIndex < |QuizQuestions|
  {
  }
}
