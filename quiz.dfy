/** The quiz view: ten multiple-choice questions drawn from the described
    letters, a ten-second countdown per question, scoring, advancing after the
    feedback pause, restart, and the message chosen for the final score. */
module Quiz {
  import opened Wrappers
  import opened Sequences
  import opened Percentages

  /** The letters the quiz has a description for, in the table's order. */
  const DescribedLetters: seq<char> :=
    ['A', 'B', 'C', 'D', 'E', 'F', 'G', 'H', 'I', 'L', 'O', 'R', 'S', 'T', 'V', 'W', 'Y']

  const SignDescriptions: map<char, string> := map[
    'A' := "Fist with thumb extended to the side",
    'B' := "All fingers together pointing up, thumb across palm",
    'C' := "Curve all fingers to form a C shape",
    'D' := "Point index finger up, other fingers touch thumb",
    'E' := "Curl all fingers down over thumb",
    'F' := "Touch thumb and index fingertips, other fingers extended",
    'G' := "Point index finger and thumb sideways",
    'H' := "Extend index and middle fingers together horizontally",
    'I' := "Extend pinky finger upward, other fingers folded",
    'L' := "Make L shape with thumb and index finger",
    'O' := "Form circle with all fingertips touching",
    'R' := "Cross index and middle fingers",
    'S' := "Make a fist with thumb in front",
    'T' := "Tuck thumb between index and middle finger",
    'V' := "Make V with index and middle fingers",
    'W' := "Extend index, middle, and ring fingers",
    'Y' := "Extend thumb and pinky, fold other fingers"
  ]

  const QuestionCount: nat := 10
  const WrongAnswerCount: nat := 3
  /** Seconds allowed per question. */
  const TimeLimit: int := 10

  datatype Question = Question(letter: char, description: string, answers: seq<char>, correctAnswer: char)

  /** The keys of the description table are exactly the described letters,
      each listed once. */
  lemma DescribedLettersAreKeys()
    ensures Distinct(DescribedLetters)
    ensures forall c :: c in SignDescriptions <==> c in DescribedLetters
  {
  }

  /** A described letter has a description. */
  lemma DescribedIsKey(c: char)
    requires c in DescribedLetters
    ensures c in SignDescriptions
  {
    DescribedLettersAreKeys();
  }

  // ---------------------------------------------------------------------------
  // Question generation

  /** The outcomes of the two random sorts made for one question, as the
      orders they leave their arrays in: the other letters, then the four
      answers. */
  datatype QuestionDraw = QuestionDraw(wrongOrder: seq<nat>, answerOrder: seq<nat>)

  /** The outcomes of every random sort one `generateQuestions` makes: the
      order of the described letters, and one draw per question. */
  datatype Draw = Draw(letterOrder: seq<nat>, perQuestion: seq<QuestionDraw>)

  /** `qd` is a possible outcome of the sorts made for one question. */
  predicate ValidQuestionDraw(qd: QuestionDraw) {
    IsPermutation(qd.wrongOrder, |DescribedLetters| - 1) &&
    IsPermutation(qd.answerOrder, WrongAnswerCount + 1)
  }

  /** `d` is a possible outcome of all the sorts of one `generateQuestions`. */
  predicate ValidDraw(d: Draw) {
    && IsPermutation(d.letterOrder, |DescribedLetters|)
    && |d.perQuestion| == QuestionCount
    && forall i :: 0 <= i < QuestionCount ==> ValidQuestionDraw(d.perQuestion[i])
  }

  /** The other described letters, in table order. */
  function OtherLetters(letter: char): (r: seq<char>)
    requires letter in DescribedLetters
    ensures |r| == |DescribedLetters| - 1
    ensures Distinct(r)
    ensures forall c :: c in r <==> c in DescribedLetters && c != letter
  {
    DescribedLettersAreKeys();
    WithoutDistinct(DescribedLetters, letter);
    Without(DescribedLetters, letter)
  }

  /** The question built for `letter`: the first three of the shuffled other
      letters and the letter itself, shuffled again. */
  function MakeQuestion(letter: char, qd: QuestionDraw): (q: Question)
    requires letter in DescribedLetters && ValidQuestionDraw(qd)
    ensures q.letter == letter && q.correctAnswer == letter
    ensures |q.answers| == WrongAnswerCount + 1
  {
    DescribedIsKey(letter);
    var wrongAnswers := Pick(OtherLetters(letter), qd.wrongOrder)[..WrongAnswerCount];
    var allAnswers := Pick([letter] + wrongAnswers, qd.answerOrder);
    Question(letter, SignDescriptions[letter], allAnswers, letter)
  }

  /** `letters.map(...)`: one question per letter, the `i`th built from the
      `i`th draw. */
  function MapQuestions(letters: seq<char>, draws: seq<QuestionDraw>): (qs: seq<Question>)
    requires |letters| <= |draws|
    requires forall c :: c in letters ==> c in DescribedLetters
    requires forall i :: 0 <= i < |letters| ==> ValidQuestionDraw(draws[i])
    ensures |qs| == |letters|
    ensures forall i :: 0 <= i < |letters| ==> qs[i] == MakeQuestion(letters[i], draws[i])
  {
    if letters == [] then []
    else [MakeQuestion(letters[0], draws[0])] + MapQuestions(letters[1..], draws[1..])
  }

  /** `generateQuestions`: shuffle the described letters, keep the first ten,
      build one question for each. */
  function GenerateQuestions(d: Draw): (qs: seq<Question>)
    requires ValidDraw(d)
    ensures |qs| == QuestionCount
    ensures forall i :: 0 <= i < |qs| ==> qs[i].letter in DescribedLetters
  {
    var shuffled := Pick(DescribedLetters, d.letterOrder);
    PickFrom(DescribedLetters, d.letterOrder);
    MapQuestions(shuffled[..QuestionCount], d.perQuestion)
  }

  /** What every generated question satisfies. */
  predicate WellFormedQuestion(q: Question) {
    && q.letter in DescribedLetters
    && q.correctAnswer == q.letter
    && q.letter in SignDescriptions && q.description == SignDescriptions[q.letter]
    && |q.answers| == WrongAnswerCount + 1
    && Distinct(q.answers)
    && (forall a :: a in q.answers ==> a in DescribedLetters)
    && q.correctAnswer in q.answers
  }

  /** What every generated quiz satisfies. */
  predicate WellFormedQuiz(qs: seq<Question>) {
    && |qs| == QuestionCount
    && (forall i, j :: 0 <= i < j < |qs| ==> qs[i].letter != qs[j].letter)
    && forall i :: 0 <= i < |qs| ==> WellFormedQuestion(qs[i])
  }

  /** The wrong answers: three distinct letters of the list. */
  lemma WrongAnswersFrom(others: seq<char>, wrongOrder: seq<nat>)
    requires Distinct(others) && |others| >= WrongAnswerCount && IsPermutation(wrongOrder, |others|)
    ensures var wrong := Pick(others, wrongOrder)[..WrongAnswerCount];
            && |wrong| == WrongAnswerCount
            && Distinct(wrong)
            && forall a :: a in wrong ==> a in others
  {
    PickDistinct(others, wrongOrder);
    PickFrom(others, wrongOrder);
    var shuffled := Pick(others, wrongOrder);
    assert forall a :: a in shuffled[..WrongAnswerCount] ==> a in shuffled;
  }

  /** The answers built from a letter and a repeat-free list of other
      letters: four distinct values, the letter among them, the rest taken
      from the list. */
  lemma AnswersFromOthers(letter: char, others: seq<char>, qd: QuestionDraw)
    requires Distinct(others) && letter !in others && |others| >= WrongAnswerCount
    requires IsPermutation(qd.wrongOrder, |others|) && IsPermutation(qd.answerOrder, WrongAnswerCount + 1)
    ensures var answers := Pick([letter] + Pick(others, qd.wrongOrder)[..WrongAnswerCount], qd.answerOrder);
            && |answers| == WrongAnswerCount + 1
            && Distinct(answers)
            && letter in answers
            && forall a :: a in answers ==> a == letter || a in others
  {
    WrongAnswersFrom(others, qd.wrongOrder);
    var wrong := Pick(others, qd.wrongOrder)[..WrongAnswerCount];
    var all := [letter] + wrong;
    assert Distinct(all) by {
      assert forall i :: 1 <= i < |all| ==> all[i] == wrong[i - 1];
    }
    PickDistinct(all, qd.answerOrder);
    PickKeepsAll(all, qd.answerOrder, 0);
    PickFrom(all, qd.answerOrder);
  }

  /** A question for a described letter has four distinct described answers,
      the letter among them. */
  lemma MakeQuestionWellFormed(letter: char, qd: QuestionDraw)
    requires letter in DescribedLetters && ValidQuestionDraw(qd)
    ensures WellFormedQuestion(MakeQuestion(letter, qd))
  {
    DescribedIsKey(letter);
    AnswersFromOthers(letter, OtherLetters(letter), qd);
  }

  /** The correct answer appears among the four answers exactly once. */
  lemma CorrectAnswerOnce(q: Question)
    requires WellFormedQuestion(q)
    ensures exists k :: 0 <= k < |q.answers| && q.answers[k] == q.correctAnswer &&
                        forall j :: 0 <= j < |q.answers| && j != k ==> q.answers[j] != q.correctAnswer
  {
    var k :| 0 <= k < |q.answers| && q.answers[k] == q.correctAnswer;
    assert forall j :: 0 <= j < |q.answers| && j != k ==> q.answers[j] != q.answers[k];
  }

  /** `generateQuestions` yields ten well-formed questions with distinct
      letters. */
  lemma GeneratedQuizWellFormed(d: Draw)
    requires ValidDraw(d)
    ensures WellFormedQuiz(GenerateQuestions(d))
  {
    DescribedLettersAreKeys();
    var shuffled := Pick(DescribedLetters, d.letterOrder);
    PickDistinct(DescribedLetters, d.letterOrder);
    var qs := GenerateQuestions(d);
    forall i | 0 <= i < QuestionCount
      ensures WellFormedQuestion(qs[i])
    {
      MakeQuestionWellFormed(shuffled[i], d.perQuestion[i]);
    }
  }

  // ---------------------------------------------------------------------------
  // Final message

  datatype Tier = Outstanding | GreatJob | GoodEffort | KeepLearning

  /** The message tier for a final score, chosen by integer comparison. */
  function ResultTier(score: nat, total: nat): (r: Tier)
    requires total > 0
    ensures r == Outstanding <==> Percentage(score, total) >= 90.0
    ensures r == GreatJob <==> 70.0 <= Percentage(score, total) < 90.0
    ensures r == GoodEffort <==> 50.0 <= Percentage(score, total) < 70.0
    ensures r == KeepLearning <==> Percentage(score, total) < 50.0
  {
    PercentageAtLeast(score, total, 90);
    PercentageAtLeast(score, total, 70);
    PercentageAtLeast(score, total, 50);
    if 100 * score >= 90 * total then Outstanding
    else if 100 * score >= 70 * total then GreatJob
    else if 100 * score >= 50 * total then GoodEffort
    else KeepLearning
  }

  /** Tiers ordered from best to worst. */
  function TierRank(t: Tier): nat {
    match t
    case Outstanding => 0
    case GreatJob => 1
    case GoodEffort => 2
    case KeepLearning => 3
  }

  /** A higher score never earns a worse message. */
  lemma ResultTierMonotone(s1: nat, s2: nat, total: nat)
    requires total > 0 && s1 <= s2
    ensures TierRank(ResultTier(s2, total)) <= TierRank(ResultTier(s1, total))
  {
  }

  // ---------------------------------------------------------------------------
  // The component's state

  class QuizMode {
    var currentQuestion: nat
    var score: nat
    var selectedAnswer: Option<char>
    var showResult: bool
    var quizComplete: bool
    var timeLeft: int
    var quizStarted: bool
    var questions: seq<Question>
    /** How many times `handleAnswer` ran since the last restart. */
    ghost var answered: nat

    ghost predicate Valid()
      reads this
    {
      && WellFormedQuiz(questions)
      && currentQuestion < |questions|
      && 1 <= timeLeft <= TimeLimit
      && score <= answered
    }

    /** Mounting the view: the initial state, and the questions generated by
        the mount effect. */
    constructor (d: Draw)
      requires ValidDraw(d)
      ensures Valid()
      ensures questions == GenerateQuestions(d)
      ensures currentQuestion == 0 && score == 0 && selectedAnswer.None? && !showResult
      ensures !quizComplete && timeLeft == TimeLimit && !quizStarted
    {
      GeneratedQuizWellFormed(d);
      questions := GenerateQuestions(d);
      currentQuestion := 0;
      score := 0;
      selectedAnswer := None;
      showResult := false;
      quizComplete := false;
      timeLeft := TimeLimit;
      quizStarted := false;
      answered := 0;
    }

    /** `handleAnswer`: records the answer (`None` for a timeout), shows the
        feedback, and scores a point exactly for the correct letter. The
        advance it schedules is `Advance(currentQuestion)`. */
    method HandleAnswer(answer: Option<char>)
      requires Valid()
      modifies this`selectedAnswer, this`showResult, this`score, this`answered
      ensures Valid()
      ensures selectedAnswer == answer && showResult
      ensures score == old(score) + (if answer == Some(questions[currentQuestion].correctAnswer) then 1 else 0)
      ensures answered == old(answered) + 1
    {
      selectedAnswer := answer;
      showResult := true;
      if answer == Some(questions[currentQuestion].correctAnswer) {
        score := score + 1;
      }
      answered := answered + 1;
    }

    /** Clicking an answer button: ignored while feedback is shown. */
    method ClickAnswer(answer: char)
      requires Valid() && quizStarted && !quizComplete
      modifies this`selectedAnswer, this`showResult, this`score, this`answered
      ensures Valid()
      ensures old(showResult) ==> unchanged(this)
      ensures !old(showResult) ==>
                selectedAnswer == Some(answer) && showResult &&
                score == old(score) + (if answer == questions[currentQuestion].correctAnswer then 1 else 0)
    {
      if !showResult {
        HandleAnswer(Some(answer));
      }
    }

    /** One second of the countdown. The interval runs only while the quiz is
        started, not complete and no answer is selected; at one second or less
        it records a timeout and restarts the count. */
    method Tick()
      requires Valid()
      modifies this`timeLeft, this`selectedAnswer, this`showResult, this`score, this`answered
      ensures Valid()
      ensures !(old(quizStarted) && !old(quizComplete) && old(selectedAnswer).None?) ==> unchanged(this)
      ensures old(quizStarted) && !old(quizComplete) && old(selectedAnswer).None? ==>
                if old(timeLeft) > 1 then
                  && timeLeft == old(timeLeft) - 1
                  && score == old(score) && showResult == old(showResult)
                  && selectedAnswer == old(selectedAnswer) && answered == old(answered)
                else
                  && timeLeft == TimeLimit && showResult && selectedAnswer.None?
                  && score == old(score) && answered == old(answered) + 1
    {
      if !quizStarted || quizComplete || selectedAnswer.Some? {
        return;
      }
      if timeLeft <= 1 {
        HandleAnswer(None);
        timeLeft := TimeLimit;
      } else {
        timeLeft := timeLeft - 1;
      }
    }

    /** The feedback pause ends for question `q`, the `currentQuestion` the
        answer saw: move to the next question, or complete the quiz after the
        last one. */
    method Advance(q: nat)
      requires Valid() && q < |questions|
      modifies this`currentQuestion, this`selectedAnswer, this`showResult, this`timeLeft, this`quizComplete
      ensures Valid()
      ensures q < |questions| - 1 ==>
                currentQuestion == q + 1 && selectedAnswer.None? && !showResult &&
                timeLeft == TimeLimit && quizComplete == old(quizComplete)
      ensures q == |questions| - 1 ==>
                quizComplete && currentQuestion == old(currentQuestion) &&
                selectedAnswer == old(selectedAnswer) && showResult == old(showResult) &&
                timeLeft == old(timeLeft)
    {
      if q < |questions| - 1 {
        currentQuestion := q + 1;
        selectedAnswer := None;
        showResult := false;
        timeLeft := TimeLimit;
      } else {
        quizComplete := true;
      }
    }

    /** `restartQuiz`: new questions and every field back to its initial value. */
    method Restart(d: Draw)
      requires Valid() && ValidDraw(d)
      modifies this
      ensures Valid()
      ensures questions == GenerateQuestions(d)
      ensures currentQuestion == 0 && score == 0 && selectedAnswer.None? && !showResult
      ensures !quizComplete && timeLeft == TimeLimit && !quizStarted
    {
      GeneratedQuizWellFormed(d);
      questions := GenerateQuestions(d);
      currentQuestion := 0;
      score := 0;
      selectedAnswer := None;
      showResult := false;
      quizComplete := false;
      timeLeft := TimeLimit;
      quizStarted := false;
      answered := 0;
    }

    /** `startQuiz`. */
    method Start()
      requires Valid()
      modifies this`quizStarted, this`timeLeft
      ensures Valid()
      ensures quizStarted && timeLeft == TimeLimit
    {
      quizStarted := true;
      timeLeft := TimeLimit;
    }
  }
}
