/**
  One practice session: ten questions answered in turn, with a running
  score and streak, a guard against answering twice, mentor messages on
  streaks and mistakes, and the final 0-3 star rating.
 */
module Session {
  import opened Wrappers
  import opened Types

  const TOTAL_QUESTIONS: int := 10

  /** The events the mentor is asked to comment on. */
  datatype MentorContext = Correct | Mistake

  /** The state of a session screen. `selected` is the answer already given
      to the current question, if any. */
  datatype Session = Session(index: int, question: Option<Question>, score: int, streak: int, selected: Option<int>)

  /** What an accepted answer produces: the next state, whether it was right,
      and the mentor request it fires, if any. */
  datatype Reaction = Reaction(next: Session, isCorrect: bool, mentor: Option<MentorContext>)

  /** What the delayed continuation does: show the next question, or report
      the final score and stars to the app. */
  datatype Continuation = Continue(session: Session) | Complete(finalScore: int, stars: int)

  /** The exact fraction of questions answered correctly. */
  function Percentage(finalScore: int): real
  {
    finalScore as real / TOTAL_QUESTIONS as real
  }

  /** The star rating: at least 90% gives three stars, at least 60% two, any
      correct answer one. Computed with integer thresholds; the contract
      states it against the exact percentage. */
  function StarRating(finalScore: int): (stars: int)
    ensures 0 <= stars <= 3
    ensures stars == 3 <==> Percentage(finalScore) >= 0.9
    ensures stars == 2 <==> 0.6 <= Percentage(finalScore) < 0.9
    ensures stars == 1 <==> 0.0 < Percentage(finalScore) < 0.6
    ensures stars == 0 <==> Percentage(finalScore) <= 0.0
  {
    if finalScore >= 9 then 3
    else if finalScore >= 6 then 2
    else if finalScore > 0 then 1
    else 0
  }

  /** A better score never earns fewer stars. */
  lemma StarRatingMonotone(s1: int, s2: int)
    requires s1 <= s2
    ensures StarRating(s1) <= StarRating(s2)
  {
    assert Percentage(s1) <= Percentage(s2);
  }

  /** The points shown in the header. */
  function PointsShown(s: Session): (points: int)
    ensures s.score >= 0 ==> points >= 0 && points % 10 == 0
    ensures points / 10 == s.score
  {
    s.score * 10
  }

  /** A fresh session showing its first question. */
  function Start(first: Question): (s: Session)
    ensures Ready(s) && s.index == 0 && s.score == 0
  {
    Session(0, Some(first), 0, 0, None)
  }

  /** A session waiting for an answer: the streak never exceeds the score,
      and the score never exceeds the number of questions already answered. */
  predicate Ready(s: Session)
  {
    && s.question.Some?
    && s.selected.None?
    && 0 <= s.index < TOTAL_QUESTIONS
    && 0 <= s.streak <= s.score <= s.index
  }

  /** Records an answer. A second answer to the same question, or an answer
      before a question is shown, is ignored (`None`). A right answer adds one
      to score and streak and asks the mentor for praise on every third in a
      row; a wrong one resets the streak and asks the mentor to explain. */
  function HandleAnswer(s: Session, answer: int): (r: Option<Reaction>)
    ensures r.None? <==> s.selected.Some? || s.question.None?
    ensures r.Some? ==>
      && r.value.isCorrect == (answer == s.question.value.correctAnswer)
      && r.value.next.selected == Some(answer)
      && r.value.next.index == s.index
      && r.value.next.question == s.question
    ensures r.Some? && r.value.isCorrect ==>
      r.value.next.score == s.score + 1 && r.value.next.streak == s.streak + 1
    ensures r.Some? && !r.value.isCorrect ==>
      r.value.next.score == s.score && r.value.next.streak == 0
    ensures r.Some? ==>
      (r.value.mentor == Some(Correct) <==>
        r.value.isCorrect && r.value.next.streak % 3 == 0)
    ensures r.Some? ==> (r.value.mentor == Some(Mistake) <==> !r.value.isCorrect)
  {
    if s.selected.Some? || s.question.None? then None
    else
      var q := s.question.value;
      if answer == q.correctAnswer then
        var streak := s.streak + 1;
        Some(Reaction(
          s.(selected := Some(answer), score := s.score + 1, streak := streak),
          true,
          if streak % 3 == 0 then Some(Correct) else None))
      else
        Some(Reaction(s.(selected := Some(answer), streak := 0), false, Some(Mistake)))
  }

  /** The continuation that runs after the feedback delay. It reads the index
      and score captured when the answer was given (`before`), and updates the
      current state (`now`). */
  function AfterDelay(before: Session, isCorrect: bool, now: Session, nextQuestion: Question): (c: Continuation)
    ensures c.Continue? <==> before.index < TOTAL_QUESTIONS - 1
    ensures c.Continue? ==>
      && c.session.index == now.index + 1
      && c.session.question == Some(nextQuestion)
      && c.session.selected.None?
      && c.session.score == now.score
      && c.session.streak == now.streak
    ensures c.Complete? ==> c.stars == StarRating(c.finalScore)
    ensures c.Complete? && isCorrect ==> c.finalScore == before.score + 1
    ensures c.Complete? && !isCorrect ==> c.finalScore == before.score
  {
    if before.index < TOTAL_QUESTIONS - 1 then
      Continue(now.(index := now.index + 1, question := Some(nextQuestion), selected := None))
    else
      var finalScore := before.score + (if isCorrect then 1 else 0);
      Complete(finalScore, StarRating(finalScore))
  }

  /** One full round: an answer to a waiting session followed by its delayed
      continuation either leaves the session waiting on the next question, or
      (after the tenth question) completes it with a score in [0, 10] equal to
      the score the answer produced. */
  lemma {:induction false} RoundKeepsSessionReady(s: Session, answer: int, nextQuestion: Question)
    requires Ready(s)
    ensures HandleAnswer(s, answer).Some?
    ensures
      var r := HandleAnswer(s, answer).value;
      (r.mentor == Some(Correct) <==> r.next.streak > 0 && r.next.streak % 3 == 0)
    ensures
      var r := HandleAnswer(s, answer).value;
      match AfterDelay(s, r.isCorrect, r.next, nextQuestion)
      case Continue(s') => Ready(s') && s'.index == s.index + 1 && s'.score == r.next.score
      case Complete(finalScore, stars) =>
        && s.index == TOTAL_QUESTIONS - 1
        && finalScore == r.next.score
        && 0 <= finalScore <= TOTAL_QUESTIONS
        && 0 <= stars <= 3
  {
    var r := HandleAnswer(s, answer).value;
    var c := AfterDelay(s, r.isCorrect, r.next, nextQuestion);
    if c.Complete? {
      assert s.index == TOTAL_QUESTIONS - 1;
    }
  }

  /** A right answer earns ten header points; a wrong one earns none. */
  lemma PointsPerAnswer(s: Session, answer: int)
    requires HandleAnswer(s, answer).Some?
    ensures
      var r := HandleAnswer(s, answer).value;
      PointsShown(r.next) == PointsShown(s) + (if r.isCorrect then 10 else 0)
  {
  }

  /** The number of positions among the first `n` where the answer is right. */
  function CountCorrect(questions: seq<Question>, answers: seq<int>, n: nat): (k: nat)
    requires n <= |questions| && n <= |answers|
    ensures k <= n
  {
    if n == 0 then 0
    else CountCorrect(questions, answers, n - 1) + (if answers[n - 1] == questions[n - 1].correctAnswer then 1 else 0)
  }

  /** Plays a whole session: question i is answered with answers[i]. The
      reported score is the number of right answers and the stars are its
      rating. */
  method PlaySession(questions: seq<Question>, answers: seq<int>) returns (finalScore: int, stars: int)
    requires |questions| == TOTAL_QUESTIONS && |answers| == TOTAL_QUESTIONS
    ensures finalScore == CountCorrect(questions, answers, TOTAL_QUESTIONS)
    ensures 0 <= finalScore <= TOTAL_QUESTIONS
    ensures stars == StarRating(finalScore)
  {
    var s := Start(questions[0]);
    var i := 0;
    finalScore, stars := 0, 0;
    var done := false;
    while !done
      invariant 0 <= i <= TOTAL_QUESTIONS
      invariant !done ==> i < TOTAL_QUESTIONS && Ready(s) && s.index == i && s.question == Some(questions[i])
      invariant !done ==> s.score == CountCorrect(questions, answers, i)
      invariant done ==> i == TOTAL_QUESTIONS && finalScore == CountCorrect(questions, answers, TOTAL_QUESTIONS)
      invariant done ==> stars == StarRating(finalScore)
      decreases TOTAL_QUESTIONS - i, if done then 0 else 1
    {
      RoundKeepsSessionReady(s, answers[i], questions[if i + 1 < TOTAL_QUESTIONS then i + 1 else i]);
      var r := HandleAnswer(s, answers[i]).value;
      var next := if i + 1 < TOTAL_QUESTIONS then questions[i + 1] else questions[i];
      match AfterDelay(s, r.isCorrect, r.next, next)
      case Continue(s') =>
        s := s';
        i := i + 1;
      case Complete(f, st) =>
        finalScore, stars := f, st;
        i := i + 1;
        done := true;
    }
  }
}
