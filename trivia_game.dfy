/**
 * The single-player trivia round of the game page: the counters a round keeps
 * (round number, current question, points), the reset that starts a round,
 * the check of the question provider's response code, and the answer handler
 * that either advances to the next question or closes the round and reports
 * the score on the result page.
 *
 * The React component keeps its state in hooks; a handler sees the values of
 * the render it was created in, and its own updates take effect only at the
 * next render.  `Game.HandlePoints` models that by reading every field once,
 * before it updates any, so the score it reports when it closes a round is
 * the score held BEFORE the final answer's points were added.
 */
module TriviaGame {
  import opened Wrappers

  /** One question as the provider delivers it. */
  datatype Question = Question(question: string, kind: string, correctAnswer: string, incorrectAnswers: seq<string>)

  /** The decoded body of the provider's reply: its status code and its list of questions. */
  datatype TriviaResponse = TriviaResponse(responseCode: int, results: seq<Question>)

  /** The result page's query: the room and the reported score. */
  datatype ResultLink = ResultLink(room: Option<string>, score: int)

  /** The value an answer component passes for a correct answer. */
  const CorrectAnswer := 1
  /** Points for one correct answer. */
  const PointsPerCorrect := 2
  /** The response code of a successful provider reply. */
  const ResponseOk := 0

  /** The counters one answer changes. */
  datatype Counters = Counters(round: nat, questionNum: nat, points: int)

  /** The counters after one answer, and the score reported if the answer closed the round. */
  datatype Outcome = Outcome(after: Counters, report: Option<int>)

  /** The counters after several answers, and every score reported on the way. */
  datatype Played = Played(after: Counters, reports: seq<int>)

  /** The score as a list: empty when no round was closed. */
  function Reports(report: Option<int>): seq<int> {
    match report
    case None => []
    case Some(score) => [score]
  }

  /**
   * One answer event `e` on a queue of `queueLength` questions.  A correct
   * answer adds two points; the question advances unless it is the last one,
   * in which case the round counter advances and the points held before this
   * answer are reported.
   */
  function Answer(c: Counters, e: int, queueLength: nat): (o: Outcome)
    ensures o.after.points == c.points + (if e == CorrectAnswer then PointsPerCorrect else 0)
    ensures c.questionNum < queueLength - 1 ==>
              o.after.questionNum == c.questionNum + 1 && o.after.round == c.round && o.report == None
    ensures c.questionNum >= queueLength - 1 ==>
              o.after.questionNum == c.questionNum && o.after.round == c.round + 1 && o.report == Some(c.points)
  {
    var points := if e == CorrectAnswer then c.points + PointsPerCorrect else c.points;
    if c.questionNum < queueLength - 1 then
      Outcome(Counters(c.round, c.questionNum + 1, points), None)
    else
      Outcome(Counters(c.round + 1, c.questionNum, points), Some(c.points))
  }

  /** The answers `answers`, given one after another, from counters `c`. */
  function Replay(c: Counters, answers: seq<int>, queueLength: nat): Played
    decreases |answers|
  {
    if answers == [] then Played(c, [])
    else
      var before := Replay(c, answers[..|answers| - 1], queueLength);
      var o := Answer(before.after, answers[|answers| - 1], queueLength);
      Played(o.after, before.reports + Reports(o.report))
  }

  /** How many of `answers` are correct. */
  function CorrectCount(answers: seq<int>): (n: nat)
    ensures n <= |answers|
    decreases |answers|
  {
    if answers == [] then 0
    else CorrectCount(answers[..|answers| - 1]) + (if answers[|answers| - 1] == CorrectAnswer then 1 else 0)
  }

  /** Points grow by exactly two per correct answer, whatever else happens. */
  lemma {:induction false} ReplayPoints(c: Counters, answers: seq<int>, queueLength: nat)
    ensures Replay(c, answers, queueLength).after.points == c.points + PointsPerCorrect * CorrectCount(answers)
    decreases |answers|
  {
    if answers != [] {
      ReplayPoints(c, answers[..|answers| - 1], queueLength);
    }
  }

  /** From the start of a round (question 0, no points) the points are even, non-negative and at most two per answer given. */
  lemma {:induction false} PointsEvenAndBounded(round: nat, answers: seq<int>, queueLength: nat)
    ensures var p := Replay(Counters(round, 0, 0), answers, queueLength).after.points;
            p % 2 == 0 && 0 <= p <= PointsPerCorrect * |answers|
  {
    ReplayPoints(Counters(round, 0, 0), answers, queueLength);
  }

  /**
   * On a non-empty queue the current question stays a valid index of the
   * queue, however many answers arrive: the render's lookup of the current
   * question is in bounds.
   */
  lemma {:induction false} QuestionStaysInRange(c: Counters, answers: seq<int>, queueLength: nat)
    requires c.questionNum < queueLength
    ensures Replay(c, answers, queueLength).after.questionNum < queueLength
    decreases |answers|
  {
    if answers != [] {
      QuestionStaysInRange(c, answers[..|answers| - 1], queueLength);
    }
  }

  /**
   * Before the last question is answered, a round only advances the
   * question: after k answers (k below the queue length) the question number
   * is k, the round counter is unchanged and nothing has been reported.
   */
  lemma {:induction false} WithinRound(round: nat, answers: seq<int>, queueLength: nat)
    requires |answers| < queueLength
    ensures Replay(Counters(round, 0, 0), answers, queueLength)
            == Played(Counters(round, |answers|, PointsPerCorrect * CorrectCount(answers)), [])
    decreases |answers|
  {
    if answers != [] {
      WithinRound(round, answers[..|answers| - 1], queueLength);
    }
  }

  /**
   * A whole round: one answer per question of a non-empty queue closes the
   * round exactly once, at the last answer.  The round counter goes up by
   * one, the question number rests on the last question, and the reported
   * score counts the correct answers among all but the last question: the
   * final answer's points are held but not reported.
   */
  lemma FullRound(round: nat, answers: seq<int>, queueLength: nat)
    requires queueLength >= 1 && |answers| == queueLength
    ensures var last := |answers| - 1;
            Replay(Counters(round, 0, 0), answers, queueLength)
            == Played(Counters(round + 1, last, PointsPerCorrect * CorrectCount(answers)),
                      [PointsPerCorrect * CorrectCount(answers[..last])])
  {
    var last := |answers| - 1;
    WithinRound(round, answers[..last], queueLength);
  }

  /** The screen the component renders. `Broken` is a lookup past the end of the queue (a TypeError in the source). */
  datatype Screen = Loading | Showing(questionNum: nat, question: Question) | Broken

  /** The trivia component's state. */
  class Game {
    /** The `room` query parameter of the page. */
    const room: Option<string>
    var difficulty: string
    var loading: bool
    var triviaRound: nat
    var triviaQueue: seq<Question>
    var questionNum: nat
    var userPoints: int
    var runTimer: int
    /** The result pages navigated to, oldest first. */
    var navigations: seq<ResultLink>

    /** The initial hook values. */
    constructor (room: Option<string>, difficulty: string)
      ensures this.room == room && this.difficulty == difficulty
      ensures loading && triviaRound == 0 && triviaQueue == []
      ensures questionNum == 0 && userPoints == 0 && runTimer == 0 && navigations == []
    {
      this.room := room;
      this.difficulty := difficulty;
      loading := true;
      triviaRound := 0;
      triviaQueue := [];
      questionNum := 0;
      userPoints := 0;
      runTimer := 0;
      navigations := [];
    }

    function Snapshot(): Counters
      reads this
    {
      Counters(triviaRound, questionNum, userPoints)
    }

    function View(): (s: Screen)
      reads this
      ensures s.Showing? ==> s.questionNum == questionNum < |triviaQueue| && s.question == triviaQueue[questionNum]
      ensures s.Loading? <==> loading
      ensures !loading && questionNum < |triviaQueue| ==> s == Showing(questionNum, triviaQueue[questionNum])
      ensures s.Broken? <==> !loading && questionNum >= |triviaQueue|
    {
      if loading then Loading
      else if questionNum < |triviaQueue| then Showing(questionNum, triviaQueue[questionNum])
      else Broken
    }

    /**
     * The effect that runs on mount and whenever the round counter changes: take the
     * difficulty from the props and reset the counters and the timer.  The
     * fetch it starts completes later, in `InstallQuestions`.
     */
    method BeginRound(propsDifficulty: string)
      modifies this
      ensures difficulty == propsDifficulty
      ensures questionNum == 0 && userPoints == 0 && runTimer == 0
      ensures triviaRound == old(triviaRound) && triviaQueue == old(triviaQueue)
      ensures loading == old(loading) && navigations == old(navigations)
    {
      difficulty := propsDifficulty;
      questionNum := 0;
      userPoints := 0;
      runTimer := 0;
    }

    /**
     * The completion of the question fetch with the provider's decoded reply.
     * A non-zero response code is flagged (`alerted`), but the reply's list is
     * installed as the queue all the same, and the question screen is shown.
     */
    method InstallQuestions(response: TriviaResponse) returns (alerted: bool)
      modifies this
      ensures alerted <==> response.responseCode != ResponseOk
      ensures triviaQueue == response.results && !loading
      ensures Snapshot() == old(Snapshot()) && runTimer == old(runTimer)
      ensures difficulty == old(difficulty) && navigations == old(navigations)
    {
      alerted := false;
      if response.responseCode != ResponseOk {
        alerted := true;
      }
      triviaQueue := response.results;
      loading := false;
    }

    /**
     * The answer handler: the counters move as `Answer` says; when the answer
     * closes the round the result page is opened with the reported score.
     */
    method HandlePoints(e: int)
      modifies this
      ensures var o := Answer(old(Snapshot()), e, |old(triviaQueue)|);
              Snapshot() == o.after && navigations == old(navigations) + ResultLinks(room, o.report)
      ensures old(questionNum) < |triviaQueue| ==> questionNum < |triviaQueue|
      ensures triviaQueue == old(triviaQueue) && loading == old(loading)
      ensures runTimer == old(runTimer) && difficulty == old(difficulty)
    {
      // the values this render's handler closes over
      var points, num := userPoints, questionNum;
      if e == CorrectAnswer {
        userPoints := points + PointsPerCorrect;
      }
      if num < |triviaQueue| - 1 {
        questionNum := num + 1;
      } else {
        FinishCurrentRound(triviaRound, points);
      }
    }

    /** Close the round: advance the round counter and open the result page with `points`. */
    method FinishCurrentRound(round: nat, points: int)
      modifies this`triviaRound, this`navigations
      ensures triviaRound == round + 1
      ensures navigations == old(navigations) + [ResultLink(room, points)]
    {
      triviaRound := round + 1;
      navigations := navigations + [ResultLink(room, points)];
    }
  }

  /** The result pages opened for a reported score. */
  function ResultLinks(room: Option<string>, report: Option<int>): seq<ResultLink>
  {
    match report
    case None => []
    case Some(score) => [ResultLink(room, score)]
  }
}
