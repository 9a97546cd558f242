/**
 The handler of the "score" button: guard the call budget, send the prompt,
 count the call, read the reply's score matrix, add it up, pick the banner
 and prepare the radar chart.
 */
module ScoringPage {
  import opened Wrappers
  import opened Rubric
  import opened Ranking
  import opened Aggregation
  import opened Radar
  import opened Prompt
  import opened Budget

  /** Calls the handler reserves before it sends its one request. */
  const ReservedCalls: int := 3

  /**
   What came back for the prompt: the request itself failed, the content was
   not JSON, the JSON object had no "scores" key, or its score matrix.
   */
  datatype Reply = RequestFailed | NotJson | NoScores | Scores(matrix: ScoreMatrix)

  /** Why a press ended without a result. */
  datatype Halt =
    | LimitReached          // check_api_limit stopped the page
    | RequestError          // the chat-completion call raised
    | InvalidJson           // json.loads raised
    | MissingScores         // data["scores"] raised
    | ItemKeyMissing(item: int) // scores[str(item)] raised

  /** The result of one press. */
  datatype Outcome =
    | Halted(reason: Halt)
    | Scored(itemTotals: map<int, int>, total: int, banner: Banner, chart: PolarTrace)

  /** The page shown for a score matrix whose items are all present. */
  function ScoredPage(m: ScoreMatrix): Outcome
    requires HasAllItems(m)
  {
    Scored(ItemTotals(m), GrandTotal(m), BannerFor(GrandTotal(m)), RadarTrace(ItemTotals(m)))
  }

  /**
   One press of the button. sent is the prompt handed to the model, if the
   guard let the press through; reply is what the model's side returned.
   */
  method PressScoreButton(budget: ApiBudget, draft: string, reply: Reply)
    returns (sent: Option<string>, outcome: Outcome)
    requires budget.Valid()
    modifies budget
    ensures budget.Valid()
    ensures old(budget.used) <= budget.used
    // the guard: refused exactly when three more calls would pass the ceiling
    ensures old(budget.used) + ReservedCalls > budget.max ==>
      sent == None && outcome == Halted(LimitReached) && budget.used == old(budget.used)
    ensures old(budget.used) + ReservedCalls <= budget.max ==> sent == Some(BuildPrompt(draft))
    // a request that returned is counted once, even when its reply is unusable
    ensures old(budget.used) + ReservedCalls <= budget.max ==>
      budget.used == old(budget.used) + (if reply.RequestFailed? then 0 else 1)
    ensures outcome != Halted(LimitReached) ==> budget.used <= budget.max - 2
    // the press count of the session: a press gets through exactly while presses remain,
    // and one whose request returns uses one of them up
    ensures sent.Some? <==> PermittedPresses(old(budget.used), budget.max) > 0
    ensures sent.Some? && !reply.RequestFailed? ==>
      PermittedPresses(budget.used, budget.max) + 1 == PermittedPresses(old(budget.used), budget.max)
    ensures old(budget.used) + ReservedCalls <= budget.max ==>
      outcome == match reply
        case RequestFailed => Halted(RequestError)
        case NotJson => Halted(InvalidJson)
        case NoScores => Halted(MissingScores)
        case Scores(m) =>
          if HasAllItems(m) then ScoredPage(m)
          else Halted(ItemKeyMissing(FirstMissing(m)))
  {
    if !budget.CheckApiLimit(ReservedCalls) {
      return None, Halted(LimitReached);
    }
    sent := Some(BuildPrompt(draft));
    if reply.RequestFailed? {
      return sent, Halted(RequestError);
    }
    budget.RecordCall();
    match reply
    case NotJson =>
      outcome := Halted(InvalidJson);
    case NoScores =>
      outcome := Halted(MissingScores);
    case Scores(m) =>
      var agg := Aggregate(m);
      match agg
      case MissingItem(i) =>
        outcome := Halted(ItemKeyMissing(i));
      case Totals(itemTotals, total) =>
        outcome := Scored(itemTotals, total, BannerFor(total), RadarTrace(itemTotals));
  }

  /** A reply of all 3s is complete, totals 180, ranks C and shows the border banner. */
  lemma AllThreesIsBorder()
    ensures WellFormed(Uniform(3))
    ensures ScoredPage(Uniform(3)).total == 180
    ensures JudgeRank(180) == Rank.C && ScoredPage(Uniform(3)).banner == Border
    ensures forall i | i in ScoredPage(Uniform(3)).itemTotals :: ScoredPage(Uniform(3)).itemTotals[i] == 12
  {
    UniformTotal(3);
  }

  /** A reply of all 5s is complete, totals 300, ranks S and passes. */
  lemma AllFivesIsTopRank()
    ensures WellFormed(Uniform(5))
    ensures ScoredPage(Uniform(5)).total == 300
    ensures JudgeRank(300) == S && ScoredPage(Uniform(5)).banner == Pass
  {
    UniformTotal(5);
  }

  /** On a complete reply the banner shown is the one the rank of the total calls for. */
  lemma ScoredBannerMatchesRank(m: ScoreMatrix)
    requires WellFormed(m)
    ensures 0 <= ScoredPage(m).total <= 300
    ensures ScoredPage(m).banner == Pass <==> JudgeRank(ScoredPage(m).total) in {Rank.S, Rank.A, Rank.B}
    ensures ScoredPage(m).banner == Border <==> JudgeRank(ScoredPage(m).total) == Rank.C
    ensures ScoredPage(m).banner == Fail <==> JudgeRank(ScoredPage(m).total) == Rank.D
  {
    AggregateBounds(m);
    BannerAgreesWithRank(GrandTotal(m));
  }
}
