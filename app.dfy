/** The wiring in `App`: the game's `onCorrectAnswer` callback is the
    progress hook's `incrementProgress`. */
module App {
  import opened MathGame
  import opened DailyProgress
  import opened Decimal

  /** A tap on the submit button, when it is rendered: the answer is checked and
      a correct one is recorded once for today. Score and today's count move together. */
  method SubmitTap(game: Game, ledger: Ledger, year: nat, monthIndex: nat, date: nat)
    modifies game, ledger
    ensures game.State() == Step(old(game.State()), TapSubmit)
    ensures var today := TodayString(year, monthIndex, date);
      ledger.progress == (if game.score == old(game.score) + 1 then Incremented(old(ledger.progress), today)
                          else old(ledger.progress))
    ensures game.score == old(game.score) ==>
      ledger.todayCount == old(ledger.todayCount) && ledger.todayStamped == old(ledger.todayStamped) &&
      ledger.storage == old(ledger.storage)
    ensures game.score == old(game.score) + 1 ==>
      ledger.TodayInSync(TodayString(year, monthIndex, date)) && ledger.storage == Some(ledger.progress)
  {
    if CanSubmit(game.State()) {
      var fired := game.CheckAnswer();
      if fired {
        ledger.IncrementProgress(TodayString(year, monthIndex, date));
      }
    }
  }
}
