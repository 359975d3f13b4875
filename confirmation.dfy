/**
 * The verdict of the save-confirmation race (`ask_save_with_timeout`). The
 * race between the user's answer and the timer is not modelled; only its
 * outcome is, and the verdict is a pure function of that outcome.
 */
module Confirmation {
  import opened Ascii

  /** How the race ended. */
  datatype RaceOutcome =
    | Answered(answer: string)  // the user's line arrived before the deadline
    | TimedOut                  // the deadline won; the pending prompt was cancelled
    | InputEnded                // the prompt raised EOFError or KeyboardInterrupt
    | Failed                    // any other exception during the race

  /** The answer assumed when the deadline passes or the input ends. */
  const DefaultAnswer: string := "y"

  /**
   * True means "save". The only way to get false is to answer `n` or `N`
   * in time; a timeout, the end of input and any failure all save.
   */
  function SaveVerdict(o: RaceOutcome): (save: bool)
    ensures !save <==> o.Answered? && (o.answer == "n" || o.answer == "N")
  {
    LowerIsLetter(DefaultAnswer, 'n');
    match o
    case Answered(s) => LowerIsLetter(s, 'n'); Lower(s) != "n"
    case TimedOut => Lower(DefaultAnswer) != "n"
    case InputEnded => Lower(DefaultAnswer) != "n"
    case Failed => true
  }

  /** An empty line, `y`, `Y` and any answer other than `n`/`N` save. */
  lemma AnyOtherAnswerSaves(s: string)
    requires s != "n" && s != "N"
    ensures SaveVerdict(Answered(s))
  {
  }
}
