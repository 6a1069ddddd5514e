/**
 * The two classifications of a raw job outcome token that the service uses:
 * scheme A for slave health (fail, retry, infra, success) and scheme B,
 * the colour coding used per revision (green, orange, blue, red).
 */
module Outcomes {

  /** Scheme A: the counter a slave-health row increments, if any. */
  datatype SlaveClass = Fail | Retry | Infra | Success | Unclassified

  /** Scheme B colours. */
  datatype Colour = Green | Orange | Blue | Red

  /** Scheme B: a colour, a user cancel, or a token nobody recognises. */
  datatype TestOutcome = Coloured(colour: Colour) | UserCancel | Unrecognized

  /** The if/elif chain of the slave fold (src/server.py:203-211). */
  function SlaveClassOf(result: string): SlaveClass
  {
    if result == "testfailed" then Fail
    else if result == "retry" then Retry
    else if result == "success" then Success
    else if result == "busted" || result == "exception" then Infra
    else Unclassified
  }

  /** The if/elif chain of the revision fold (src/server.py:303-318). */
  function TestOutcomeOf(res: string): TestOutcome
  {
    if res == "success" then Coloured(Green)
    else if res == "testfailed" then Coloured(Orange)
    else if res == "retry" then Coloured(Blue)
    else if res == "exception" || res == "busted" then Coloured(Red)
    else if res == "usercancel" then UserCancel
    else Unrecognized
  }

  /** The scheme-A class that corresponds to a colour. */
  function ClassOfColour(c: Colour): SlaveClass
  {
    match c
    case Green => Success
    case Orange => Fail
    case Blue => Retry
    case Red => Infra
  }

  /**
   * The two schemes agree: a token is coloured exactly when the slave fold
   * gives it a class, and then the class is the colour's class.
   */
  lemma SchemesAgree(token: string)
    ensures TestOutcomeOf(token).Coloured? <==> SlaveClassOf(token) != Unclassified
    ensures TestOutcomeOf(token).Coloured? ==>
              SlaveClassOf(token) == ClassOfColour(TestOutcomeOf(token).colour)
  {
  }
}
