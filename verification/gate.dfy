/** The validation chain that runs after the form: an ordered list of checks over the
    submit button, the session flag `valid_inputs_received`, the raw keyphrase text, the
    labels and the API key, where the first check that fires decides the outcome. */
module Gate {

  import opened Options

  /** The warning a failed check shows. */
  datatype Warning = NoKeyphrases | NoLabels | TooFewLabels | NoApiKey

  /** `st.stop()`, silently or after a warning, or going on to query the model. */
  datatype Outcome = Halt(warning: Option<Warning>) | Proceed

  /** The outcome and the session flag `valid_inputs_received` afterwards. */
  datatype Decision = Decision(outcome: Outcome, valid: bool)

  /** Whether the chain lets a run through: something to act on (a fresh submit or an
      earlier valid one), and a key; a fresh submit also needs text and two labels. */
  predicate Admissible(submit: bool, valid: bool, text: string, labels: seq<string>, apiKey: string)
  {
    && (submit || valid)
    && (submit ==> text != "" && |labels| >= 2)
    && apiKey != ""
  }

  /** The chain itself. The emptiness test looks at the raw text, not at the keyphrases
      left after clean-up; the key test applies with or without a fresh submit and only
      rejects the empty key; proceeding on an earlier valid submit leaves the flag as it
      is. */
  function Check(submit: bool, valid: bool, text: string, labels: seq<string>, apiKey: string): (d: Decision)
    ensures d.outcome.Proceed? <==> Admissible(submit, valid, text, labels, apiKey)
    ensures d.valid <==> d.outcome.Proceed?
    ensures d.outcome == Halt(None) <==> !submit && !valid
    ensures d.outcome == Halt(None) ==> d.valid == valid
    ensures submit && text == "" ==> d.outcome == Halt(Some(NoKeyphrases))
    ensures submit && text != "" && |labels| == 0 ==> d.outcome == Halt(Some(NoLabels))
    ensures submit && text != "" && |labels| == 1 ==> d.outcome == Halt(Some(TooFewLabels))
    ensures d.outcome == Halt(Some(NoApiKey)) <==>
              apiKey == "" && (submit || valid) && (submit ==> text != "" && |labels| >= 2)
  {
    if !submit && !valid then Decision(Halt(None), valid)
    else if submit && text == "" then Decision(Halt(Some(NoKeyphrases)), false)
    else if submit && |labels| == 0 then Decision(Halt(Some(NoLabels)), false)
    else if submit && |labels| == 1 then Decision(Halt(Some(TooFewLabels)), false)
    else if apiKey == "" then Decision(Halt(Some(NoApiKey)), false)
    else if submit || valid then Decision(Proceed, if submit then true else valid)
    else Decision(Halt(None), valid)
  }

  /** Running the chain again on the flag it produced, with no fresh submit, gives the
      same outcome when it proceeded and a silent halt otherwise: a valid submission
      keeps being served on reruns until a later check fails. */
  lemma RerunKeepsDecision(submit: bool, valid: bool, text: string, labels: seq<string>, apiKey: string)
    ensures var d := Check(submit, valid, text, labels, apiKey);
            var again := Check(false, d.valid, text, labels, apiKey);
            again == (if d.outcome.Proceed? then Decision(Proceed, true) else Decision(Halt(None), false))
  {
  }
}
