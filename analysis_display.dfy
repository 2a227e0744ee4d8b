// The trend-analysis panel: a `loading` flag and the last `result`,
// toggled around the awaited action. There is no try/finally, so an action
// that rejects leaves the panel loading.
module AnalysisDisplay {
  import opened Results
  import opened AdminTrends

  datatype PanelState = PanelState(loading: bool, result: Option<AnalysisResult>)

  function InitialPanel(): (s: PanelState)
    ensures !s.loading && s.result.None?
  {
    PanelState(false, None)
  }

  /** Before the await: loading, with the previous result cleared. */
  function Begin(s: PanelState): (r: PanelState)
    ensures r.loading && r.result.None?
  {
    PanelState(true, None)
  }

  /** After the await: a resolved action's value becomes the result and
      loading ends; a rejected one leaves the state as it was. */
  function Settle(s: PanelState, outcome: Outcome<AnalysisResult>): (r: PanelState)
    ensures outcome.Ok? ==> r.result == Some(outcome.value) && !r.loading
    ensures outcome.Thrown? ==> r == s
  {
    match outcome
    case Ok(value) => PanelState(false, Some(value))
    case Thrown(_) => s
  }

  /** The button is disabled exactly while loading. */
  predicate ButtonDisabled(s: PanelState) {
    s.loading
  }

  /** The two result cards are rendered exactly when there is a result. */
  predicate ShowsCards(s: PanelState) {
    s.result.Some?
  }

  /** One click: once the action settles, the cards show iff it resolved,
      and the button is disabled iff it rejected; loading and cards never
      show together. */
  lemma ClickOutcome(s: PanelState, outcome: Outcome<AnalysisResult>)
    ensures ShowsCards(Settle(Begin(s), outcome)) <==> outcome.Ok?
    ensures ButtonDisabled(Settle(Begin(s), outcome)) <==> outcome.Thrown?
    ensures !(ShowsCards(Settle(Begin(s), outcome)) && ButtonDisabled(Settle(Begin(s), outcome)))
  {
  }

  /** The panel's state cells. */
  class AnalysisPanel {
    var loading: bool
    var result: Option<AnalysisResult>

    function State(): PanelState
      reads this
    {
      PanelState(loading, result)
    }

    constructor ()
      ensures State() == InitialPanel()
    {
      loading := false;
      result := None;
    }

    /** `handleAnalyze`, with `outcome` standing for how the awaited action
        settled. The button is disabled while loading, so a click needs
        `loading` false. */
    method HandleAnalyze(outcome: Outcome<AnalysisResult>)
      requires !loading
      modifies this
      ensures State() == Settle(Begin(old(State())), outcome)
    {
      loading := true;
      result := None;
      if outcome.Ok? {
        var analysisResult := outcome.value;
        result := Some(analysisResult);
        loading := false;
      }
    }
  }
}
