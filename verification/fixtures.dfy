/** The fixed case content the session reads: the four evidence sources a
    player can collect and the four hypotheses a player can choose from.
    Only identifiers and correctness weights matter to the game
    logic; the narrative payloads are presentation. */
module Fixtures {
  import opened Wrappers

  /** The `type` tag of an evidence source. */
  datatype Category = Data | Qualitative | External | Technical

  datatype EvidenceSource = EvidenceSource(id: string, name: string, category: Category)

  /** The collectable sources, in display order. */
  const EvidenceSources: seq<EvidenceSource> := [
    EvidenceSource("user_analytics", "User Analytics Dashboard", Data),
    EvidenceSource("user_feedback", "Customer Support Tickets", Qualitative),
    EvidenceSource("app_store", "App Store Reviews", External),
    EvidenceSource("technical_logs", "Technical Performance Logs", Technical)
  ]

  /** A candidate explanation. `correctness` is the weight in [0, 1] scaled to
      a whole percentage, i.e. the value `Math.round(correctness * 100)`. */
  datatype HypothesisOption = HypothesisOption(id: string, correctness: nat)

  /** The selectable hypotheses, in display order. */
  const AnalysisOptions: seq<HypothesisOption> := [
    HypothesisOption("ui_redesign", 70),
    HypothesisOption("technical_bugs", 100),
    HypothesisOption("market_competition", 20),
    HypothesisOption("seasonal_trends", 10)
  ]

  /** The weight, as a percentage, from which an analysis earns "Sharp Analyst". */
  const SharpThreshold: nat := 80

  /** No two entries share an identifier. */
  predicate DistinctOptionIds(options: seq<HypothesisOption>) {
    forall i, j :: 0 <= i < j < |options| ==> options[i].id != options[j].id
  }

  /** `analysisOptions.find(opt => opt.id === id)`: the first option with that
      identifier, or nothing. */
  function FindOption(options: seq<HypothesisOption>, id: string): (r: Option<HypothesisOption>)
    ensures r.Some? ==> r.value in options && r.value.id == id
    ensures r.None? <==> forall k :: 0 <= k < |options| ==> options[k].id != id
    ensures r.Some? ==> exists k :: 0 <= k < |options| && options[k] == r.value
                                    && forall j :: 0 <= j < k ==> options[j].id != id
  {
    if options == [] then None
    else if options[0].id == id then Some(options[0])
    else FindOption(options[1..], id)
  }

  /** With distinct identifiers the found option is the unique one carrying `id`. */
  lemma FindUnique(options: seq<HypothesisOption>, id: string, k: nat)
    requires DistinctOptionIds(options)
    requires k < |options| && options[k].id == id
    ensures FindOption(options, id) == Some(options[k])
  {
    if k > 0 {
      assert options[0].id != id;
      assert DistinctOptionIds(options[1..]) by {
        forall i, j | 0 <= i < j < |options[1..]|
          ensures options[1..][i].id != options[1..][j].id
        {
          assert options[1..][i] == options[i + 1] && options[1..][j] == options[j + 1];
        }
      }
      FindUnique(options[1..], id, k - 1);
    }
  }

  /** The four hypotheses resolve to 70, 100, 20 and 10 percent, any other
      identifier (the empty selection included) to nothing, and only
      "technical_bugs" reaches the "Sharp Analyst" threshold. */
  lemma OptionTable(id: string)
    ensures var r := FindOption(AnalysisOptions, id);
      && (id == "ui_redesign" ==> r == Some(HypothesisOption(id, 70)))
      && (id == "technical_bugs" ==> r == Some(HypothesisOption(id, 100)))
      && (id == "market_competition" ==> r == Some(HypothesisOption(id, 20)))
      && (id == "seasonal_trends" ==> r == Some(HypothesisOption(id, 10)))
      && (id !in ["ui_redesign", "technical_bugs", "market_competition", "seasonal_trends"] ==> r.None?)
      && (r.Some? && r.value.correctness >= SharpThreshold <==> id == "technical_bugs")
  {
    assert DistinctOptionIds(AnalysisOptions);
    var ids := ["ui_redesign", "technical_bugs", "market_competition", "seasonal_trends"];
    assert forall k :: 0 <= k < 4 ==> AnalysisOptions[k].id == ids[k];
    if id in ids {
      var k :| 0 <= k < 4 && ids[k] == id;
      FindUnique(AnalysisOptions, id, k);
    }
  }
}
