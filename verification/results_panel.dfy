/** The results panel: a placeholder until there are results, then a report
    whose icon and colour scheme follow the overall health, compared without
    regard to case. */
module ResultsPanel {
  import opened Wrappers
  import opened Text
  import opened Health
  import Chat

  datatype IconShape = CheckCircle | AlertTriangle | InfoCircle

  /** An icon and the Tailwind colour it is drawn in (used as `text-<colour>`). */
  datatype Icon = Icon(shape: IconShape, colour: string)

  /** `getHealthIcon`. */
  function HealthIcon(health: string): Icon {
    match ToLower(health)
    case "normal" => Icon(CheckCircle, "emerald-400")
    case "warning" => Icon(AlertTriangle, "yellow-400")
    case "abnormal" => Icon(AlertTriangle, "red-400")
    case _ => Icon(InfoCircle, "blue-400")
  }

  /** A Tailwind gradient `from-<from> to-<to>`. */
  datatype Gradient = Gradient(from: string, to: string)

  /** The class string the component writes for a gradient. */
  function ClassName(g: Gradient): (c: string)
    ensures StartsWith(c, "from-" + g.from + " ")
  {
    var prefix := "from-" + g.from + " ";
    assert (prefix + "to-" + g.to)[..|prefix|] == prefix;
    prefix + "to-" + g.to
  }

  /** `getHealthGradient`. */
  function HealthGradient(health: string): Gradient {
    match ToLower(health)
    case "normal" => Gradient("emerald-400", "teal-400")
    case "warning" => Gradient("yellow-400", "orange-400")
    case "abnormal" => Gradient("red-400", "pink-400")
    case _ => Gradient("blue-400", "purple-400")
  }

  /** The three health values the panel knows, lower-case. */
  predicate KnownHealth(lowered: string) {
    lowered == "normal" || lowered == "warning" || lowered == "abnormal"
  }

  lemma LowerCaseNamesAreLower()
    ensures ToLower("normal") == "normal" && ToLower("warning") == "warning" && ToLower("abnormal") == "abnormal"
  {
    assert ToLower("normal") == "normal";
    assert ToLower("warning") == "warning";
    assert ToLower("abnormal") == "abnormal";
  }

  /** Both mappings ignore case: any spelling of a health value, upper-cased
      or lower-cased, maps as its lower-case form does. */
  lemma MappingsIgnoreCase(health: string)
    ensures HealthGradient(ToUpper(health)) == HealthGradient(ToLower(health)) == HealthGradient(health)
    ensures HealthIcon(ToUpper(health)) == HealthIcon(ToLower(health)) == HealthIcon(health)
  {
    ToLowerIdempotent(health);
  }

  /** The mappings are total, and everything that is not one of the three
      known values gets the default blue/purple scheme and the info icon;
      the known values get three different gradients. */
  lemma DefaultCase(health: string)
    ensures !KnownHealth(ToLower(health)) <==> HealthGradient(health) == Gradient("blue-400", "purple-400")
    ensures !KnownHealth(ToLower(health)) <==> HealthIcon(health).shape == InfoCircle
    ensures HealthGradient("normal") != HealthGradient("warning")
    ensures HealthGradient("warning") != HealthGradient("abnormal")
    ensures HealthGradient("abnormal") != HealthGradient("normal")
  {
    LowerCaseNamesAreLower();
  }

  /** Warning and abnormal share the triangle and differ only in colour. */
  lemma WarningAndAbnormalDifferInColourOnly()
    ensures HealthIcon("warning").shape == HealthIcon("abnormal").shape == AlertTriangle
    ensures HealthIcon("warning").colour != HealthIcon("abnormal").colour
  {
    LowerCaseNamesAreLower();
  }

  /** The two mappings, written separately in the component, agree: the
      icon's colour is always the gradient's starting colour, so the class
      string starts with `from-` and the icon's colour. */
  lemma IconMatchesGradient(health: string)
    ensures HealthGradient(health).from == HealthIcon(health).colour
    ensures StartsWith(ClassName(HealthGradient(health)), "from-" + HealthIcon(health).colour + " ")
  {
  }

  /** What the panel shows. */
  datatype Panel =
    | Placeholder
    | Report(
        topBar: Gradient,             // gradient of the strip above the card
        halo: Gradient,               // gradient behind the icon
        icon: Icon,
        badge: Gradient,              // gradient of the health badge
        badgeText: string,
        progressValue: Confidence,    // the progress bar's value
        overlay: Gradient,            // gradient over the progress bar
        confidenceText: Confidence,   // the number printed before "%"
        frequencyBadges: seq<(string, string)>,
        patternBadges: seq<(string, string)>,
        recommendations: Option<seq<string>>)  // the alert, when shown
    | RenderError                     // `overallHealth` missing: `toLowerCase` of undefined throws

  const FrequencyBadges: seq<(string, string)> := [
    ("Low Frequency (0-500 Hz)", "Normal"),
    ("Mid Frequency (500-2000 Hz)", "Normal"),
    ("High Frequency (2000+ Hz)", "Normal")]

  const PatternBadges: seq<(string, string)> := [
    ("Breathing Pattern", "Regular"),
    ("Chest Resonance", "Normal"),
    ("Tissue Density", "Healthy")]

  /** `ResultsPanel`. */
  function Render(results: Option<AnalysisResults>): Panel {
    match results
    case None => Placeholder
    case Some(r) =>
      match r.overallHealth
      case None => RenderError
      case Some(health) =>
        Report(
          HealthGradient(health), HealthGradient(health), HealthIcon(health),
          HealthGradient(health), health,
          r.confidence, HealthGradient(health), r.confidence,
          FrequencyBadges, PatternBadges,
          match r.recommendations
          case Some(recs) => if |recs| > 0 then Some(recs) else None
          case None => None)
  }

  /** The placeholder is shown exactly when there are no results, and the
      panel fails exactly when the results lack an overall health. */
  lemma PlaceholderOnlyWithoutResults(results: Option<AnalysisResults>)
    ensures Render(results).Placeholder? <==> results.None?
    ensures Render(results).RenderError? <==> results.Some? && results.value.overallHealth.None?
  {
  }

  /** In a report, the top bar, the halo, the badge and the confidence
      overlay all use the gradient of the health, whose starting colour is
      the icon's; the badge shows the health as given; the confidence is
      shown as given, without clamping; and the badges of the two detail
      cards do not depend on the results at all. */
  lemma ReportIsConsistent(r: AnalysisResults)
    requires r.overallHealth.Some?
    ensures var p := Render(Some(r));
            && p.Report?
            && p.topBar == p.halo == p.badge == p.overlay == HealthGradient(r.overallHealth.value)
            && p.topBar.from == p.icon.colour
            && p.badgeText == r.overallHealth.value
            && p.progressValue == p.confidenceText == r.confidence
            && p.frequencyBadges == FrequencyBadges && p.patternBadges == PatternBadges
  {
    IconMatchesGradient(r.overallHealth.value);
  }

  /** The recommendations alert appears exactly when the list exists and is
      non-empty, and then lists every recommendation in its original order. */
  lemma RecommendationsVisibility(r: AnalysisResults)
    requires r.overallHealth.Some?
    ensures Render(Some(r)).recommendations.Some? <==> r.recommendations.Some? && |r.recommendations.value| > 0
    ensures Render(Some(r)).recommendations.Some? ==>
              forall k :: 0 <= k < |r.recommendations.value| ==>
                Render(Some(r)).recommendations.value[k] == r.recommendations.value[k]
  {
  }

  /** The panel and the chat read the same health value the same way: when
      the chat opens with a normal-result message the panel shows the check
      mark in emerald, and when it opens with the warning message the panel
      shows the yellow triangle. */
  lemma PanelAgreesWithChat(r: AnalysisResults)
    requires r.overallHealth.Some?
    ensures Chat.InitialMessage(Some(r)).GreatNews? || Chat.InitialMessage(Some(r)).ModerateConfidence? ==>
              Render(Some(r)).icon == Icon(CheckCircle, "emerald-400")
    ensures Chat.InitialMessage(Some(r)).WarningNotice? ==>
              Render(Some(r)).icon == Icon(AlertTriangle, "yellow-400")
  {
  }
}
