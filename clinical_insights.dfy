/** The clinical insights card: remarks drawn from the latest session. */
module ClinicalInsights {
  import opened Sessions

  const ExcellentAccuracy: string := "Excellent accuracy in latest session"
  const LowDizziness: string := "Low dizziness levels maintained"

  /**
   * `insights`: the accuracy remark when the latest session scored above
   * 80 %, then the dizziness remark when its dizziness level was below 3;
   * nothing for an empty history. Earlier sessions play no part.
   */
  method Insights(sessions: seq<ExerciseSession>) returns (results: seq<string>)
    ensures |results| <= 2
    ensures sessions == [] ==> results == []
    ensures ExcellentAccuracy in results <==>
      sessions != [] && Accuracy(sessions[|sessions| - 1]) > 80.0
    ensures LowDizziness in results <==>
      sessions != [] && sessions[|sessions| - 1].dizzinessLevel < 3.0
    ensures forall r :: r in results ==> r == ExcellentAccuracy || r == LowDizziness
    ensures |results| == 2 ==> results == [ExcellentAccuracy, LowDizziness]
  {
    results := [];
    if sessions != [] {
      var lastSession := sessions[|sessions| - 1];
      if Accuracy(lastSession) > 80.0 {
        results := results + [ExcellentAccuracy];
      }
      if lastSession.dizzinessLevel < 3.0 {
        results := results + [LowDizziness];
      }
    }
  }
}
