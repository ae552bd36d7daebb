/** Pure helpers of the browser client: the colour class and badge chosen
    for a risk label, and the record sent back when a borrower's segment
    is changed. Network requests and the DOM are outside the model. */
module WebClient {
  import opened Wrappers
  import opened Text
  import opened Json
  import RiskScoring

  /** The category a risk label falls into: labels are lower-cased and
      searched for "low", then "medium", then "high"; the first hit wins. */
  datatype Shade = LowShade | MediumShade | HighShade | NoShade

  function ShadeOf(riskLevel: string): (r: Shade)
    ensures r == LowShade <==> Contains(ToLower(riskLevel), "low")
    ensures r == MediumShade <==> !Contains(ToLower(riskLevel), "low") && Contains(ToLower(riskLevel), "medium")
    ensures r == HighShade <==> !Contains(ToLower(riskLevel), "low") && !Contains(ToLower(riskLevel), "medium") &&
                                Contains(ToLower(riskLevel), "high")
  {
    var level := ToLower(riskLevel);
    if Contains(level, "low") then LowShade
    else if Contains(level, "medium") then MediumShade
    else if Contains(level, "high") then HighShade
    else NoShade
  }

  /** getRiskClass. */
  function RiskClass(riskLevel: string): (r: string)
    ensures r in {"risk-low", "risk-medium", "risk-high", ""}
  {
    var level := ToLower(riskLevel);
    if Contains(level, "low") then "risk-low"
    else if Contains(level, "medium") then "risk-medium"
    else if Contains(level, "high") then "risk-high"
    else ""
  }

  /** getRiskBadge. */
  function RiskBadge(riskLevel: string): (r: string)
    ensures r in {"success", "warning", "danger", "secondary"}
  {
    var level := ToLower(riskLevel);
    if Contains(level, "low") then "success"
    else if Contains(level, "medium") then "warning"
    else if Contains(level, "high") then "danger"
    else "secondary"
  }

  /** Both helpers decide by the same category: class and badge always
      agree, and in particular the class is empty exactly when the badge is
      "secondary". */
  lemma ClassAndBadgeAgree(riskLevel: string)
    ensures RiskClass(riskLevel) == (match ShadeOf(riskLevel)
                                 case LowShade => "risk-low" case MediumShade => "risk-medium"
                                 case HighShade => "risk-high" case NoShade => "")
    ensures RiskBadge(riskLevel) == (match ShadeOf(riskLevel)
                                 case LowShade => "success" case MediumShade => "warning"
                                 case HighShade => "danger" case NoShade => "secondary")
    ensures RiskClass(riskLevel) == "" <==> RiskBadge(riskLevel) == "secondary"
  {
  }

  /** The riskLevel the strategy catalogue gives automated reminders,
      "LOW_TO_MEDIUM", mentions both levels and is shown as low. */
  lemma LowToMediumShowsLow()
    ensures RiskClass("LOW_TO_MEDIUM") == "risk-low" && RiskBadge("LOW_TO_MEDIUM") == "success"
  {
    var level := ToLower("LOW_TO_MEDIUM");
    assert level[0..3] == "low";
    ContainsAt(level, "low", 0);
  }

  /** The three level names the risk service writes are shown in their own colours. */
  lemma LevelNamesShowTheirLevel(l: RiskScoring.RiskLevel)
    ensures ShadeOf(RiskScoring.RiskLevelToString(l)) ==
            match l
            case Low => LowShade
            case Medium => MediumShade
            case High => HighShade
  {
    var level := ToLower(RiskScoring.RiskLevelToString(l));
    match l
    case Low =>
      assert level[0..3] == "low";
      ContainsAt(level, "low", 0);
    case Medium =>
      assert level == "medium";
      NoLowInMedium();
      ContainsAt(level, "medium", 0);
    case High =>
      assert level == "high";
      NoLowOrMediumInHigh();
      ContainsAt(level, "high", 0);
  }

  /** A pattern whose first character never occurs in a string is not contained in it. */
  lemma {:induction false} NotContainedWithoutFirstChar(s: string, sub: string)
    requires |sub| > 0 && sub[0] !in s
    ensures !Contains(s, sub)
    decreases |s|
  {
    if |s| > 0 {
      assert s[0] != sub[0];
      NotContainedWithoutFirstChar(s[1..], sub);
    }
  }

  lemma NoLowInMedium()
    ensures !Contains("medium", "low")
  {
    NotContainedWithoutFirstChar("medium", "low");
  }

  lemma NoLowOrMediumInHigh()
    ensures !Contains("high", "low") && !Contains("high", "medium")
  {
    NotContainedWithoutFirstChar("high", "low");
    NotContainedWithoutFirstChar("high", "medium");
  }

  /** The members `{...data}` spreads: an object's own fields; JSON null or
      an absent `data` spreads nothing. */
  function Spread(data: Option<Json>): (r: map<string, Json>)
    ensures data.Some? && data.value.Obj? ==> r == data.value.fields
    ensures !(data.Some? && data.value.Obj?) ==> r == map[]
  {
    match data
    case Some(Obj(fields)) => fields
    case _ => map[]
  }

  /** updateBorrowerSegment: the body PUT back is the fetched borrower with
      only `risk_segment` replaced (or added). */
  function UpdatedBorrower(fetched: Json, segment: string): (r: Json)
    ensures r.Obj?
    ensures Member(r, "risk_segment") == Some(Str(segment))
    ensures forall k :: k in Spread(Member(fetched, "data")) && k != "risk_segment" ==>
              Member(r, k) == Some(Spread(Member(fetched, "data"))[k])
    ensures r.fields.Keys == Spread(Member(fetched, "data")).Keys + {"risk_segment"}
  {
    Obj(Spread(Member(fetched, "data"))["risk_segment" := Str(segment)])
  }

  /** Changing the segment twice is the same as changing it once to the
      second value: nothing of the first change survives except through
      the record it was applied to. */
  lemma SegmentUpdatesOverwrite(fetched: Json, first: string, second: string)
    ensures UpdatedBorrower(Obj(map["data" := UpdatedBorrower(fetched, first)]), second) == UpdatedBorrower(fetched, second)
  {
    var data := Spread(Member(fetched, "data"));
    assert data["risk_segment" := Str(first)]["risk_segment" := Str(second)] == data["risk_segment" := Str(second)];
  }
}
