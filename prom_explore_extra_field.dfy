/**
 * The Prometheus query options in Explore (PromExploreExtraField.tsx): the
 * query type radio group with its options and handler, the step input and
 * the exemplar switch.
 */
module PromExploreExtraField {
  import opened Js
  import opened Select
  import opened Callbacks
  import opened PromTypes

  /**
   * `getQueryTypeOptions`: range and instant, and `both` as a third option
   * when it is asked for.
   */
  method GetQueryTypeOptions(includeBoth: bool) returns (options: seq<SelectOption<string>>)
    ensures |options| == if includeBoth then 3 else 2
    ensures options[0] == SelectOption("范围", "range") && options[1] == SelectOption("即时", "instant")
    ensures includeBoth ==> options[2] == SelectOption("全部", "both")
  {
    options := [SelectOption("范围", "range"), SelectOption("即时", "instant")];
    if includeBoth {
      options := options + [SelectOption("全部", "both")];
    }
  }

  /** The value the radio group shows: `both` when range and instant are both set, else instant or range. */
  function QueryTypeValue(q: PromQuery): (value: string)
    ensures value == "both" <==> BoolTruthy(q.range) && BoolTruthy(q.instant)
    ensures value == "instant" <==> !BoolTruthy(q.range) && BoolTruthy(q.instant)
    ensures value == "range" <==> !BoolTruthy(q.instant)
  {
    if BoolTruthy(q.range) && BoolTruthy(q.instant) then "both"
    else if BoolTruthy(q.instant) then "instant"
    else "range"
  }

  /** The query the handler of `getQueryTypeChangeHandler` hands to `onChange` for a radio value. */
  function WithQueryType(q: PromQuery, queryType: string): (r: PromQuery)
    ensures queryType == "instant" ==> r.instant == Some(true) && r.range == Some(false) && r.exemplar == Some(false)
    ensures queryType == "range" ==> r.instant == Some(false) && r.range == Some(true) && r.exemplar == q.exemplar
    ensures queryType != "instant" && queryType != "range" ==>
              r.instant == Some(true) && r.range == Some(true) && r.exemplar == q.exemplar
    ensures r.(instant := q.instant, range := q.range, exemplar := q.exemplar) == q
  {
    if queryType == "instant" then q.(instant := Some(true), range := Some(false), exemplar := Some(false))
    else if queryType == "range" then q.(instant := Some(false), range := Some(true))
    else q.(instant := Some(true), range := Some(true))
  }

  function OnQueryTypeChange(q: PromQuery, queryType: string): (effects: seq<Effect<PromQuery>>)
    ensures effects == [Change(WithQueryType(q, queryType))]
  {
    [Change(WithQueryType(q, queryType))]
  }

  /** Selecting a query type makes the radio group show that type. */
  lemma QueryTypeRoundTrip(q: PromQuery, queryType: string)
    requires queryType in ["range", "instant", "both"]
    ensures QueryTypeValue(WithQueryType(q, queryType)) == queryType
  {
  }

  /** Selecting the value the radio group already shows leaves the shown value as it is. */
  lemma QueryTypeStable(q: PromQuery)
    ensures QueryTypeValue(WithQueryType(q, QueryTypeValue(q))) == QueryTypeValue(q)
  {
  }

  /** `onStepChange`: store the typed step only when it differs from the current one. */
  function OnStepChange(q: PromQuery, value: string): (effects: seq<Effect<PromQuery>>)
    ensures |effects| <= 1
    ensures |effects| == 1 <==> q.interval != Some(value)
    ensures |effects| == 1 ==> effects[0].Change? && effects[0].query.interval == Some(value)
                               && effects[0].query.(interval := q.interval) == q
  {
    if Some(value) != q.interval then [Change(q.(interval := Some(value)))] else []
  }

  /**
   * `onExemplarChange`: store the switch's value unless the query is the
   * one of the previous render and its exemplar flag already has that value.
   */
  function OnExemplarChange(q: PromQuery, previous: Option<PromQuery>, exemplar: bool): (effects: seq<Effect<PromQuery>>)
    ensures |effects| <= 1
    ensures |effects| == 0 <==> previous == Some(q) && q.exemplar == Some(exemplar)
    ensures |effects| == 1 ==> effects[0].Change? && effects[0].query.exemplar == Some(exemplar)
                               && effects[0].query.(exemplar := q.exemplar) == q
  {
    if previous != Some(q) || Some(exemplar) != q.exemplar then [Change(q.(exemplar := Some(exemplar)))] else []
  }
}
