/**
 * The legacy Prometheus query editor (PromQueryEditor.tsx): the working
 * query it builds from its props, the controlled state it shows, and the
 * handlers that write one member of the working query each and hand the
 * query on when it is run.
 */
module PromQueryEditor {
  import opened Js
  import opened Select
  import opened Callbacks
  import opened PromTypes

  const FORMAT_OPTIONS: seq<SelectOption<string>> := [
    SelectOption("时间序列", "time_series"),
    SelectOption("表格", "table"),
    SelectOption("热图", "heatmap")
  ]

  /** An interval factor option: one data point for every `value` pixels. */
  function IntervalFactorOption(value: nat): SelectOption<int> {
    SelectOption("1/" + NatString(value), value)
  }

  const INTERVAL_FACTOR_OPTIONS: seq<SelectOption<int>> := [
    IntervalFactorOption(1), IntervalFactorOption(2), IntervalFactorOption(3),
    IntervalFactorOption(4), IntervalFactorOption(5), IntervalFactorOption(10)
  ]

  /** The factors 1, 2, 3, 4, 5 and 10, each labelled `1/<value>`; the format values are distinct too. */
  lemma OptionTables()
    ensures |INTERVAL_FACTOR_OPTIONS| == 6
    ensures forall i :: 0 <= i < 6 ==> INTERVAL_FACTOR_OPTIONS[i].value == [1, 2, 3, 4, 5, 10][i]
    ensures forall i :: 0 <= i < 6 ==> INTERVAL_FACTOR_OPTIONS[i] == IntervalFactorOption(INTERVAL_FACTOR_OPTIONS[i].value)
    ensures DistinctValues(INTERVAL_FACTOR_OPTIONS) && DistinctValues(FORMAT_OPTIONS)
  {
  }

  /**
   * `Object.assign({}, defaultQuery, props.query)`: the legend format and
   * step default to empty and exemplars default to on except in alerting;
   * whatever the props carry wins.
   */
  function WithDefaults(props: PromQuery, app: Option<CoreApp>): (q: PromQuery)
    ensures q.legendFormat.Some? && q.interval.Some? && q.exemplar.Some?
    ensures props.legendFormat.Some? ==> q.legendFormat == props.legendFormat
    ensures props.interval.Some? ==> q.interval == props.interval
    ensures props.exemplar.Some? ==> q.exemplar == props.exemplar
    ensures props.legendFormat.None? ==> q.legendFormat == Some("")
    ensures props.interval.None? ==> q.interval == Some("")
    ensures props.exemplar.None? ==> q.exemplar == Some(app != Some(UnifiedAlerting))
    ensures q.(legendFormat := props.legendFormat, interval := props.interval, exemplar := props.exemplar) == props
  {
    props.(legendFormat := Some(props.legendFormat.GetOr("")),
           interval := Some(props.interval.GetOr("")),
           exemplar := Some(props.exemplar.GetOr(app != Some(UnifiedAlerting))))
  }

  /** Filling in the defaults a second time changes nothing. */
  lemma DefaultsIdempotent(props: PromQuery, app: Option<CoreApp>)
    ensures WithDefaults(WithDefaults(props, app), app) == WithDefaults(props, app)
  {
  }

  /** The editor's controlled state. */
  datatype EditorState = EditorState(
    legendFormat: Option<string>,
    formatOption: SelectOption<string>,
    interval: Option<string>,
    intervalFactorOption: SelectOption<int>,
    instant: bool,
    exemplar: bool
  )

  /** The state shows what the query holds: the options are the ones found for its values, or the first ones. */
  predicate Shows(state: EditorState, query: PromQuery) {
    && state.legendFormat == query.legendFormat
    && state.interval == query.interval
    && state.formatOption == FindOrFirst(FORMAT_OPTIONS, query.format)
    && state.intervalFactorOption == FindOrFirst(INTERVAL_FACTOR_OPTIONS, query.intervalFactor)
    && state.instant == BoolTruthy(query.instant)
    && state.exemplar == BoolTruthy(query.exemplar)
  }

  class PromQueryEditor {
    /** `props.app` and `props.query` */
    const app: Option<CoreApp>
    const props: PromQuery
    /** The working query, `this.query`. */
    var query: PromQuery
    var state: EditorState
    /** The calls made to the `onChange` and `onRunQuery` props so far. */
    var calls: seq<Effect<PromQuery>>

    predicate Valid()
      reads this
    {
      Shows(state, query)
    }

    constructor (props: PromQuery, app: Option<CoreApp>)
      ensures this.props == props && this.app == app
      ensures query == WithDefaults(props, app) && calls == []
      ensures Valid()
    {
      this.props := props;
      this.app := app;
      var q := WithDefaults(props, app);
      query := q;
      state := EditorState(q.legendFormat, FindOrFirst(FORMAT_OPTIONS, q.format), q.interval,
                           FindOrFirst(INTERVAL_FACTOR_OPTIONS, q.intervalFactor),
                           BoolTruthy(q.instant), BoolTruthy(q.exemplar));
      calls := [];
    }

    /** `onRunQuery`: hand on the working query with `hide` taken from the props, then run it. */
    method OnRunQuery()
      modifies this
      ensures calls == old(calls) + [Change(query.(hide := props.hide)), RunQuery]
      ensures query == old(query) && state == old(state)
    {
      calls := calls + [Change(query.(hide := props.hide)), RunQuery];
    }

    /** `onFieldChange`: only the expression is taken over from the query field. */
    method OnFieldChange(q: PromQuery)
      requires Valid()
      modifies this
      ensures query == old(query).(expr := q.expr)
      ensures state == old(state) && calls == old(calls)
      ensures Valid()
    {
      query := query.(expr := q.expr);
    }

    method OnFormatChange(option: SelectOption<string>)
      requires Valid() && option in FORMAT_OPTIONS
      modifies this
      ensures query == old(query).(format := Some(option.value))
      ensures state == old(state).(formatOption := option)
      ensures calls == old(calls) + [Change(query.(hide := props.hide)), RunQuery]
      ensures Valid()
    {
      query := query.(format := Some(option.value));
      state := state.(formatOption := option);
      OptionTables();
      FindOrFirstOfOffered(FORMAT_OPTIONS, option);
      OnRunQuery();
    }

    method OnInstantChange(checked: bool)
      requires Valid()
      modifies this
      ensures query == old(query).(instant := Some(checked))
      ensures state == old(state).(instant := checked)
      ensures calls == old(calls) + [Change(query.(hide := props.hide)), RunQuery]
      ensures Valid()
    {
      query := query.(instant := Some(checked));
      state := state.(instant := checked);
      OnRunQuery();
    }

    /** The step is stored as it is typed; the query runs on blur. */
    method OnIntervalChange(value: string)
      requires Valid()
      modifies this
      ensures query == old(query).(interval := Some(value))
      ensures state == old(state).(interval := Some(value))
      ensures calls == old(calls)
      ensures Valid()
    {
      query := query.(interval := Some(value));
      state := state.(interval := Some(value));
    }

    method OnIntervalFactorChange(option: SelectOption<int>)
      requires Valid() && option in INTERVAL_FACTOR_OPTIONS
      modifies this
      ensures query == old(query).(intervalFactor := Some(option.value))
      ensures state == old(state).(intervalFactorOption := option)
      ensures calls == old(calls) + [Change(query.(hide := props.hide)), RunQuery]
      ensures Valid()
    {
      query := query.(intervalFactor := Some(option.value));
      state := state.(intervalFactorOption := option);
      OptionTables();
      FindOrFirstOfOffered(INTERVAL_FACTOR_OPTIONS, option);
      OnRunQuery();
    }

    /** The legend format is stored as it is typed; the query runs on blur. */
    method OnLegendChange(value: string)
      requires Valid()
      modifies this
      ensures query == old(query).(legendFormat := Some(value))
      ensures state == old(state).(legendFormat := Some(value))
      ensures calls == old(calls)
      ensures Valid()
    {
      query := query.(legendFormat := Some(value));
      state := state.(legendFormat := Some(value));
    }

    method OnExemplarChange(isEnabled: bool)
      requires Valid()
      modifies this
      ensures query == old(query).(exemplar := Some(isEnabled))
      ensures state == old(state).(exemplar := isEnabled)
      ensures calls == old(calls) + [Change(query.(hide := props.hide)), RunQuery]
      ensures Valid()
    {
      query := query.(exemplar := Some(isEnabled));
      state := state.(exemplar := isEnabled);
      OnRunQuery();
    }

    /**
     * Exemplars make no sense in alerting, so the field is not shown there;
     * when the props leave exemplars unset, the field is shown exactly when
     * exemplars default to on.
     */
    predicate ShowExemplarField(): (show: bool)
      reads this
      ensures props.exemplar.None? ==> (show <==> BoolTruthy(WithDefaults(props, app).exemplar))
    {
      app != Some(UnifiedAlerting)
    }
  }

  /** A new editor starts from the first format and factor options unless the query names offered ones. */
  lemma InitialOptions(props: PromQuery, app: Option<CoreApp>, state: EditorState)
    requires Shows(state, WithDefaults(props, app))
    ensures props.format.None? ==> state.formatOption == FORMAT_OPTIONS[0]
    ensures props.intervalFactor.None? ==> state.intervalFactorOption == INTERVAL_FACTOR_OPTIONS[0]
    ensures forall o :: o in FORMAT_OPTIONS && props.format == Some(o.value) ==> state.formatOption == o
  {
    OptionTables();
    forall o | o in FORMAT_OPTIONS && props.format == Some(o.value)
      ensures state.formatOption == o
    {
      FindOrFirstOfOffered(FORMAT_OPTIONS, o);
    }
  }
}
