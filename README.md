# Query options, time range validation and log metadata of a Grafana frontend

This project models, in Dafny, a slice of a localised Grafana frontend. It has five parts.

- **Time range form.** The time picker's form validates its "From" and "To" fields.
  - A date-math value must also have the shape `now-<n><unit>`.
  - "From" may not resolve after "To".
  - On each edit, a value must lie between 1 January 1970 and the current instant.
  - The form refuses to apply while either field is invalid.
- **Time picker tables.** The quick-range table and the fiscal-month table.
- **Log metadata.**
  - The shared log types: level normalisation, the deduplication strategies, and the check for a datasource with log-context support.
  - The row of meta items above the logs.
  - The logs volume panel, with its error alert and its reload button.
  - The summary line of the panel inspector's data options.
- **Loki query options.** The Explore option fields and the query builder's options group. This covers:
  - normalisation of the typed line limit;
  - query-type selection;
  - the resolution options;
  - the collapsed summary.
- **Prometheus query options.**
  - The Explore extra field: query type, step and exemplar.
  - The legend editor: auto, verbose and custom legends.
  - The classic query editor: its defaults, its controlled state and its handlers.
  - The builder's options group and its collapsed summary.

Each source file becomes one module, in the form the source takes:
- Pure helpers become functions with named results.
- Components with state become classes whose methods update their fields:
  - the form's two fields (`TimeRangeForm.TimeRangeForm`);
  - the classic editor's query, state and callback log (`PromQueryEditor.PromQueryEditor`);
  - the alert's open flag (`LogsVolumePanel.ErrorAlert`).
- Code that builds a list step by step becomes a method proved equal to a specification function. Lemmas then prove that function's order, membership and length.

Three helper modules are shared by all the others:
- `Js` holds `Option`, numbers that may be NaN, JavaScript truthiness, and decimal rendering and parsing.
- `Select` holds select options and the first-match lookup.
- `Callbacks` holds `Effect`. A handler is modelled by the ordered list of calls it makes to `onChange` and `onRunQuery`.

Every source path below is relative to the repository root.

## Model

| member | source | states |
|---|---|---|
| Js.NatString | public/app/plugins/datasource/loki/components/LokiOptionFields.tsx:44-49 | The decimal rendering used in option labels is non-empty, all digits, and has no leading zero. |
| Js.NatStringRoundTrip | public/app/plugins/datasource/loki/components/LokiOptionFields.tsx:162-168 | Reading the decimal text of n back gives n. |
| Js.LeadingDigits | packages/grafana-ui/src/components/DateTimePickers/TimeRangePicker/TimeRangeForm.tsx:270 | Gives the longest all-digit prefix of the text; the next character, if any, is not a digit. |
| Js.ParseLeadingNumber | packages/grafana-ui/src/components/DateTimePickers/TimeRangePicker/TimeRangeForm.tsx:270 | `parseFloat` of a count is NaN exactly when the text does not start with a digit, and is never negative. |
| Js.ParseLeadingNumberOfNatString | packages/grafana-ui/src/components/DateTimePickers/TimeRangePicker/TimeRangeForm.tsx:270 | `parseFloat` of a decimal followed by a non-digit suffix gives that number. |
| Js.UnaryPlus | public/app/plugins/datasource/loki/components/LokiOptionFields.tsx:162-168 | `+value` is 0 for the empty text, the value of a digit string, minus or plus the value of digits after a `-` or `+`, and NaN exactly for every other text. |
| Js.UnaryPlusOfNatString | public/app/plugins/datasource/loki/components/LokiOptionFields.tsx:162-168 | `+` reads back the text of an integer, unsigned or with either sign. |
| Js.Utf16Length | public/app/features/explore/LogsVolumePanel.tsx:27 | JavaScript `.length` counts UTF-16 code units: at least one and at most two per character. |
| Js.Utf16LengthOfBmp | public/app/features/explore/LogsVolumePanel.tsx:27 | The code-unit length equals the character count iff no character lies beyond the Basic Multilingual Plane. |
| Select.Find | public/app/plugins/datasource/loki/querybuilder/components/LokiQueryBuilderOptions.tsx:90-91 | `options.find` gives nothing exactly when no option carries the value; otherwise it gives an offered option that carries it. |
| Select.FindOrFirst | public/app/plugins/datasource/prometheus/components/PromQueryEditor.tsx:59-61 | `find(...) \|\| options[0]` is always an offered option. It carries the wanted value when one does; otherwise it is the first option. |
| Select.FindOrFirstOfOffered | public/app/plugins/datasource/prometheus/components/PromQueryEditor.tsx:59-61 | When values are distinct, looking up an offered option's value gives back that option. |
| TimeRangeForm.RenderedMatches | packages/grafana-ui/src/components/DateTimePickers/TimeRangePicker/TimeRangeForm.tsx:242 | Every `now`, optional `-`, digits, optional unit letter is accepted by the recogniser. |
| TimeRangeForm.MatchedIsRendered | packages/grafana-ui/src/components/DateTimePickers/TimeRangePicker/TimeRangeForm.tsx:242 | Every accepted text is such a rendering. |
| TimeRangeForm.MatchesRelativeIffRendered | packages/grafana-ui/src/components/DateTimePickers/TimeRangePicker/TimeRangeForm.tsx:242-247 | The recogniser accepts exactly the renderings of well-formed relative forms, in both directions. |
| TimeRangeForm.RoundingFormsRejected | packages/grafana-ui/src/components/DateTimePickers/TimeRangePicker/TimeRangeForm.tsx:242-247 | A text with a `/unit` rounding suffix is never accepted. |
| TimeRangeForm.DigitsThenUnitNoSlash | packages/grafana-ui/src/components/DateTimePickers/TimeRangePicker/TimeRangeForm.tsx:242 | Digits followed by an optional unit letter never contain `/`. |
| TimeRangeForm.IsValid | packages/grafana-ui/src/components/DateTimePickers/TimeRangePicker/TimeRangeForm.tsx:235-255 | A date-math value is valid iff the library accepts it and it matches the recogniser. Any other value is valid iff it parses. |
| TimeRangeForm.IsRangeInvalid | packages/grafana-ui/src/components/DateTimePickers/TimeRangePicker/TimeRangeForm.tsx:198-204 | A range is ordered iff both ends resolve and "from", rounded down, is at most "to", rounded up. |
| TimeRangeForm.EqualEndpointsAreOrdered | packages/grafana-ui/src/components/DateTimePickers/TimeRangePicker/TimeRangeForm.tsx:198-204 | Ends that resolve to the same instant form an ordered range. |
| TimeRangeForm.ValueToState | packages/grafana-ui/src/components/DateTimePickers/TimeRangePicker/TimeRangeForm.tsx:206-226 | "To" is invalid only for its own value. "From" is invalid for its own value, or when "To" is valid and the range is inverted. The range message appears iff both values are valid and the range is inverted. |
| TimeRangeForm.ValueAsString | packages/grafana-ui/src/components/DateTimePickers/TimeRangePicker/TimeRangeForm.tsx:228-233 | A text is kept as it is; a moment becomes the date library's formatting of its instant. |
| TimeRangeForm.InvertedRangeFlagsFrom | packages/grafana-ui/src/components/DateTimePickers/TimeRangePicker/TimeRangeForm.tsx:213-224 | Two valid values that resolve inverted flag "From" with the range message and leave "To" valid. |
| TimeRangeForm.UnitMillis | packages/grafana-ui/src/components/DateTimePickers/TimeRangePicker/TimeRangeForm.tsx:278-305 | Exactly the letters `YyMwdhms` name a unit, and each unit is a positive number of milliseconds. |
| TimeRangeForm.JudgeTime | packages/grafana-ui/src/components/DateTimePickers/TimeRangePicker/TimeRangeForm.tsx:268-307 | The chain of unit tests, in which a later test overwrites an earlier one, computes "the count exceeds the whole units elapsed since the epoch". |
| TimeRangeForm.JudgeTimeOfCount | packages/grafana-ui/src/components/DateTimePickers/TimeRangePicker/TimeRangeForm.tsx:268-307 | For `<n><unit>`, the result holds iff n > now / unit length. |
| TimeRangeForm.TimeJudge | packages/grafana-ui/src/components/DateTimePickers/TimeRangePicker/TimeRangeForm.tsx:308-311 | An absolute date is out of the window iff it is valid and lies before local 1970-01-01 or after now. An invalid date is never out. |
| TimeRangeForm.ContainsNowIffOccurs | packages/grafana-ui/src/components/DateTimePickers/TimeRangePicker/TimeRangeForm.tsx:102 | The scan behind `indexOf('now') >= 0` holds iff `now` occurs somewhere in the text. |
| TimeRangeForm.OutsideWindow | packages/grafana-ui/src/components/DateTimePickers/TimeRangePicker/TimeRangeForm.tsx:102-117 | A text without `now` is outside iff it is a date before the local epoch or after now; a relative text with a dash is judged by the field after the first dash; one without a dash is never outside. |
| TimeRangeForm.IndexOf | packages/grafana-ui/src/components/DateTimePickers/TimeRangePicker/TimeRangeForm.tsx:106 | `indexOf` gives the first position of the character. |
| TimeRangeForm.IndexOfFirst | packages/grafana-ui/src/components/DateTimePickers/TimeRangePicker/TimeRangeForm.tsx:106 | A position holding the character with none before it is exactly what `indexOf` returns. |
| TimeRangeForm.SecondDashField | packages/grafana-ui/src/components/DateTimePickers/TimeRangePicker/TimeRangeForm.tsx:107 | `split('-')[1]` contains no dash. |
| TimeRangeForm.WindowChecked | packages/grafana-ui/src/components/DateTimePickers/TimeRangePicker/TimeRangeForm.tsx:118-125 | The window check only adds the invalid flag, with the window message, and keeps the value. |
| TimeRangeForm.PlainNowInWindow | packages/grafana-ui/src/components/DateTimePickers/TimeRangePicker/TimeRangeForm.tsx:102-117 | `now` itself is never out of the window. |
| TimeRangeForm.RelativeWindow | packages/grafana-ui/src/components/DateTimePickers/TimeRangePicker/TimeRangeForm.tsx:102-117 | `now-<n><unit>` is out of the window iff n exceeds the units elapsed since the epoch. |
| TimeRangeForm.TimeRangeForm.constructor | packages/grafana-ui/src/components/DateTimePickers/TimeRangePicker/TimeRangeForm.tsx:49-53 | The initial fields are the validated state of the `value` prop. |
| TimeRangeForm.TimeRangeForm.Synchronize | packages/grafana-ui/src/components/DateTimePickers/TimeRangePicker/TimeRangeForm.tsx:57-62 | A new `value` prop re-derives both fields. |
| TimeRangeForm.TimeRangeForm.OnChange | packages/grafana-ui/src/components/DateTimePickers/TimeRangePicker/TimeRangeForm.tsx:86-130 | Each field becomes its validated state, flagged with the window message when out of the window. |
| TimeRangeForm.TimeRangeForm.OnApply | packages/grafana-ui/src/components/DateTimePickers/TimeRangePicker/TimeRangeForm.tsx:72-85 | Nothing is applied iff either field is invalid; otherwise both texts are applied. |
| TimePickerOptions.QuickOptionsAreRelative | packages/grafana-ui/src/components/DateTimePickers/options.ts:3-40 | Both ends of every quick range start with `now`. |
| TimePickerOptions.QuickOptionsEndNowOrSame | packages/grafana-ui/src/components/DateTimePickers/options.ts:3-40 | Every quick range ends now, or ends at its own (rounded) start. |
| TimePickerOptions.LastNOptionsMatchRecogniser | packages/grafana-ui/src/components/DateTimePickers/options.ts:4-19 | The sixteen "last N" ranges end now, and their start is accepted by the form's recogniser. |
| TimePickerOptions.LastNMatches | packages/grafana-ui/src/components/DateTimePickers/options.ts:4-19 | `now-` followed by a count and a unit letter is accepted by the recogniser. |
| TimePickerOptions.RoundedOptionsRejected | packages/grafana-ui/src/components/DateTimePickers/options.ts:20-39 | The form's recogniser rejects the rounded ranges, except for a `to` of `now`. |
| TimePickerOptions.FiscalOptionsRoundToFiscalUnits | packages/grafana-ui/src/components/DateTimePickers/options.ts:25-39 | The fiscal ranges round to `fQ` or `fy` and end now or at their own start. |
| TimePickerOptions.MonthOptionsInCalendarOrder | packages/grafana-ui/src/components/DateTimePickers/options.ts:42-55 | There are twelve months numbered 0 to 11 in order, each labelled with its one-based number. |
| Logs.LevelFromName | packages/grafana-data/src/types/logs.ts:11-30 | A key normalises to a level iff it is one of the enum's 18 keys. |
| Logs.CriticalAbbreviations | packages/grafana-data/src/types/logs.ts:12-16 | emerg, fatal, alert, crit and critical normalise to critical. |
| Logs.WarningAndErrorAbbreviations | packages/grafana-data/src/types/logs.ts:17-21 | warn and warning normalise to warning; err, eror and error normalise to error. |
| Logs.InfoDebugTraceUnknownAbbreviations | packages/grafana-data/src/types/logs.ts:22-29 | The info, debug, trace and unknown keys normalise as the enum says. |
| Logs.NormalisationIdempotent | packages/grafana-data/src/types/logs.ts:11-30 | A canonical level's name is itself a key, and it maps back to that level. |
| Logs.NormalisationImage | packages/grafana-data/src/types/logs.ts:11-30 | The canonical names are distinct, and every one of the seven levels is the image of some key. |
| Logs.KeyIndex | packages/grafana-data/src/types/logs.ts:11-30 | Each level's own name sits at a known position among the keys. |
| Logs.DedupStrategiesDistinct | packages/grafana-data/src/types/logs.ts:105-110 | There are four strategies, each listed once. Their texts, and their descriptions, tell them apart. |
| Logs.HasLogsContextSupport | packages/grafana-data/src/types/logs.ts:165-173 | A falsy datasource has no support. An object has support iff both context members are defined, so support implies an object that can fetch row context. |
| LogsMetaRow.BuildMetaItems | public/app/features/explore/LogsMetaRow.tsx:33-86 | The row's list is the given items followed by the added entries of the specification. |
| LogsMetaRow.HasLongLine | public/app/features/explore/LogsMetaRow.tsx:44-50 | Line lengths are counted in UTF-16 code units: a line of more than 100000 characters always counts as long, and lines of at most 50000 characters never do. |
| LogsMetaRow.MetaItemsOrder | public/app/features/explore/LogsMetaRow.tsx:33-86 | The list has the given items unchanged as a prefix, then only added entries in strictly increasing fixed order. Its length is the given count plus the number of conditions that hold. |
| LogsMetaRow.MetaItemsPresence | public/app/features/explore/LogsMetaRow.tsx:33-86 | The dedup count, long-line notice, detected-fields pair and unescaped-content entries are each present iff their condition holds. |
| LogsMetaRow.GivenThenAdded | public/app/features/explore/LogsMetaRow.tsx:33-86 | Appending ranked added entries after the given items keeps the given prefix and puts every added entry after it, in order. |
| LogsMetaRow.AddedEntriesCount | public/app/features/explore/LogsMetaRow.tsx:36-86 | One entry is added per condition that holds, and two for detected fields. |
| LogsMetaRow.AddedEntriesRanked | public/app/features/explore/LogsMetaRow.tsx:36-86 | The order is dedup count, long line, detected fields, clear button, unescaped content. |
| LogsMetaRow.AddedEntriesPresence | public/app/features/explore/LogsMetaRow.tsx:36-86 | Each added entry is present iff its condition holds. |
| LogsMetaRow.GivenEntries | public/app/features/explore/LogsMetaRow.tsx:33 | Wraps every given item, in order. |
| LogsMetaRow.RenderMetaItem | public/app/features/explore/LogsMetaRow.tsx:107-118 | Labels maps and errors are wrapped; any other kind is shown unchanged. The value is always kept. |
| LogsMetaRow.Display | public/app/features/explore/LogsMetaRow.tsx:92-97 | A given item keeps its label and value, and is plain iff it is a number or a string. |
| LogsMetaRow.AddedItemsDisplay | public/app/features/explore/LogsMetaRow.tsx:37-85 | Shows the count as a plain number, the detected fields as labels, and the escape button with the current escape flag. |
| LogsMetaRow.DisplayItems | public/app/features/explore/LogsMetaRow.tsx:92-97 | Every item is displayed once, in list order. |
| LogsVolumePanel.ErrorMessage | public/app/features/explore/LogsVolumePanel.tsx:25 | The message is the error's own message, else its data message, else empty. It is empty iff both are missing or empty. |
| LogsVolumePanel.ShowReload | public/app/features/explore/LogsVolumePanel.tsx:84-93 | Reload is offered iff the first frame carries a queried range and the selected range divided by it is below 1. The comparison is over the reals, with zero divisors as in JavaScript. |
| LogsVolumePanel.RatioBelowOne | public/app/features/explore/LogsVolumePanel.tsx:122-128 | Decides the real-number ratio test with integer comparisons. |
| LogsVolumePanel.ZoomedIn | public/app/features/explore/LogsVolumePanel.tsx:84-87 | The real-number ratio test `ratio < 1`, with the infinite and NaN outcomes of a zero divisor, is decided by the signs of the two range widths. |
| LogsVolumePanel.SelectView | public/app/features/explore/LogsVolumePanel.tsx:57-102 | No data shows nothing, and an error shows the alert. Otherwise the panel shows loading iff loading, and a graph iff it is not loading and there are frames. |
| LogsVolumePanel.ErrorAlert.constructor | public/app/features/explore/LogsVolumePanel.tsx:21-22 | The alert starts closed. |
| LogsVolumePanel.ErrorAlert.Body | public/app/features/explore/LogsVolumePanel.tsx:27-45 | The details button shows iff the alert is closed and the message is over the limit in UTF-16 code units; otherwise the message shows. |
| LogsVolumePanel.ErrorAlert.OnDetailsClick | public/app/features/explore/LogsVolumePanel.tsx:35-37 | Clicking opens the alert, which then shows the whole message. |
| LogsVolumePanel.ShortMessagesShownAtOnce | public/app/features/explore/LogsVolumePanel.tsx:27 | A closed alert shows its message iff the message is at most 100 UTF-16 code units long. |
| LogsVolumePanel.LongInCodeUnitsHidden | public/app/features/explore/LogsVolumePanel.tsx:27 | A closed alert hides a message of more than 50 characters beyond the Basic Multilingual Plane, though it has fewer than 100 characters. |
| LokiOptionFields.QueryTypeOptions | public/app/plugins/datasource/loki/components/LokiOptionFields.tsx:22-37 | Range and instant are offered first; stream is offered iff the live toggle is on. |
| LokiOptionFields.ResolutionOptionsTable | public/app/plugins/datasource/loki/components/LokiOptionFields.tsx:39-49 | The resolutions are 1, 2, 3, 4, 5 and 10, the default first, each labelled `1/<value>`. |
| LokiOptionFields.PreprocessMaxLines | public/app/plugins/datasource/loki/components/LokiOptionFields.tsx:158-170 | NaN iff the input is empty; never negative; non-numbers and negatives become 0; otherwise the number. |
| LokiOptionFields.PreprocessRoundTrip | public/app/plugins/datasource/loki/components/LokiOptionFields.tsx:158-170 | A count's decimal text reads back as that count. |
| LokiOptionFields.NegativeLimitClamped | public/app/plugins/datasource/loki/components/LokiOptionFields.tsx:162-165 | `-n` becomes 0. |
| LokiOptionFields.EffectiveQueryType | public/app/plugins/datasource/loki/components/LokiOptionFields.tsx:54 | The shown type is the explicit type; else instant iff `instant` is truthy; never stream by default. |
| LokiOptionFields.WithQueryType | public/app/plugins/datasource/loki/components/LokiOptionFields.tsx:61-64 | Drops `instant` and `range`, sets the type, and keeps every other member. |
| LokiOptionFields.QueryTypeRoundTrip | public/app/plugins/datasource/loki/components/LokiOptionFields.tsx:54-64 | The type chosen in the radio group is the type it then shows. |
| LokiOptionFields.OnQueryTypeSelected | public/app/plugins/datasource/loki/components/LokiOptionFields.tsx:101-106 | Changes the type, then runs the query iff `runOnBlur` is set. |
| LokiOptionFields.OnMaxLinesChange | public/app/plugins/datasource/loki/components/LokiOptionFields.tsx:56-70 | Emits one change, storing the normalised limit, iff that limit `!==` the stored one. |
| LokiOptionFields.EmptyLimitAlwaysEmits | public/app/plugins/datasource/loki/components/LokiOptionFields.tsx:66-70 | Clearing the input always emits, since NaN differs from itself. |
| LokiOptionFields.SameLimitEmitsNothing | public/app/plugins/datasource/loki/components/LokiOptionFields.tsx:66-70 | Retyping the stored limit emits nothing. |
| LokiOptionFields.OnResolutionChange | public/app/plugins/datasource/loki/components/LokiOptionFields.tsx:78-81 | Stores the chosen resolution, changes nothing else, and does not run. |
| LokiQueryBuilderOptions.OnQueryTypeChange | public/app/plugins/datasource/loki/querybuilder/components/LokiQueryBuilderOptions.tsx:20-23 | Sets the type, which then shows, and runs. |
| LokiQueryBuilderOptions.OnResolutionChange | public/app/plugins/datasource/loki/querybuilder/components/LokiQueryBuilderOptions.tsx:25-28 | Stores the resolution only, then runs. |
| LokiQueryBuilderOptions.OnLegendFormatChanged | public/app/plugins/datasource/loki/querybuilder/components/LokiQueryBuilderOptions.tsx:30-33 | Stores the legend only, then runs. |
| LokiQueryBuilderOptions.OnMaxLinesChange | public/app/plugins/datasource/loki/querybuilder/components/LokiQueryBuilderOptions.tsx:35-41 | Changes and runs iff the normalised limit differs from the stored one. |
| LokiQueryBuilderOptions.GetCollapsedInfo | public/app/plugins/datasource/loki/querybuilder/components/LokiQueryBuilderOptions.tsx:89-110 | The pushed entries are the collapsed summary, with the resolution and query-type labels looked up in their option tables. |
| LokiQueryBuilderOptions.LabelOf | public/app/plugins/datasource/loki/querybuilder/components/LokiQueryBuilderOptions.tsx:90-91 | `find(...)?.label`: no label iff no option carries the value, otherwise the label of the first option that does. |
| LokiQueryBuilderOptions.Summary | public/app/plugins/datasource/loki/querybuilder/components/LokiQueryBuilderOptions.tsx:93-109 | One entry for the type plus one for each of a set legend, a truthy resolution and a shown, truthy line limit. |
| LokiQueryBuilderOptions.SummaryOrder | public/app/plugins/datasource/loki/querybuilder/components/LokiQueryBuilderOptions.tsx:89-110 | Entries appear in strictly increasing order legend, resolution, type, limit; the legend, when present, is first and the limit, when present, is last. |
| LokiQueryBuilderOptions.SummaryPresence | public/app/plugins/datasource/loki/querybuilder/components/LokiQueryBuilderOptions.tsx:89-110 | The legend is present iff set, the resolution iff truthy, the type always, and the line limit iff shown and truthy. |
| LokiQueryBuilderOptions.CollapsedText | public/app/plugins/datasource/loki/querybuilder/components/LokiQueryBuilderOptions.tsx:89-110 | Gives one string per entry, in order. |
| LokiQueryBuilderOptions.OfferedResolutionsLabelled | public/app/plugins/datasource/loki/querybuilder/components/LokiQueryBuilderOptions.tsx:91 | Every offered resolution is found, with its own label. |
| LokiQueryBuilderOptions.TypeLabelFound | public/app/plugins/datasource/loki/querybuilder/components/LokiQueryBuilderOptions.tsx:90 | The type label is missing iff the type is stream with the live toggle off. |
| PromExploreExtraField.GetQueryTypeOptions | public/app/plugins/datasource/prometheus/components/PromExploreExtraField.tsx:110-125 | Offers range and instant, and "both" iff asked to. |
| PromExploreExtraField.QueryTypeValue | public/app/plugins/datasource/prometheus/components/PromExploreExtraField.tsx:69 | "both" iff range and instant; "instant" iff only instant; "range" iff not instant. |
| PromExploreExtraField.WithQueryType | public/app/plugins/datasource/prometheus/components/PromExploreExtraField.tsx:127-137 | Instant clears range and exemplar; range clears instant; anything else sets both. No other member changes. |
| PromExploreExtraField.OnQueryTypeChange | public/app/plugins/datasource/prometheus/components/PromExploreExtraField.tsx:127-137 | Emits the one changed query, without running. |
| PromExploreExtraField.QueryTypeRoundTrip | public/app/plugins/datasource/prometheus/components/PromExploreExtraField.tsx:127-137 | Choosing range, instant or both makes that the shown value. |
| PromExploreExtraField.QueryTypeStable | public/app/plugins/datasource/prometheus/components/PromExploreExtraField.tsx:127-137 | Re-choosing the shown value keeps it. |
| PromExploreExtraField.OnStepChange | public/app/plugins/datasource/prometheus/components/PromExploreExtraField.tsx:34-42 | Emits the new step iff it differs from the stored one. |
| PromExploreExtraField.OnExemplarChange | public/app/plugins/datasource/prometheus/components/PromExploreExtraField.tsx:25-32 | Stays silent iff the query is unchanged since the last render and the exemplar flag is already the new value. |
| PromQueryLegendEditor.GetLegendMode | public/app/plugins/datasource/prometheus/querybuilder/components/PromQueryLegendEditor.tsx:95-107 | Auto iff the auto token; verbose iff missing or empty; custom otherwise. |
| PromQueryLegendEditor.GetLegendModeLabel | public/app/plugins/datasource/prometheus/querybuilder/components/PromQueryLegendEditor.tsx:109-115 | The label is 自动 or 详细 for those modes, and the format itself when custom. It is always present. |
| PromQueryLegendEditor.OnLegendModeChanged | public/app/plugins/datasource/prometheus/querybuilder/components/PromQueryLegendEditor.tsx:45-62 | Emits the mode's format and runs; the emitted format reads back as the chosen mode. |
| PromQueryLegendEditor.LegendModeRoundTrip | public/app/plugins/datasource/prometheus/querybuilder/components/PromQueryLegendEditor.tsx:95-107 | Every mode's format reads back as that mode. |
| PromQueryLegendEditor.OnLegendFormatChanged | public/app/plugins/datasource/prometheus/querybuilder/components/PromQueryLegendEditor.tsx:33-43 | Empty input stands for the auto token. Emits and runs iff the input differs from the stored format. Never switches to verbose. |
| PromQueryEditor.OptionTables | public/app/plugins/datasource/prometheus/components/PromQueryEditor.tsx:17-26 | The factors are 1, 2, 3, 4, 5 and 10, labelled `1/<value>`; both tables have distinct values. |
| PromQueryEditor.WithDefaults | public/app/plugins/datasource/prometheus/components/PromQueryEditor.tsx:44-51 | Missing legend and step become empty. A missing exemplar becomes true, except in alerting. Given members are kept. |
| PromQueryEditor.DefaultsIdempotent | public/app/plugins/datasource/prometheus/components/PromQueryEditor.tsx:44-51 | Applying the defaults twice changes nothing. |
| PromQueryEditor.PromQueryEditor.constructor | public/app/plugins/datasource/prometheus/components/PromQueryEditor.tsx:41-66 | The editor starts from the defaulted query, with a state that shows it and no calls made. |
| PromQueryEditor.PromQueryEditor.OnRunQuery | public/app/plugins/datasource/prometheus/components/PromQueryEditor.tsx:105-111 | Emits the query with the prop's `hide`, then runs. |
| PromQueryEditor.PromQueryEditor.OnFieldChange | public/app/plugins/datasource/prometheus/components/PromQueryEditor.tsx:68-70 | Copies only the expression, and keeps the state shown. |
| PromQueryEditor.PromQueryEditor.OnFormatChange | public/app/plugins/datasource/prometheus/components/PromQueryEditor.tsx:72-75 | Stores the format and the option, then runs. |
| PromQueryEditor.PromQueryEditor.OnInstantChange | public/app/plugins/datasource/prometheus/components/PromQueryEditor.tsx:77-81 | Stores the instant flag, then runs. |
| PromQueryEditor.PromQueryEditor.OnIntervalChange | public/app/plugins/datasource/prometheus/components/PromQueryEditor.tsx:83-87 | Stores the step without running. |
| PromQueryEditor.PromQueryEditor.OnIntervalFactorChange | public/app/plugins/datasource/prometheus/components/PromQueryEditor.tsx:89-92 | Stores the factor and the option, then runs. |
| PromQueryEditor.PromQueryEditor.OnLegendChange | public/app/plugins/datasource/prometheus/components/PromQueryEditor.tsx:94-98 | Stores the legend without running. |
| PromQueryEditor.PromQueryEditor.OnExemplarChange | public/app/plugins/datasource/prometheus/components/PromQueryEditor.tsx:100-103 | Stores the exemplar flag, then runs. |
| PromQueryEditor.InitialOptions | public/app/plugins/datasource/prometheus/components/PromQueryEditor.tsx:59-61 | The first format or factor option is shown when the query names none; an offered format the query names is shown. |
| PromQueryEditor.PromQueryEditor.ShowExemplarField | public/app/plugins/datasource/prometheus/components/PromQueryEditor.tsx:116-117 | Hidden in alerting. When the props leave exemplars unset, the field is shown iff exemplars default to on. |
| PromQueryBuilderOptions.OnChangeFormat | public/app/plugins/datasource/prometheus/querybuilder/components/PromQueryBuilderOptions.tsx:23-26 | Stores the format only, then runs. |
| PromQueryBuilderOptions.OnChangeStep | public/app/plugins/datasource/prometheus/querybuilder/components/PromQueryBuilderOptions.tsx:28-31 | Stores the step only, then runs. |
| PromQueryBuilderOptions.OnExemplarChange | public/app/plugins/datasource/prometheus/querybuilder/components/PromQueryBuilderOptions.tsx:36-40 | Stores the exemplar flag only, then runs. |
| PromQueryBuilderOptions.OnIntervalFactorChange | public/app/plugins/datasource/prometheus/querybuilder/components/PromQueryBuilderOptions.tsx:42-45 | Stores the factor only, then runs. |
| PromQueryBuilderOptions.ShouldShowExemplarSwitch | public/app/plugins/datasource/prometheus/querybuilder/components/PromQueryBuilderOptions.tsx:104-110 | The switch shows iff the app is not alerting and `range` is truthy. |
| PromQueryBuilderOptions.ShowsResolutionSelect | public/app/plugins/datasource/prometheus/querybuilder/components/PromQueryBuilderOptions.tsx:87 | The select shows iff the factor is above 1. |
| PromQueryBuilderOptions.FormatOption | public/app/plugins/datasource/prometheus/querybuilder/components/PromQueryBuilderOptions.tsx:47 | The shown format is an offered one: the query's own when offered, else time series. |
| PromQueryBuilderOptions.QueryTypeLabel | public/app/plugins/datasource/prometheus/querybuilder/components/PromQueryBuilderOptions.tsx:48-49 | The label is missing iff "both" is set outside Explore. Otherwise it is the range, instant or both label. |
| PromQueryBuilderOptions.GetCollapsedInfo | public/app/plugins/datasource/prometheus/querybuilder/components/PromQueryBuilderOptions.tsx:116-133 | The pushed entries are the collapsed summary, with the legend label derived from the legend format. |
| PromQueryBuilderOptions.Summary | public/app/plugins/datasource/prometheus/querybuilder/components/PromQueryBuilderOptions.tsx:116-133 | Legend then format, three entries plus one for a truthy step and one for truthy exemplars. |
| PromQueryBuilderOptions.SummaryShape | public/app/plugins/datasource/prometheus/querybuilder/components/PromQueryBuilderOptions.tsx:116-133 | Legend and format come first; the step, when present, is third; the exemplar, when present, is last; entries are in strictly increasing order and the count follows from the two conditions. |
| PromQueryBuilderOptions.SummaryPresence | public/app/plugins/datasource/prometheus/querybuilder/components/PromQueryBuilderOptions.tsx:116-133 | The step is present iff the interval is truthy, the type always, and the exemplar iff it is truthy. |
| InspectDataOptions.ShowPanelTransformationsOption | public/app/features/inspector/InspectDataOptions.tsx:41-43 | The switch shows iff the panel has transformations and the transform is not "join by time". |
| InspectDataOptions.DataSelect | public/app/features/inspector/InspectDataOptions.tsx:46-49 | Offers the joined data when joining by time, else the panel's frames. |
| InspectDataOptions.Choices | public/app/features/inspector/InspectDataOptions.tsx:51-56 | Gives one choice per frame, value i, labelled with the name and `(i)`. |
| InspectDataOptions.SelectableOptions | public/app/features/inspector/InspectDataOptions.tsx:58 | The transformations come first, then the frame choices, each kept. |
| InspectDataOptions.ActiveParts | public/app/features/inspector/InspectDataOptions.tsx:67-90 | The parts the summary lists equal the specification `Parts`. |
| InspectDataOptions.PartsInOrder | public/app/features/inspector/InspectDataOptions.tsx:67-90 | The order is join or frame name, transforms, formatting, Excel header. |
| InspectDataOptions.PartsStartWithShown | public/app/features/inspector/InspectDataOptions.tsx:69-73 | Starts with the join text when joining by time, or with the selected frame's name when there are several frames; otherwise with neither. |
| InspectDataOptions.PartsPresence | public/app/features/inspector/InspectDataOptions.tsx:75-90 | Transforms, formatting and the Excel header are present iff switched on; the Excel header is last. |
| InspectDataOptions.Join | public/app/features/inspector/InspectDataOptions.tsx:92 | Joining no parts gives empty text, and one part gives that part. |
| InspectDataOptions.JoinPrepend | public/app/features/inspector/InspectDataOptions.tsx:92 | Join puts the separator between the first part and the rest. |
| InspectDataOptions.JoinLength | public/app/features/inspector/InspectDataOptions.tsx:92 | The joined length is the parts' lengths plus one separator fewer than there are parts. |
| InspectDataOptions.PartTexts | public/app/features/inspector/InspectDataOptions.tsx:67-90 | Gives one text per part, in order. |
| InspectDataOptions.GetActiveString | public/app/features/inspector/InspectDataOptions.tsx:60-93 | Empty without data; otherwise the part texts joined by `, `. |
| InspectDataOptions.ExcelOnlySummary | public/app/features/inspector/InspectDataOptions.tsx:60-93 | One frame with only the Excel header on reads `excel标题`. |
| InspectDataOptions.JoinedWithTransformsSummary | public/app/features/inspector/InspectDataOptions.tsx:60-93 | Joined series with transforms on read `按时间加入的系列, 面板转换`. |

## Left out

- The date library is not modelled. `dateMath`, `dateTimeParse`, `dateTimeFormat`, `new Date(text)` and local 1970-01-01 are the fields of the `DateLib` parameter.
  - The current instant is a parameter.
  - The time zone, the fiscal start month and `convertRawToRange` stay inside the library, so `OnApply` emits the raw texts it would convert.
- The window error text embeds the current date and time. It is an opaque `WindowMessage`, and the two fixed messages are `DefaultMessage` and `RangeMessage`.
- `IsValid`'s DateTime branch is left out. Its argument is always a string at the call sites, so the branch never runs.
- Number parsing is restricted:
  - `parseFloat` is modelled on a leading run of digits: no sign, fraction, exponent or leading whitespace.
  - `+value` is modelled on the empty string, and on an optional sign followed by digits.
  - Every other text is NaN in the model. JavaScript reads some of them as numbers, among them fractions (`1.5`), exponents, hexadecimal, `Infinity` and surrounding whitespace.
- Integers are exact.
  - `Math.floor(ms / unit)` is integer division. This is exact because every unit, including 365.25 and 365.25/12 days, is a whole number of milliseconds, and the current instant is after the epoch.
  - The zoom ratio is decided exactly over the reals, with no floating-point rounding.
- `MAX_CHARACTERS` is defined in LogRowMessage.tsx, which is not part of this model. Its value, 100000, is the one the row's info text states.
- An undefined `showDetectedFields` is treated as an empty list.
- Rendering is left out: JSX, styles, tooltips, icons, focus handling (`setTimeout` in the legend editor), `onReturnKeyDown` and `onBlur` runs. Rendered values are the datatypes `Rendered`, `PanelView`, `AlertBody` and the summary items.
- The deduplication itself and the `LogRowModel` members other than `entry` and `hasUnescapedContent` are not modelled.
- `PromQuery`, `LegendFormatMode` and the `__auto` token are declared in the Prometheus types.ts, and `CoreApp` in the data package; neither file is part of this model. Their values are taken as the editors use them.
- `Object.assign` and object spread are record updates. A key present with the value `undefined` is not told apart from a missing key.
- PromQueryEditor.WithDefaults: the default query's `expr: ''` is not represented. `expr` is a required field of the modelled query, so a missing expression cannot occur in the model.
- PromQueryEditor.PromQueryEditor.OnRunQuery: the `hide` flag is read from the props given at construction; later prop updates from the parent are not modelled.
- PromQueryEditor.PromQueryEditor.OnFormatChange and PromQueryEditor.PromQueryEditor.OnIntervalFactorChange require the chosen option to be an offered one, as the select only offers those. A custom format typed into the builder's select is modelled only in `PromQueryBuilderOptions.OnChangeFormat`.
- PromQueryBuilderOptions.QueryTypeLabel: the non-null assertion on the label fails at run time when "both" is set outside Explore. The model returns no label there instead of stopping.
- InspectDataOptions.DataSelect, InspectDataOptions.ActiveParts and InspectDataOptions.GetActiveString require two things. Joining by time requires `data` to be present, as the source's non-null assertion assumes. With several frames, the selection must be a valid frame index; otherwise the source passes `undefined` to `getFrameDisplayName`.
- `getFrameDisplayName` and the builder's `isMetricsQuery` are not modelled; they become parameters (`displayName`, `showMaxLines`). The field-config switch depends on the panel plugin's registry and is not modelled.
- React state timing is not modelled: `setState` callbacks and hooks are synchronous updates of the class fields, and `usePrevious` becomes the `previous` parameter.
- TimePickerOptions.FiscalOptionsRoundToFiscalUnits is weaker than "only the fiscal ranges use fiscal units". It names the six fiscal ranges, but does not prove that no other quick range contains `f`.
