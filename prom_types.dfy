/**
 * The Prometheus query record the editors read and write, and the
 * application an editor is embedded in. The record's declaration lives in
 * the datasource's types.ts, which is not part of this model; the members
 * are the ones the editors use, optional ones as `Option`.
 */
module PromTypes {
  import opened Js

  datatype PromQuery = PromQuery(
    refId: string,
    expr: string,
    legendFormat: Option<string>,
    interval: Option<string>,
    format: Option<string>,
    instant: Option<bool>,
    range: Option<bool>,
    exemplar: Option<bool>,
    intervalFactor: Option<int>,
    hide: Option<bool>
  )

  /** `CoreApp`: where the editor is shown. */
  datatype CoreApp = Explore | Dashboard | PanelEditor | PanelViewer | UnifiedAlerting | CloudAlerting | UnknownApp
}
