/**
 * The logs volume panel in Explore (LogsVolumePanel.tsx): which of nothing,
 * an error alert, or a panel with a loading message, a graph or a no-data
 * message is shown for a logs volume response, when the reload button is
 * offered, and the error alert that hides a long message behind a button.
 */
module LogsVolumePanel {
  import opened Js

  /** The length above which an error message is hidden behind a details button. */
  const SHORT_ERROR_MESSAGE_LIMIT: nat := 100

  /** `DataQueryError`: its message and the message of its `data`, each possibly missing. */
  datatype QueryError = QueryError(message: Option<string>, dataMessage: Option<string>)

  datatype LoadingState = NotStarted | Loading | Streaming | Done | ErrorState

  /** A time range in epoch milliseconds. */
  datatype AbsoluteTimeRange = AbsoluteTimeRange(from: int, to: int)

  /** A frame of the volume data; only the range it was queried for (`meta.custom.absoluteRange`) matters here. */
  datatype VolumeFrame = VolumeFrame(queriedRange: Option<AbsoluteTimeRange>)

  /** `DataQueryResponse`; `data` is a required array and therefore always truthy. */
  datatype VolumeResponse = VolumeResponse(error: Option<QueryError>, state: LoadingState, data: seq<VolumeFrame>)

  datatype Content = LoadingMessage | Graph | NoDataMessage

  datatype PanelView =
    | Hidden                                   // `return null`
    | ErrorAlertView(error: QueryError)        // `<ErrorAlert error=... />`
    | Panel(content: Content, loading: bool, showReload: bool)

  /** `error.message || error.data?.message || ''` */
  function ErrorMessage(e: QueryError): (message: string)
    ensures StringTruthy(e.message) ==> message == e.message.value
    ensures !StringTruthy(e.message) && StringTruthy(e.dataMessage) ==> message == e.dataMessage.value
    ensures message == "" <==> !StringTruthy(e.message) && !StringTruthy(e.dataMessage)
  {
    if StringTruthy(e.message) then e.message.value
    else if StringTruthy(e.dataMessage) then e.dataMessage.value
    else ""
  }

  /**
   * The selected range divided by the range the volume was queried for is
   * below 1, as the panel computes it (`ratio !== undefined && ratio < 1`):
   * a zero queried range gives an infinite ratio, below 1 only when it is
   * negative, and when the selected range is zero as well the ratio is NaN,
   * which is not below 1. The result is decided by integer comparisons.
   */
  predicate ZoomedIn(selected: AbsoluteTimeRange, queried: AbsoluteTimeRange): (zoomed: bool)
    ensures var a := selected.from - selected.to;
            var b := queried.from - queried.to;
            zoomed <==> (b > 0 && a < b) || (b < 0 && a > b) || (b == 0 && a < 0)
  {
    var a := selected.from - selected.to;
    var b := queried.from - queried.to;
    RatioBelowOne(a, b);
    if b == 0 then a < 0 else (a as real) / (b as real) < 1.0
  }

  /** `logsLevelZoomRatio(...) < 1`, decided with integer comparisons. */
  function ShowReload(response: VolumeResponse, selected: AbsoluteTimeRange): (show: bool)
    ensures show <==> |response.data| > 0 && response.data[0].queriedRange.Some?
                      && ZoomedIn(selected, response.data[0].queriedRange.value)
  {
    if |response.data| == 0 || response.data[0].queriedRange.None? then false
    else
      var queried := response.data[0].queriedRange.value;
      var a := selected.from - selected.to;
      var b := queried.from - queried.to;
      (b > 0 && a < b) || (b < 0 && a > b) || (b == 0 && a < 0)
  }

  /** a / b < 1 over the reals, for b non-zero, is a < b for positive b and a > b for negative b. */
  lemma RatioBelowOne(a: int, b: int)
    ensures b > 0 ==> ((a as real) / (b as real) < 1.0 <==> a < b)
    ensures b < 0 ==> ((a as real) / (b as real) < 1.0 <==> a > b)
  {
    if b > 0 {
      var q := (a as real) / (b as real);
      assert q * (b as real) == a as real;
    } else if b < 0 {
      var q := (a as real) / (b as real);
      assert q * (b as real) == a as real;
    }
  }

  /** The view the panel shows for an optional logs volume response. */
  method SelectView(logsVolumeData: Option<VolumeResponse>, selected: AbsoluteTimeRange) returns (view: PanelView)
    ensures view.Hidden? <==> logsVolumeData.None?
    ensures view.ErrorAlertView? <==> logsVolumeData.Some? && logsVolumeData.value.error.Some?
    ensures view.ErrorAlertView? ==> view.error == logsVolumeData.value.error.value
    ensures view.Panel? ==> logsVolumeData.Some? && logsVolumeData.value.error.None?
    ensures view.Panel? ==> (view.content == LoadingMessage <==> logsVolumeData.value.state == Loading)
    ensures view.Panel? ==> (view.content == Graph <==> logsVolumeData.value.state != Loading && |logsVolumeData.value.data| > 0)
    ensures view.Panel? ==> (view.loading <==> logsVolumeData.value.state == Loading)
    ensures view.Panel? ==> view.showReload == ShowReload(logsVolumeData.value, selected)
  {
    var content: Content;
    if logsVolumeData.None? {
      return Hidden;
    } else if logsVolumeData.value.error.Some? {
      return ErrorAlertView(logsVolumeData.value.error.value);
    } else if logsVolumeData.value.state == Loading {
      content := LoadingMessage;
    } else {
      if |logsVolumeData.value.data| > 0 {
        content := Graph;
      } else {
        content := NoDataMessage;
      }
    }
    var response := logsVolumeData.value;
    view := Panel(content, response.state == Loading, ShowReload(response, selected));
  }

  /** What the alert shows below its title. */
  datatype AlertBody = DetailsButton | MessageText(text: string)

  /** The alert for a failed logs volume query; `isOpen` turns true once the details button is clicked. */
  class ErrorAlert {
    const error: QueryError
    var isOpen: bool

    constructor (error: QueryError)
      ensures this.error == error && !isOpen
    {
      this.error := error;
      isOpen := false;
    }

    /**
     * The details button replaces the message while the alert is closed and
     * the message is long, its length counted in UTF-16 code units.
     */
    predicate ShowButton()
      reads this
    {
      !isOpen && Utf16Length(ErrorMessage(error)) > SHORT_ERROR_MESSAGE_LIMIT
    }

    function Body(): (body: AlertBody)
      reads this
      ensures body.DetailsButton? <==> ShowButton()
      ensures body.MessageText? ==> body.text == ErrorMessage(error)
    {
      if ShowButton() then DetailsButton else MessageText(ErrorMessage(error))
    }

    /** Clicking the details button opens the alert, which from then on shows the whole message. */
    method OnDetailsClick()
      modifies this
      ensures isOpen
      ensures Body() == MessageText(ErrorMessage(error))
    {
      isOpen := true;
    }
  }

  /** A message of at most the limit is shown at once; a longer one only after the alert is opened. */
  lemma ShortMessagesShownAtOnce(alert: ErrorAlert)
    requires !alert.isOpen
    ensures alert.Body() == MessageText(ErrorMessage(alert.error))
            <==> Utf16Length(ErrorMessage(alert.error)) <= SHORT_ERROR_MESSAGE_LIMIT
  {
  }

  /**
   * Counting code units matters: a closed alert hides a message of more than
   * 100 code units even when it has no more than 100 characters, as with 60
   * characters beyond the Basic Multilingual Plane.
   */
  lemma LongInCodeUnitsHidden(alert: ErrorAlert)
    requires !alert.isOpen
    requires forall i :: 0 <= i < |ErrorMessage(alert.error)| ==> ErrorMessage(alert.error)[i] as int >= 0x1_0000
    requires 50 < |ErrorMessage(alert.error)|
    ensures alert.Body() == DetailsButton
  {
    AstralLength(ErrorMessage(alert.error));
  }

  /** A text made only of characters beyond the Basic Multilingual Plane has two code units per character. */
  lemma {:induction false} AstralLength(s: string)
    requires forall i :: 0 <= i < |s| ==> s[i] as int >= 0x1_0000
    ensures Utf16Length(s) == 2 * |s|
  {
    if |s| > 0 {
      assert forall i :: 0 <= i < |s| - 1 ==> s[1..][i] == s[i + 1];
      AstralLength(s[1..]);
    }
  }
}
