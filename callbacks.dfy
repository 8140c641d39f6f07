/**
 * What an editor's event handler does to the outside world: the calls it
 * makes to its `onChange` and `onRunQuery` props, in order.
 */
module Callbacks {

  datatype Effect<Q> =
    | Change(query: Q)   // onChange(query)
    | RunQuery           // onRunQuery()

  /** `onChange(q); onRunQuery();` */
  function ChangeAndRun<Q>(q: Q): seq<Effect<Q>> {
    [Change(q), RunQuery]
  }
}
