/**
 * Option lists of the editors' select boxes and radio groups, and the
 * lookups the components do on them (`options.find(...)`, with or without
 * a fallback to the first entry).
 */
module Select {
  import opened Js

  /** A `SelectableValue<T>`: a label (`text`) shown to the user and the value it stands for. */
  datatype SelectOption<T> = SelectOption(text: string, value: T)

  /** The position of the first option whose value is v, or |options| when there is none. */
  function FirstIndexOf<T(==)>(options: seq<SelectOption<T>>, v: T): (i: nat)
    ensures i <= |options|
    ensures forall j :: 0 <= j < i ==> options[j].value != v
    ensures i < |options| ==> options[i].value == v
  {
    if |options| == 0 then 0
    else if options[0].value == v then 0
    else 1 + FirstIndexOf(options[1..], v)
  }

  /** `options.find((o) => o.value === v)`: the first option whose value is v, if any. */
  function Find<T(==)>(options: seq<SelectOption<T>>, v: T): (r: Option<SelectOption<T>>)
    ensures r.None? <==> forall i :: 0 <= i < |options| ==> options[i].value != v
    ensures r.Some? ==> exists i :: 0 <= i < |options| && options[i] == r.value && options[i].value == v
                                   && forall j :: 0 <= j < i ==> options[j].value != v
  {
    var i := FirstIndexOf(options, v);
    if i < |options| then Some(options[i]) else None
  }

  /**
   * `options.find((o) => o.value === v) || options[0]`, where v may be
   * undefined (no option carries the value undefined).
   */
  function FindOrFirst<T(==)>(options: seq<SelectOption<T>>, v: Option<T>): (r: SelectOption<T>)
    requires |options| > 0
    ensures r in options
    ensures v.Some? && (exists i :: 0 <= i < |options| && options[i].value == v.value) ==> r.value == v.value
    ensures (v.None? || forall i :: 0 <= i < |options| ==> options[i].value != v.value) ==> r == options[0]
  {
    if v.None? then options[0]
    else
      match Find(options, v.value)
      case Some(o) => o
      case None => options[0]
  }

  /** The option values are pairwise distinct. */
  predicate DistinctValues<T(==)>(options: seq<SelectOption<T>>) {
    forall i, j :: 0 <= i < j < |options| ==> options[i].value != options[j].value
  }

  /** With distinct values, looking up the value of an offered option finds that very option. */
  lemma FindOrFirstOfOffered<T>(options: seq<SelectOption<T>>, o: SelectOption<T>)
    requires DistinctValues(options) && o in options
    ensures FindOrFirst(options, Some(o.value)) == o
  {
    var k :| 0 <= k < |options| && options[k] == o;
    var r := FindOrFirst(options, Some(o.value));
    var i := FirstIndexOf(options, o.value);
    assert i <= k;
    assert options[i].value == o.value;
    assert i == k;
  }
}
