/** Option and Result values, and the failures the pipeline can raise. */
module Outcomes {

  datatype Option<+T> = None | Some(value: T)

  datatype Result<+T> = Ok(value: T) | Err(error: Error) {
    predicate IsFailure() { Err? }

    function PropagateFailure<U>(): Result<U>
      requires Err?
    {
      Err(error)
    }

    function Extract(): T
      requires Ok?
    {
      value
    }
  }

  /** What the Python code raises, by cause. */
  datatype Error =
    | NoResultsFound              // `ValueError("No 'Results' folders found.")`
    | InvalidNumber(text: string) // `int(...)` on a folder suffix that is not a number
    | MissingColumn(name: string) // `KeyError` when a selected column or row label is absent
    | UnboundBins                 // `cat_bins` never assigned because `bin_type` was neither "elec" nor "h2"
    | UnboundName(name: string)   // `cleaned_string` / `result_string` used before any assignment
    | NoMatchingRow(key: string)  // `.values[0]` on an empty selection (`IndexError`)

  /** `[f(x) for x in xs]` (or `series.apply(f)`) where `f` may raise: applies
      `f` to every element in order and stops at the first failure, which is
      what the whole expression raises. */
  function MapResults<A, B>(f: A -> Result<B>, xs: seq<A>): (r: Result<seq<B>>)
    ensures r.Ok? <==> forall i :: 0 <= i < |xs| ==> f(xs[i]).Ok?
    ensures r.Ok? ==> |r.value| == |xs| && forall i :: 0 <= i < |xs| ==> f(xs[i]) == Ok(r.value[i])
    ensures r.Err? ==> exists i :: 0 <= i < |xs| && f(xs[i]) == Err(r.error) &&
                                   forall k :: 0 <= k < i ==> f(xs[k]).Ok?
  {
    if xs == [] then Ok([])
    else match f(xs[0])
      case Err(e) => Err(e)
      case Ok(c) =>
        match MapResults(f, xs[1..])
        case Err(e) => Err(e)
        case Ok(cs) => Ok([c] + cs)
  }
}
