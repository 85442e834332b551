/** Failure-carrying values shared by the whole model. A JavaScript `throw`
    of an `Error` becomes `Err(message)`; `null`/`undefined` becomes `None`. */
module Wrappers {

  datatype Option<+T> = None | Some(value: T)

  /** The outcome of a call that either returns a value or throws an Error with a message. */
  datatype Result<+T> = Ok(value: T) | Err(message: string)

  /** The outcome of a call whose only interesting effect is that it completes or throws. */
  datatype Completion = Done | Threw(message: string)

  /** `Promise.all` over calls that have all been made: the values in order
      when every call succeeded, otherwise the error of the first failing call
      in list order (which failure settles first in time is not modelled). */
  function All<T>(rs: seq<Result<T>>): (r: Result<seq<T>>)
    ensures r.Ok? <==> forall i :: 0 <= i < |rs| ==> rs[i].Ok?
    ensures r.Ok? ==> |r.value| == |rs| && forall i :: 0 <= i < |rs| ==> rs[i] == Ok(r.value[i])
    ensures r.Err? ==> exists i :: 0 <= i < |rs| && rs[i] == Err(r.message) && forall j :: 0 <= j < i ==> rs[j].Ok?
  {
    if |rs| == 0 then Ok([])
    else
      match rs[0]
      case Err(e) => Err(e)
      case Ok(v) =>
        match All(rs[1..])
        case Err(e) =>
          var r: Result<seq<T>> := Err(e);
          assert exists i :: 1 <= i < |rs| && rs[i] == Err(e) && forall j :: 1 <= j < i ==> rs[j].Ok?;
          r
        case Ok(vs) => Ok([v] + vs)
  }
}
