/**
  The response handling of `fetch_tmdb`: how one HTTP reply from the metadata
  service is reduced to the list of raw result items. A body that is not JSON,
  a status other than 200, or a reply without a `results` field all degrade to
  the empty list; otherwise the `results` field is returned as it is. Bodies
  that decode to something other than a JSON object reach Python operations
  that only dicts support, and the exception that raises is part of the model.
*/
module Fetch {
  import opened Wrappers
  import opened Json

  const OkStatus := 200
  const ResultsField := "results"

  /** One HTTP reply: its status code and its body decoded as JSON, `None` when it does not decode. */
  datatype Response = Response(status: int, body: Option<Value>)

  /** The empty result list every degraded reply turns into. */
  const NoResults := Arr([])

  /** The value `fetch_tmdb` returns for reply `res`, or the exception it raises. */
  function Results(res: Response): (r: Result<Value, Fault>)
    ensures res.body.None? ==> r == Success(NoResults)
    ensures res.body.Some? && res.body.value.Obj? ==>
              var m := res.body.value.fields;
              r == Success(if res.status == OkStatus && ResultsField in m then m[ResultsField] else NoResults)
    ensures res.body.Some? && !res.body.value.Obj? ==> r.Failure? || r == Success(NoResults)
  {
    match res.body
    case None => Success(NoResults)
    case Some(data) =>
      if res.status != OkStatus then
        // the error report reads `data.get('status_message')`
        match GetAttr(data, "status_message")
        case Failure(e) => Failure(e)
        case Success(_) => Success(NoResults)
      else
        match Contains(data, ResultsField)
        case Failure(e) => Failure(e)
        case Success(present) =>
          if !present then Success(NoResults) else Subscript(data, ResultsField)
  }

  /** Only a 200 reply whose body is an object holding `results` yields anything but `[]`. */
  lemma NonEmptyResultsComeFromResultsField(res: Response)
    requires Results(res).Success? && Results(res).value != NoResults
    ensures res.status == OkStatus
    ensures res.body.Some? && res.body.value.Obj? && ResultsField in res.body.value.fields
    ensures Results(res).value == res.body.value.fields[ResultsField]
  {
  }

  /**
    A reply raises exactly when its body decodes to something other than an
    object and Python then reaches a dict-only operation on it: `.get` for an
    error status, `in` on a number, boolean or null, or subscription of a list
    or string that does contain `"results"`.
  */
  lemma ResultsFailsIff(res: Response)
    ensures Results(res).Failure? <==>
              res.body.Some? && !res.body.value.Obj? &&
              (res.status != OkStatus
               || !(res.body.value.Arr? || res.body.value.Str?)
               || Contains(res.body.value, ResultsField) == Success(true))
  {
  }
}
