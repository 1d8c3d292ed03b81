/** FeatureResponse (core/types.py): a frozen data-or-error wrapper. The
    subset type encodes the check of __post_init__, so no value of it ever
    holds both data and an error; Dafny values are immutable, as the frozen
    dataclass is. */
module Types {
  import opened Values
  import opened Errors

  datatype ResponseFields<T> = ResponseFields(data: Option<T>, error: Option<AxisError>) {
    /** is_success: the error slot is empty. */
    predicate IsSuccess() {
      error.None?
    }
  }

  type FeatureResponse<T> = r: ResponseFields<T> | !(r.data.Some? && r.error.Some?)
    witness ResponseFields(None, None)

  const BothSetMessage := "FeatureResponse cannot have both data and error"

  /** The dataclass constructor with __post_init__: refuses data together with an error. */
  function New<T>(data: Option<T>, error: Option<AxisError>): (r: Result<FeatureResponse<T>, string>)
    ensures r.Success? <==> !(data.Some? && error.Some?)
    ensures r.Success? ==> r.value.data == data && r.value.error == error
    ensures r.Failure? ==> r.error == BothSetMessage
  {
    if data.Some? && error.Some? then Failure(BothSetMessage)
    else Success(ResponseFields(data, error))
  }

  /** FeatureResponse.ok(data): built through the constructor, which cannot refuse it. */
  function Ok<T>(data: Option<T>): (r: FeatureResponse<T>)
    ensures r.IsSuccess() && r.data == data && r.error.None?
  {
    New(data, None).value
  }

  /** FeatureResponse.create_error(error). */
  function CreateError<T>(error: AxisError): (r: FeatureResponse<T>)
    ensures !r.IsSuccess() && r.error == Some(error) && r.data.None?
  {
    New(None, Some(error)).value
  }

  /** ok(None) holds neither data nor error and is still a success. */
  lemma OkNoneIsEmptySuccess<T>()
    ensures var r: FeatureResponse<T> := Ok(None); r.IsSuccess() && r.data.None? && r.error.None?
  {
  }

  /** Success and failure are told apart by the error slot alone; a failure carries no data. */
  lemma SuccessExactlyWithoutError<T>(r: FeatureResponse<T>)
    ensures r.IsSuccess() <==> r.error.None?
    ensures !r.IsSuccess() ==> r.data.None?
  {
  }
}
