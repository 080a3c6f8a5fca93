/** The error normalisation of the user API client: each of its three
    operations turns a failed HTTP call into a thrown `{status, message,
    errors}` object, in the same way. */
module ApiErrors {
  import opened Wrappers
  import opened Text

  /** The parsed body of an error response; `errors` is opaque. */
  datatype Body<E> = Body(message: Option<string>, errors: Option<E>)

  /** `error.response`; `data` is `None` for a `null` or `undefined` body. */
  datatype RawResponse<E> = RawResponse(status: int, data: Option<Body<E>>)

  /** The error the HTTP client rejects with. */
  datatype ClientError<E> = ClientError(response: Option<RawResponse<E>>, message: Option<string>)

  /** The object the API client throws. */
  datatype ApiError<E> = ApiError(status: int, message: string, errors: Option<E>)

  /** What leaves the catch block: the normalised error, or the `TypeError`
      JavaScript raises when it reads `message` off a missing body. */
  datatype Thrown<E> = Normalised(error: ApiError<E>) | BodyMissing

  /** The three operations of the user API client. */
  datatype Operation = GetAllUsers | GetUsersStats | UploadAvatar

  /** Each operation's message for a response without one. */
  function DefaultMessage(op: Operation): string {
    match op
    case GetAllUsers => "Không thể lấy danh sách người dùng"
    case GetUsersStats => "Không thể lấy thống kê người dùng"
    case UploadAvatar => "Không thể tải lên ảnh đại diện"
  }

  /** The message for a failure that never reached the server. */
  const ServerFailure := "Lỗi máy chủ nội bộ"

  /** The catch block of an operation. */
  function Normalise<E>(op: Operation, err: ClientError<E>): (t: Thrown<E>)
    ensures t == BodyMissing <==> err.response.Some? && err.response.value.data.None?
    ensures t.Normalised? && err.response.Some? ==>
      && t.error.status == err.response.value.status
      && t.error.message == (if Truthy(err.response.value.data.value.message)
                             then err.response.value.data.value.message.value
                             else DefaultMessage(op))
      && t.error.errors == err.response.value.data.value.errors
    ensures err.response.None? ==>
      && t.Normalised?
      && t.error.status == 500
      && t.error.message == (if Truthy(err.message) then err.message.value else ServerFailure)
      && t.error.errors == None
    ensures t.Normalised? ==> t.error.message != ""
  {
    match err.response
    case Some(resp) =>
      if resp.data.None? then BodyMissing
      else Normalised(ApiError(resp.status, OrElse(resp.data.value.message, DefaultMessage(op)), resp.data.value.errors))
    case None =>
      Normalised(ApiError(500, OrElse(err.message, ServerFailure), None))
  }

  /** The three operations agree except on the default message, which shows
      only when a response carries no message of its own. */
  lemma OperationsDifferOnlyInDefault<E>(op1: Operation, op2: Operation, err: ClientError<E>)
    ensures Normalise(op1, err).Normalised? == Normalise(op2, err).Normalised?
    ensures Normalise(op1, err).Normalised? ==>
      && Normalise(op1, err).error.status == Normalise(op2, err).error.status
      && Normalise(op1, err).error.errors == Normalise(op2, err).error.errors
    ensures (err.response.None? || (err.response.value.data.Some? && Truthy(err.response.value.data.value.message)))
      ==> Normalise(op1, err) == Normalise(op2, err)
    ensures err.response.Some? && err.response.value.data.Some? && !Truthy(err.response.value.data.value.message) && op1 != op2
      ==> Normalise(op1, err) != Normalise(op2, err)
  {
  }
}
