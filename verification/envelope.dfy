/**
 * The response envelope `Result<T>` ({code, msg, data}) with its factories,
 * and the numeric status codes of `AppCodeConstant` and `AppStatusEnum`.
 */
module Envelope {
  import opened Common

  // AppCodeConstant
  const SuccessCode: int := 200
  const ClientErrorCode: int := 400

  // AppStatusEnum entries the authentication core uses
  const StatusUnauthorized: int := 401
  const StatusTokenExpired: int := 407
  const TokenExpiredMessage: string := "Token已过期"

  /** `Result<T>`: a status code, a message and a payload that may be null. */
  datatype Result<T> = Result(code: int, msg: string, data: Option<T>)

  /** `new Result<>(code, msg, data)` */
  function NewResult<T>(code: int, msg: string, data: Option<T>): (r: Result<T>)
    ensures r.code == code && r.msg == msg && r.data == data
  {
    Result(code, msg, data)
  }

  /** `Result.success(data)` */
  function SuccessWith<T>(data: T): (r: Result<T>)
    ensures r.code == 200 && r.msg == "success" && r.data == Some(data)
  {
    NewResult(SuccessCode, "success", Some(data))
  }

  /** `Result.success()` */
  function SuccessEmpty<T>(): (r: Result<T>)
    ensures r.code == 200 && r.msg == "success" && r.data == None
  {
    NewResult(200, "success", None)
  }

  /** `Result.fail(code, msg)` */
  function Fail<T>(code: int, msg: string): (r: Result<T>)
    ensures r.code == code && r.msg == msg && r.data == None
  {
    NewResult(code, msg, None)
  }

  /** `Result.clientFail()` */
  function ClientFail<T>(): (r: Result<T>)
    ensures r.code == 400 && r.msg == "client_fail" && r.data == None
  {
    NewResult(ClientErrorCode, "client_fail", None)
  }
}
