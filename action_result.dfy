/** The tri-state outcome of running an action (actions/ActionResult.java). */
module ActionResults {
  import opened Wrappers
  import opened Values

  datatype Status = Success | Failure | Skipped

  /** An immutable result: a status, an optional message and optional data. */
  datatype ActionResult = ActionResult(status: Status, message: Option<string>, data: Option<Value>) {
    predicate IsSuccess() { status == Success }
    predicate IsFailure() { status == Failure }
    predicate IsSkipped() { status == Skipped }
  }

  /** ActionResult.success(). */
  function Succeeded(): (r: ActionResult)
    ensures r.IsSuccess() && r.message.None? && r.data.None?
  {
    ActionResult(Success, None, None)
  }

  /** ActionResult.success(String). */
  function SucceededWith(message: string): (r: ActionResult)
    ensures r.IsSuccess() && r.message == Some(message) && r.data.None?
  {
    ActionResult(Success, Some(message), None)
  }

  /** ActionResult.success(Object). */
  function SucceededWithData(data: Value): (r: ActionResult)
    ensures r.IsSuccess() && r.message.None? && r.data == Some(data)
  {
    ActionResult(Success, None, Some(data))
  }

  /** ActionResult.success(String, Object). */
  function SucceededWithBoth(message: string, data: Value): (r: ActionResult)
    ensures r.IsSuccess() && r.message == Some(message) && r.data == Some(data)
  {
    ActionResult(Success, Some(message), Some(data))
  }

  /** ActionResult.failure(String). */
  function Failed(message: string): (r: ActionResult)
    ensures r.IsFailure() && r.message == Some(message) && r.data.None?
  {
    ActionResult(Failure, Some(message), None)
  }

  /** ActionResult.skipped(String). */
  function Skip(reason: string): (r: ActionResult)
    ensures r.IsSkipped() && r.message == Some(reason) && r.data.None?
  {
    ActionResult(Skipped, Some(reason), None)
  }

  /** Every result answers exactly one of isSuccess, isFailure and isSkipped. */
  lemma ExactlyOneStatus(r: ActionResult)
    ensures r.IsSuccess() || r.IsFailure() || r.IsSkipped()
    ensures !(r.IsSuccess() && r.IsFailure())
    ensures !(r.IsSuccess() && r.IsSkipped())
    ensures !(r.IsFailure() && r.IsSkipped())
  {
  }
}
