/** Values the controllers exchange: result messages, HTTP replies,
    the autoscaling verdict and the orchestration report of a signaling server. */
module Models {
  import opened CSharp

  // Result messages. The web API (Models/ApiResultMessages.cs) and the
  // function app (Models/ApiResultMessages.cs) define the shared ones with
  // identical text, so each is declared once here.

  const SuccessMessage: string := "All tasks reached state Completed"
  const FailureMessage: string := "One or more tasks failed to reach the Completed state within the timeout period"
  const WarningNoAutoscaling: string := "Auto scaling is not enabled"
  const ErrorBodyIsEmpty: string := "A json body is required"
  const ErrorTurnServerInvalid: string := "The TURN server nodes are in an invalid state. Please check the batch client for errors."
  const ErrorToCreateTurnPool: string := "Creating a TURN pool was not successful. Please check the batch client for errors."
  const ErrorToCreateRenderingPool: string := "Creating a rendering pool was not successful. Please check the batch client for errors."
  const ErrorRenderingPoolExists: string := "The rendering pool id already exists, use a different id."
  const ErrorNoSignalingFound: string := "Signaling is required"
  const ErrorPoolIdNotFound: string := "The specified poolId does not exist in the batch client"
  const ErrorPoolIdRequired: string := "poolId is required for delete"
  const ErrorOneDedicatedNodeRequired: string := "Pools must have at least one dedicated node"
  const ErrorOneMaxUserRequired: string := "Rendering nodes must have at least one max user"

  /** The message the pool web app answers when the TURN job's tasks fail. */
  const LinuxTasksFailed: string := "Linux tasks failed!"

  /** The error messages a configuration or body check can produce; none is blank. */
  predicate IsValidationMessage(m: string) {
    m == ErrorNoSignalingFound || m == ErrorOneDedicatedNodeRequired || m == ErrorOneMaxUserRequired
  }

  /** The HTTP status codes the controllers answer with. */
  datatype Status = StatusOK | StatusBadRequest | StatusInternalServerError

  /** What a controller action produces: a response, or an exception that escapes it
      (which the host turns into a 500 of its own). */
  datatype Reply =
    | Reply(status: Status, message: Option<string>)
    | Faulted(exception: Exception)

  function Ok(): Reply {
    Reply(StatusOK, None)
  }

  function Bad(message: string): Reply {
    Reply(StatusBadRequest, Some(message))
  }

  function ServerError(message: string): Reply {
    Reply(StatusInternalServerError, Some(message))
  }

  /** The verdict of the autoscaling evaluation. */
  datatype AutoscalingStatus =
    | UpscaleRenderingPool
    | DownscaleRenderingPool
    | UpscaleTurnPool
    | DownscaleTurnPool
    | OK
    | NotEnabled

  /** One signaling-server report of a connected rendering server. */
  datatype ConnectedServer = ConnectedServer(slots: int, ip: string)
}
