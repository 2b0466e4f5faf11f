/**
 * The request hooks of the web view (src/hooks/useApi.ts). `useChat`,
 * `useFileUpload` and `useTrainSoul` share one shape: a guard on the owner and
 * soul ids, a loading flag held around the call, and an error message on
 * failure; they differ only in the call and in the fallback message.
 * `useHealth` also keeps whether the last health check said "ok".
 *
 * Each call is one atomic method; `call` is what the client call resolved or
 * rejected with.
 */
module UseApi {
  import opened Common

  const IdsRequiredMessage: string := "Owner ID and Soul ID are required"
  const SendFailedMessage: string := "Failed to send message"
  const UploadFailedMessage: string := "Failed to upload files"
  const TrainFailedMessage: string := "Failed to train soul"
  const HealthFailedMessage: string := "Health check failed"

  /** One of `useChat`, `useFileUpload`, `useTrainSoul`: the hook's state and its fallback message. */
  class ScopedRequest {
    var isLoading: bool
    var error: Option<string>
    const fallback: string

    /** `useChat(ownerId, soulId)` */
    constructor Chat()
      ensures !isLoading && error == None && fallback == SendFailedMessage
    {
      isLoading, error := false, None;
      fallback := SendFailedMessage;
    }

    /** `useFileUpload(ownerId, soulId)` */
    constructor Upload()
      ensures !isLoading && error == None && fallback == UploadFailedMessage
    {
      isLoading, error := false, None;
      fallback := UploadFailedMessage;
    }

    /** `useTrainSoul(ownerId, soulId)` */
    constructor Train()
      ensures !isLoading && error == None && fallback == TrainFailedMessage
    {
      isLoading, error := false, None;
      fallback := TrainFailedMessage;
    }

    /**
     * `sendMessage` / `uploadFiles` / `trainSoul`. Missing ids: the error is set,
     * nothing is called and the loading flag is left as it was. Otherwise the
     * call's value is returned unchanged, or null with the error message
     * recorded, and loading ends false either way.
     */
    method Run<T>(ownerId: Option<string>, soulId: Option<string>, call: Result<T, Thrown>)
      returns (r: Option<T>, called: bool)
      modifies this
      ensures called <==> Truthy(ownerId) && Truthy(soulId)
      ensures !called ==> r == None && error == Some(IdsRequiredMessage) && isLoading == old(isLoading)
      ensures called && call.Ok? ==> r == Some(call.value) && error == None && !isLoading
      ensures called && call.Err? ==> r == None && error == Some(MessageOr(call.error, fallback)) && !isLoading
    {
      if !Truthy(ownerId) || !Truthy(soulId) {
        error := Some(IdsRequiredMessage);
        return None, false;
      }
      called := true;
      isLoading := true;
      error := None;
      if call.Ok? {
        r := Some(call.value);
      } else {
        error := Some(MessageOr(call.error, fallback));
        r := None;
      }
      isLoading := false;
    }
  }

  /** The body of a `/health` reply that the hook reads. */
  datatype HealthResponse = HealthResponse(status: string)

  /** `useHealth()`; `isHealthy` is null until the first check settles. */
  class Health {
    var isLoading: bool
    var error: Option<string>
    var isHealthy: Option<bool>

    constructor()
      ensures !isLoading && error == None && isHealthy == None
    {
      isLoading, error, isHealthy := false, None, None;
    }

    /** `checkHealth()` */
    method CheckHealth(call: Result<HealthResponse, Thrown>)
      modifies this
      ensures !isLoading
      ensures call.Ok? ==> isHealthy == Some(call.value.status == "ok") && error == None
      ensures call.Err? ==> isHealthy == Some(false) && error == Some(MessageOr(call.error, HealthFailedMessage))
    {
      isLoading := true;
      error := None;
      if call.Ok? {
        isHealthy := Some(call.value.status == "ok");
      } else {
        error := Some(MessageOr(call.error, HealthFailedMessage));
        isHealthy := Some(false);
      }
      isLoading := false;
    }
  }
}
