// Small datatypes shared by the modules of this project.

module Common {

  datatype Option<+T> = None | Some(value: T)

  // Error codes of internal/runtimeerr and agentcore that the modelled paths can return.
  datatype Code =
    | ConnectionFailed
    | Disconnected
    | JetStreamFailed
    | KVStoreFailed
    | KVReadFailed
    | ConfigNotFound
    | EncodeFailed
    | DecodeFailed
    | PublishFailed
    | SubscribeFailed
    | RegistryConflict
    | Shutdown
    | Validation

  // The (value, error) pairs of the source.
  datatype Result<+T> = Ok(value: T) | Err(code: Code)
}
