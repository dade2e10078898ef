/** Result types shared by the components of the model. */
module Wrappers {

  datatype Option<+T> = None | Some(value: T)

  datatype Result<+T, +E> = Ok(value: T) | Err(error: E)

  /** The sentinel errors of the document services; CronSyntax is an error of the
      cron parser that wraps none of them, WriteFailed any failure to put the
      store file in place. */
  datatype Fault = NotFound | Exists | InUse | Invalid | CronSyntax | WriteFailed
}
