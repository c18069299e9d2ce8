/** What the pages receive from the outside and show back: the outcome of a Firebase
    call (an auth account or a document id on success, an error code on failure) and
    the snackbar notice the page enqueues. */
module Effects {
  import opened Js

  /** A call that yields an id (a uid, an added document's id) or fails with an
      error whose `code` may be missing. */
  datatype Attempt = Done(id: string) | Failed(code: Option<string>)

  /** `enqueueSnackbar(text, { variant })`: only "error" versus any other variant
      matters here. */
  datatype Notice = Notice(text: string, isError: bool)
}
