/** A parent that awaits once: `wait_all` and `wait_any`. */
module SingleAwait {
  import opened Handshake

  /** Where the `await_suspend` call is after it stored the handle. */
  datatype Check = NotYet | Checking | Exchanging | Done

  datatype Parent =
    | Running                 // about to call await_ready
    | Storing                 // suspended, about to store its handle
    | Suspended
    | Proceeding(via: Via)    // about to call await_resume
    | Finished

  /** Who let the parent go on: await_ready, a runner, or its own await_suspend. */
  datatype Via = Ready | ByRunner | BySuspender

  function ViaOf(g: Agent): Via {
    if g.RunnerOf? then ByRunner else BySuspender
  }
}
