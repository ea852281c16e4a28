/**
 * The error values of package main (els_cli.go:40-45, config.go:14-16), plus
 * the errors that pass through from collaborators outside the model.
 */
module Errors {

  datatype Error =
    | NoContent            // ErrNoContent: nothing to read from the pipe
    | InvalidOutput        // ErrInvalidOutput: declared, never returned by the core
    | APIUnreachable       // ErrAPIUnreachable: the transport gave no response
    | UnexpectedResponse   // ErrUnexpectedResponse: a report page was not 200
    | ProfileNotFound      // ErrProfileNotFound (config.go)
    | NilDereference       // not a Go error value: the panic on a nil *http.Response or nil body
    | External(message: string)  // an error from the file system, a reader, JSON or TOML

  /** The errors a Go function returns; a panic is never one of them. */
  type GoError = e: Error | !e.NilDereference? witness NoContent
}
