/** The failure kinds of the session engine (the `Error` enum of src/docker.rs). */
module Errors {
  import opened Ints

  /** An underlying engine, I/O or formatting error, known only by its description. */
  datatype Fault = Fault(description: string)

  datatype Error =
    | Connection(cause: Fault)
    | NotConnected
    | ImageCreate(cause: Fault)
    | ContainerCreate(cause: Fault)
    | ContainerStart(cause: Fault)
    | ExecCreate(cause: Fault)
    | ExecStart(cause: Fault)
    | ExpectedAttached
    | TerminalSize(cause: Fault)
    | ExecResize(cause: Fault)
    | ExecInspect(cause: Fault)
    | Rawmode(cause: Fault)
    | StdoutWrite(cause: Fault)
    | StdoutFmtWrite(cause: Fault)
    | StdoutFlush(cause: Fault)
    | ContainerDelete(cause: Fault)
    | GetCWD(cause: Fault)
    | PackageDNE(package: string)
    | PackageInstall(status: I64, diagnostic: string)
    | SystemUpdate(status: I64, diagnostic: string)
    | ChaoticAUR(status: I64, diagnostic: string)
    | Landware(status: I64)
    | Pkgfile(status: I64)
    | HomeDir
    | OpenHistory(cause: Fault)
    | Tar(cause: Fault)
    | ContainerUpload(cause: Fault)
}
