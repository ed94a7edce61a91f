/** The requests the client library sends to the server. */
module Requests {
  import opened Types

  /** One constructor per request the client library prints. */
  datatype Request =
    | Consent(tid: Tid, path: Path, source: string)
    | Close(tid: Tid, path: Path)
    | Create(tid: Tid, fd: Int32, path: Path)
    | ExitGroup(tid: Tid)
    | HandshakeNamed(tid: Tid, pid: Int32, app: string)
    | HandshakeAnonymous(tid: Tid, pid: Int32)
    | Open(tid: Tid, fd: Int32, path: Path)
    | Read(path: Path, tid: Tid, fd: Int32, end: U64)
    | Rename(tid: Tid, old_path: Path, new_path: Path)
    | Write(tid: Tid, fd: Int32, path: Path, size: U64)
  {
    /** The client sends the request and then waits for one response. */
    predicate Blocking() { Consent? || Open? || Read? }

    predicate Handshake() { HandshakeNamed? || HandshakeAnonymous? }
  }
}
