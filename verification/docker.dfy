/** The container-runtime collaborator, as a trace of the requests made to it. */
module Docker {

  datatype DockerCall =
    | ContainerExists(name: string)
    | ComposeUp(service: string)
    /** A fixed wait of `units` times the CA start delay. */
    | Wait(units: nat)
    /** A recursive ownership change of `path`, through a password-fed or prompting `sudo`. */
    | ChangeOwnership(path: string, withPassword: bool)
    | StopContainer(name: string, force: bool)
    | CreateNetwork(name: string)

  /** The outcome of a start or stop: the boolean reported, running containers, calls made. */
  datatype Lifecycle = Lifecycle(ok: bool, running: set<string>, calls: seq<DockerCall>)

  /** Whether the trace starts a container or service named `name`. */
  predicate Composes(calls: seq<DockerCall>, name: string) {
    exists i :: 0 <= i < |calls| && calls[i] == ComposeUp(name)
  }
}
