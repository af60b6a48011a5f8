/** Structured form of the descriptors the generators write, and their saving. */
module Compose {
  import opened Wrappers
  import opened Topology

  datatype PortMap = PortMap(host: PortValue, container: PortValue) {
    /** The `"<host>:<container>"` text of a port binding. */
    function Render(): string {
      host.Render() + ":" + container.Render()
    }
  }

  datatype EnvVar = EnvVar(name: string, value: string)

  datatype VolumeBinding = VolumeBinding(source: string, target: string) {
    function Render(): string {
      source + ":" + target
    }
  }

  /** One `extra_hosts` entry, rendered `"<host>:<address>"`. */
  datatype ExtraHost = ExtraHost(host: string, address: string) {
    function Render(): string {
      host + ":" + address
    }
  }

  datatype Extends = Extends(file: string, service: string)

  /** One service of a compose file; `key` is its key under `services:`. */
  datatype Service = Service(
    key: string,
    containerName: string,
    image: Option<string>,
    command: Option<string>,
    baseService: Option<Extends>,
    environment: seq<EnvVar>,
    ports: seq<PortMap>,
    volumes: seq<VolumeBinding>,
    extraHosts: seq<ExtraHost>,
    networks: seq<string>)

  /** A compose file: named volumes, external networks and services, in template order. */
  datatype ComposeFile = ComposeFile(
    version: string,
    volumes: seq<string>,
    externalNetworks: seq<string>,
    services: seq<Service>)

  /** The value of environment variable `name`, taking its first occurrence. */
  function EnvValue(env: seq<EnvVar>, name: string): (v: Option<string>)
    ensures v.Some? <==> exists i :: 0 <= i < |env| && env[i].name == name
    ensures v.Some? ==> exists i :: 0 <= i < |env| && env[i] == EnvVar(name, v.value)
  {
    if |env| == 0 then None
    else if env[0].name == name then Some(env[0].value)
    else
      var rest := EnvValue(env[1..], name);
      assert forall i :: 1 <= i < |env| ==> env[i] == env[1..][i - 1];
      rest
  }

  /** Whether some service of the file is declared under `key`. */
  predicate Declares(file: ComposeFile, key: string) {
    exists i :: 0 <= i < |file.services| && file.services[i].key == key
  }

  /** What `save()` of a generator leaves behind: the outcome and the file written. */
  datatype Saved<T> = Saved(ok: bool, written: Option<T>)

  /**
   * A generator's `createTemplate…()`: write the descriptor; report success iff the write
   * succeeded, swallowing the error otherwise.
   */
  function CreateTemplate<T>(descriptor: T, write: Reply<()>): (r: Saved<T>)
    ensures r.ok <==> write.Ok?
    ensures r.ok ==> r.written == Some(descriptor)
    ensures !r.ok ==> r.written == None
  {
    if write.Ok? then Saved(true, Some(descriptor)) else Saved(false, None)
  }
}
