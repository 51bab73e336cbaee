/**
 * The part of the Kubernetes pod specification that the binding engine reads:
 * the pod's namespace and name, and, per container, the declared ports.
 */
module Api {

  /** Go's `int` on a 64-bit platform, the type of a declared host port. */
  type Int64 = x: int | -0x8000_0000_0000_0000 <= x < 0x8000_0000_0000_0000

  /** One port declaration of a container; host port 0 asks for no host binding. */
  datatype ContainerPort = ContainerPort(containerPort: Int64, hostPort: Int64)

  datatype Container = Container(name: string, ports: seq<ContainerPort>)

  datatype Pod = Pod(namespace: string, name: string, containers: seq<Container>)

  /** The namespace-carrying request context that the pod key is derived from. */
  datatype Context = Context(namespace: string)
}
