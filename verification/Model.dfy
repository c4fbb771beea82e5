/** The vocabulary shared by every component: what a global service is made of. */
module Model {

  datatype Option<+T> = None | Some(value: T) {
    function GetOr(default: T): T {
      if Some? then value else default
    }
  }

  datatype Key = Key(namespace: string, name: string)

  datatype ServiceType = ClusterIP | Headless

  datatype Port = Port(name: string, number: int, protocol: string, appProtocol: Option<string>)

  datatype ObjectRef = ObjectRef(kind: string, namespace: string, name: string)

  datatype Endpoint = Endpoint(
    addresses: seq<string>, hostname: Option<string>, targetRef: Option<ObjectRef>,
    cluster: string, zone: string, region: string)

  datatype Spec = Spec(kind: ServiceType, ports: seq<Port>, endpoints: seq<Endpoint>)

  const KEY_CREATED_BY := "fabedge.io/created-by"
  const KEY_ORIGIN_RESOURCE_VERSION := "fabedge.io/origin-resource-version"
  const APP_SERVICE_HUB := "service-hub"

  /** Name, zone and region of a cluster. */
  datatype ClusterInfo = ClusterInfo(name: string, zone: string, region: string)
}
