/**
 * The registry's record types as the client uses them (the `proto` package
 * of the service registry), reduced to the fields the client reads or sets.
 */
module Proto {

  /** A service identity; `serviceId` is assigned by the registry. */
  datatype MicroService = MicroService(appId: string, serviceId: string, serviceName: string, version: string)

  /** One running instance of a service and the addresses it listens on. */
  datatype Instance = Instance(instanceId: string, serviceId: string, hostName: string, endpoints: seq<string>)

  /** One entry of a heartbeat batch. */
  datatype HeartbeatSetElement = HeartbeatSetElement(serviceId: string, instanceId: string)

  /** A membership change pushed by the registry's watch stream. */
  datatype WatchInstanceResponse = WatchInstanceResponse(action: string, instance: Instance)

  /** The one action that removes an instance; every other action is an upsert. */
  const DELETE: string := "DELETE"

  /** Answer to an existence query: the id of the matching service, if any. */
  datatype GetExistenceResponse = GetExistenceResponse(serviceId: string, schemaId: string, summary: string)

  datatype CreateServiceRequest = CreateServiceRequest(service: MicroService)
  datatype CreateServiceResponse = CreateServiceResponse(serviceId: string)

  datatype GetInstancesResponse = GetInstancesResponse(instances: seq<Instance>)

  datatype RegisterInstanceRequest = RegisterInstanceRequest(instance: Instance)
  datatype RegisterInstanceResponse = RegisterInstanceResponse(instanceId: string)

  datatype HeartbeatSetRequest = HeartbeatSetRequest(instances: seq<HeartbeatSetElement>)
}
