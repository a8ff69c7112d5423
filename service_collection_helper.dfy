/** The facade's first-match lookup of a service's registration. */
module ServiceCollectionHelper {
  import opened Types
  import opened DependencyInjection

  /**
   * `services.FindServiceDescriptor<TService>()`: the first registration of
   * `serviceType`, in collection order; InvalidOperationException when there
   * is none. The collection is a value here, so it cannot change.
   */
  function FindServiceDescriptor(services: seq<Descriptor>, serviceType: Ty): (r: Result<Descriptor>)
    ensures r.Ok? ==> r.value.serviceType == serviceType
    ensures r.Ok? ==> exists i :: 0 <= i < |services| && services[i] == r.value
                               && forall j :: 0 <= j < i ==> services[j].serviceType != serviceType
    ensures r.Err? <==> forall d :: d in services ==> d.serviceType != serviceType
    ensures r.Err? ==> r.failure == InvalidOperation
  {
    First(services, OfServiceType(serviceType))
  }
}
