/** The service instances registered for the application's hosts. */
module Naming {
  import opened Types

  /** The instance weight; the source always sends 1.0. */
  datatype Weight = One

  datatype ServiceInstance = ServiceInstance(ip: string, port: I32, weight: Weight)

  /**
   * `batch` is the registration batch for `app`: one instance per host, in
   * host order, each on the application's port with weight 1.0.
   */
  predicate IsBatchFor(batch: seq<ServiceInstance>, app: Application) {
    && |batch| == |app.hosts|
    && forall i :: 0 <= i < |batch| ==>
         batch[i].ip == app.hosts[i] && batch[i].port == app.port && batch[i].weight == One
  }

  /** The ip addresses of a batch, in order. */
  function Ips(batch: seq<ServiceInstance>): (ips: seq<string>)
    ensures |ips| == |batch|
    ensures forall i :: 0 <= i < |batch| ==> ips[i] == batch[i].ip
  {
    if batch == [] then [] else [batch[0].ip] + Ips(batch[1..])
  }

  /** The loop that pushes one instance per host onto the batch. */
  method BuildInstances(app: Application) returns (batch: seq<ServiceInstance>)
    ensures IsBatchFor(batch, app)
  {
    batch := [];
    var i := 0;
    while i < |app.hosts|
      invariant 0 <= i <= |app.hosts|
      invariant |batch| == i
      invariant forall j :: 0 <= j < i ==>
                  batch[j].ip == app.hosts[j] && batch[j].port == app.port && batch[j].weight == One
    {
      var instance := ServiceInstance(app.hosts[i], app.port, One);
      batch := batch + [instance];
      i := i + 1;
    }
  }

  /** A batch determines the hosts back: its ip list is the host list. */
  lemma BatchRecoversHosts(batch: seq<ServiceInstance>, app: Application)
    requires IsBatchFor(batch, app)
    ensures Ips(batch) == app.hosts
  {
  }

  /** The batch for an application is unique: the loop has no choice to make. */
  lemma BatchUnique(b1: seq<ServiceInstance>, b2: seq<ServiceInstance>, app: Application)
    requires IsBatchFor(b1, app) && IsBatchFor(b2, app)
    ensures b1 == b2
  {
  }

  /** Two hosts on port 8080 give exactly two instances, in host order. */
  lemma TwoHostBatch(batch: seq<ServiceInstance>, app: Application)
    requires app.hosts == ["10.0.0.1", "10.0.0.2"] && app.port == 8080
    requires IsBatchFor(batch, app)
    ensures batch == [ServiceInstance("10.0.0.1", 8080, One), ServiceInstance("10.0.0.2", 8080, One)]
  {
    assert batch[0] == ServiceInstance("10.0.0.1", 8080, One);
    assert batch[1] == ServiceInstance("10.0.0.2", 8080, One);
  }
}
