/** The backend record shared by routing, reconcile and the connection lifecycle. */
module Backends {

  datatype Health = Healthy | Unhealthy | Draining

  /** The identity of a backend object. */
  type NodeId(==, !new)

  /** One `BackendNode`. A node that is removed and added again later gets a new one. */
  datatype Backend = Backend(id: NodeId, host: string, port: nat, weight: nat, health: Health, active: nat) {

    function Key(): (string, nat) {
      (host, port)
    }

    /** `increment_connections` */
    function Incremented(): Backend {
      this.(active := active + 1)
    }

    /** `decrement_connections`, which stops at zero. */
    function Decremented(): Backend {
      if active > 0 then this.(active := active - 1) else this
    }

    /** What `select_backend` accepts: healthy, and below the cap unless the cap is 0. */
    predicate Eligible(cap: nat) {
      health.Healthy? && (cap == 0 || active < cap)
    }
  }
}
