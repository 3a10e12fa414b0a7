/** Values shared by the model of the candidate deployment protocol of one application.

    Identifiers that the server derives by SHA-256 (recovery, bootstrap and deletion operation IDs,
    candidate generations) are constructors here, so they are injective and never collide. */
module Types {
  datatype Option<+T> = None | Some(value: T)

  /** A client-chosen request ID (64 hexadecimal digits in the program). */
  type Req = nat

  /** The canonical desired state of a hosted, stateless application. */
  datatype Config = Config(image: nat, port: nat, domain: Option<nat>)

  datatype Outcome = Applied | Withdrawn

  /** The value of the Service's activation-operation annotation. */
  datatype Op =
    | Unset
    | ByRequest(r: Req)
    | ByRecovery(r: Req)
    | ByBootstrap(r: Req)
    | ByDeletion(appId: nat)

  /** What the Service selects: the legacy workload, one candidate generation, or an
      explicit "inactive-" label derived from an operation ID, which matches no pod. */
  datatype Selector = Legacy | Candidate(r: Req) | Inactive(owner: Op)

  /** Selector and port, always replaced together. */
  datatype Target = Target(sel: Selector, port: nat)

  /** The compare-and-swap token of the application's Service. */
  datatype Gate = Gate(uid: nat, rv: nat, op: Op)

  /** The stable Service. `initial` is the bootstrap request annotation and `deleting` the
      pair of deletion annotations, which carry the application ID. */
  datatype Service = Service(
    uid: nat, rv: nat, op: Op, target: Target, initial: Option<Req>, deleting: Option<nat>)

  function GateOf(v: Service): Gate {
    Gate(v.uid, v.rv, v.op)
  }

  function CandidateTarget(r: Req, cfg: Config): Target {
    Target(Candidate(r), cfg.port)
  }

  function InactiveTarget(r: Req, cfg: Config): Target {
    Target(Inactive(ByRequest(r)), cfg.port)
  }

  function DeletionTarget(appId: nat, cfg: Config): Target {
    Target(Inactive(ByDeletion(appId)), cfg.port)
  }
}
