/** The messages and records of protos/hotstuff.proto, and the ideal signature
    scheme that stands for api.Signer and api.Verifier. */
module Types {

  newtype byte = x: int | 0 <= x < 256

  type Bytes = seq<byte>

  /** A block hash. The hash function itself is a parameter of the model. */
  type Hash = Bytes

  type ReplicaId = int

  datatype Option<+T> = None | Some(value: T)

  /** A signature names the key that made it and the bytes it covers. */
  datatype Signature = Signature(signer: ReplicaId, digest: Bytes)

  /** The verifier of replica `id` accepts exactly what `id` signed. */
  predicate SignatureVerifies(id: ReplicaId, signature: Signature, digest: Bytes) {
    signature == Signature(id, digest)
  }

  datatype PartCert = PartCert(replicaId: ReplicaId, signature: Signature)

  datatype QuorumCert = QuorumCert(viewNumber: int, blockHash: Hash, signs: map<ReplicaId, PartCert>)

  datatype Block = Block(
    parentHash: Hash,
    cmds: Bytes,
    proposer: ReplicaId,
    height: int,
    timestamp: int,
    justify: Option<QuorumCert>,
    selfQc: QuorumCert)

  datatype Proposal = Proposal(viewNumber: int, block: Block)

  datatype Vote = Vote(viewNumber: int, voter: ReplicaId, blockHash: Hash, cert: PartCert)

  datatype NewView = NewView(viewNumber: int, genericQc: QuorumCert)

  /** N replicas, of which F may be faulty. */
  datatype ConfigMetadata = ConfigMetadata(n: int, f: int)

  /** What a replica knows about itself and the others. `replicas` are the ids that have
      a verifier in ReplicaConf; `digest` is the hash function (SHA-256 in the program). */
  datatype Env = Env(id: ReplicaId, metadata: ConfigMetadata, replicas: set<ReplicaId>, digest: Bytes -> Hash)

  /** Some element of a non-empty set, as when a program ranges over a map. */
  method Pick<T(==)>(s: set<T>) returns (x: T)
    requires s != {}
    ensures x in s
  {
    x :| x in s;
  }
}
