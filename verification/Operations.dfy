/** The operation a user approves, and the token body that binds it. */
module Operations {
  import opened JsonValue

  /** JSON documents that serve as payloads. Canonical JSON is injective on each
      of these shapes, so the document stands for its bytes. */
  datatype JsonDoc =
    | Document(json: Json)
    | PatchList(ops: string)
    | ReplaceQuantity(poolIndex: nat, size: int)
    | MoveIds(cluster: string, namespace: string, project: string)

  /** Payload bytes: raw bytes (a command line), or JSON text, which is never empty. */
  datatype Payload = Raw(bytes: string) | Json(doc: JsonDoc)

  const NO_PAYLOAD := Raw("")

  /** The operations a plan can name. Each stands for its name in the source, which is
      the key of its dispatch case and the tool its token binds. */
  datatype Tool =
    | CreateResource | PatchResource | DeleteResource | ExecInPod | ScalePool | MoveNs
    | CreateProject | CreateCustomCluster | CreateImportedCluster | CreateK3kCluster

  datatype Operation = Operation(
    tool: Tool, cluster: string, namespace: string, kind: string, name: string, payload: Payload)

  /** SHA-256 as an injective function: the digest names its preimage. */
  datatype Digest = NoDigest | Sha256(preimage: Payload)

  function PayloadHash(payload: Payload): Digest {
    if payload == NO_PAYLOAD then NoDigest else Sha256(payload)
  }

  type Nonce = nat

  datatype TokenBody = TokenBody(
    tool: Tool, cluster: string, namespace: string, kind: string, name: string,
    payloadHash: Digest, nonce: Nonce, expiry: int)

  function Bind(op: Operation, nonce: Nonce, expiry: int): TokenBody {
    TokenBody(op.tool, op.cluster, op.namespace, op.kind, op.name, PayloadHash(op.payload), nonce, expiry)
  }

  predicate Matches(body: TokenBody, op: Operation) {
    body.tool == op.tool && body.cluster == op.cluster && body.namespace == op.namespace &&
    body.kind == op.kind && body.name == op.name && body.payloadHash == PayloadHash(op.payload)
  }

  /** A body matches the operation it was issued for and no other one. */
  lemma MatchesOnlyItsOperation(op: Operation, nonce: Nonce, expiry: int, other: Operation)
    ensures Matches(Bind(op, nonce, expiry), other) <==> op == other
  {
  }
}
