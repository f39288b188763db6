// The services on servers, tokens and accounts (src/backend/services/). `at` stands for the clock, `Secret.iv` for the
// random IV of an encryption, and the functions passed in for the answers of the WHM server.
module Services {
  import opened Json
  import opened Crypto
  import opened Store
  import Whm

  datatype ServiceError =
    | NotFound(entity: string)
    | NoActiveToken
    | Conflict
    | UniqueKeyViolated   // by the driver, not by the service
    | Undecryptable(cause: CryptoError)
    | WhmFailed(error: Whm.ExtError)
    | SyncFailed(message: string)   // whatever a sync rethrows, known by the message it stores
    | Crashed

  datatype Result<+T> = Success(value: T) | Failure(error: ServiceError)

  predicate SameState(a: ServerRow, b: ServerRow) {
    a.status == b.status && a.lastCheckedAt == b.lastCheckedAt
  }

  // A step that checks no server and uses no token.
  ghost predicate Quiet(s: Store, s': Store) {
    && (forall i :: i in s'.tokens ==>
        if i in s.tokens then s'.tokens[i].lastUsedAt == s.tokens[i].lastUsedAt else s'.tokens[i].lastUsedAt == None)
    && (forall i :: i in s.tokens ==> i in s'.tokens && s'.tokens[i].serverId == s.tokens[i].serverId)
    && (forall id :: id in s'.servers ==>
        if id in s.servers then SameState(s'.servers[id], s.servers[id]) else s'.servers[id].status == INACTIVE)
  }

  lemma QuietReflexive(s: Store)
    ensures Quiet(s, s)
  {
  }
}
