// The database behind the repositories. Every call on it is one the services are allowed to make (`Proper`), so its
// `Valid` carries the whole invariant of the store. A driver error other than a constraint violation is not modelled.
module Database {
  import opened Crypto
  import opened Store

  datatype AuditRecord = AuditRecord(tenantId: string, action: string, entityId: Id, success: bool)

  class Database {
    const prim: Primitives  // the cipher and the codecs, the same for all services of the process
    var store: Store
    var nextId: Id
    ghost var seen: set<(string, Id)>    // the servers each tenant has looked up
    ghost var secrets: SecretTable  // the secret last written for each token

    constructor (prim: Primitives)
      requires Lawful(prim)
      ensures Valid() && this.prim == prim && store == Store(map[], map[], map[])
    {
      this.prim := prim;
      store, nextId := Store(map[], map[], map[]), 0;
      seen, secrets := {}, map[];
    }

    ghost predicate Valid()
      reads this
    {
      && Lawful(prim)
      && IdsBelow(store, nextId)
      && Inv(store, secrets)
      && SeenOwned(store, seen)
      && Local(prim, secrets)
    }

    method NewId() returns (id: Id)
      requires Valid()
      modifies this`nextId
      ensures Valid() && id == old(nextId) < nextId
      ensures id !in store.servers && id !in store.tokens && id !in store.accounts
    {
      id := nextId;
      nextId := nextId + 1;
    }

    method Execute(call: Call) returns (reply: Reply)
      requires Valid() && Proper(store, seen, call)
      requires call.InsertToken? ==> Fits(prim, call.secret)
      requires call.UpdateToken? && call.tokenPatch.secret.Some? ==> Fits(prim, call.tokenPatch.secret.value)
      requires call.InsertServer? || call.InsertToken? || call.InsertAccount? ==> call.id < nextId
      modifies this`store, this`seen, this`secrets
      ensures Valid() && Evolves(old(store), store)
      ensures store == Apply(old(store), call) && reply == Answer(old(store), call)
      ensures seen == old(seen) + Noticed(call, reply)
      ensures secrets == Remember(old(secrets), call, reply)
    {
      ApplyKeepsInv(store, secrets, seen, call);
      ApplyKeepsIds(store, call, nextId);
      RememberLocal(prim, secrets, call, Answer(store, call));
      hide Inv, SeenOwned, Evolves, Proper, Apply, Answer, IdsBelow, Remember, Noticed, Local;
      reply := Answer(store, call);
      store, seen, secrets := Apply(store, call), seen + Noticed(call, reply), Remember(secrets, call, reply);
    }
  }

  // Generated ids are new in every table.
  ghost predicate IdsBelow(s: Store, bound: nat) {
    && (forall i :: i in s.servers ==> i < bound)
    && (forall i :: i in s.tokens ==> i < bound)
    && (forall i :: i in s.accounts ==> i < bound)
  }

  // A secret as a service of this process encrypts it, with an IV of the right length.
  ghost predicate Fits(prim: Primitives, secret: Secret) {
    Sealable(secret) && secret.writer.prim == prim
  }

  ghost predicate Local(prim: Primitives, secrets: SecretTable) {
    forall i :: i in secrets ==> secrets[i].writer.prim == prim
  }

  lemma RememberLocal(prim: Primitives, secrets: SecretTable, call: Call, reply: Reply)
    requires Local(prim, secrets)
    requires call.InsertToken? ==> Fits(prim, call.secret)
    requires call.UpdateToken? && call.tokenPatch.secret.Some? ==> Fits(prim, call.tokenPatch.secret.value)
    ensures Local(prim, Remember(secrets, call, reply))
  {
  }

  lemma ApplyKeepsIds(s: Store, call: Call, bound: nat)
    requires IdsBelow(s, bound)
    requires call.InsertServer? || call.InsertToken? || call.InsertAccount? ==> call.id < bound
    ensures IdsBelow(Apply(s, call), bound)
  {
  }

  // Reading a stored token yields what the reading service makes of the secret last written for it.
  lemma CurrentSecret(db: Database, c: Service, i: Id)
    requires db.Valid() && c.prim == db.prim && i in db.store.tokens
    ensures i in db.secrets &&
            Decrypt(c, db.store.tokens[i].tokenEnc, db.store.tokens[i].keyId) == Opened(c, db.secrets[i])
  {
    StoredOpensAs(c, db.store.tokens[i], db.secrets[i]);
  }

  lemma NextIdFresh(db: Database)
    requires db.Valid()
    ensures db.nextId !in db.store.servers && db.nextId !in db.store.tokens && db.nextId !in db.store.accounts
  {
  }

  class AuditSink {
    var records: seq<AuditRecord>

    constructor ()
      ensures records == []
    {
      records := [];
    }

    method Record(record: AuditRecord)
      modifies this
      ensures records == old(records) + [record]
    {
      records := records + [record];
    }
  }
}
