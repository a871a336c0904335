/** The revocation registry of backend/models/revokedTokens.js: one record per token string, each
    removed by the database one hour after it was created. */
module RevokedTokenModel {
  import opened Js

  /** `createdAt: { expires: 3600 }`. */
  const TtlSeconds: int := 3600

  /** The moment (in milliseconds) from which the database may drop a record created at `createdAt`. */
  function ExpiresAt(createdAt: int): int {
    createdAt + TtlSeconds * 1000
  }

  /** `RevokedToken.create({ token, expiresAt })` on the records (token to `createdAt`): the required
      validator refuses an empty token, the unique index a token already present, and `fault` is a
      failure of the database call. `expiresAt` is not a path of the schema, so it is not stored:
      `createdAt` takes its default, the insertion time `now`. */
  function Insert(records: map<string, int>, token: string, expiresAt: int, now: int, fault: bool): (r: Option<map<string, int>>)
    ensures r.Some? <==> !fault && token != "" && token !in records
    ensures r.Some? ==> r.value.Keys == records.Keys + {token} && r.value[token] == now
    ensures r.Some? ==> forall t :: t in records ==> r.value[t] == records[t]
  {
    if fault || token == "" || token in records then None else Some(records[token := now])
  }

  /** The records left after the database's expiry sweep runs at `now`. */
  function Unexpired(records: map<string, int>, now: int): (live: map<string, int>)
    ensures forall t :: t in live <==> t in records && now < ExpiresAt(records[t])
    ensures forall t :: t in live ==> live[t] == records[t]
  {
    map t | t in records && now < ExpiresAt(records[t]) :: records[t]
  }

  /** The token's own `exp` plays no part in the record: two inserts that differ only in the
      `expiresAt` they pass store the same thing. */
  lemma InsertIgnoresExpiresAt(records: map<string, int>, token: string, e1: int, e2: int, now: int, fault: bool)
    ensures Insert(records, token, e1, now, fault) == Insert(records, token, e2, now, fault)
  {
  }

  /** Inserting a token a second time fails, whatever the second call's arguments. */
  lemma SecondInsertFails(records: map<string, int>, token: string, e1: int, e2: int, now1: int, now2: int, fault: bool)
    requires Insert(records, token, e1, now1, false).Some?
    ensures Insert(Insert(records, token, e1, now1, false).value, token, e2, now2, fault).None?
  {
  }

  /** A record survives every sweep that runs less than an hour after it was created. */
  lemma RecordOutlivesSweepsWithinTtl(records: map<string, int>, token: string, now: int)
    requires token in records && now < ExpiresAt(records[token])
    ensures token in Unexpired(records, now)
  {
  }

  class Registry {
    var records: map<string, int>

    constructor ()
      ensures records == map[]
    {
      records := map[];
    }

    /** `RevokedToken.create({ token, expiresAt })`. */
    method Create(token: string, expiresAt: int, now: int, fault: bool) returns (ok: bool)
      modifies this
      ensures var r := Insert(old(records), token, expiresAt, now, fault);
              ok == r.Some? && records == (if ok then r.value else old(records))
    {
      var r := Insert(records, token, expiresAt, now, fault);
      ok := r.Some?;
      if ok {
        records := r.value;
      }
    }

    /** One pass of the database's expiry monitor. */
    method Sweep(now: int)
      modifies this
      ensures records == Unexpired(old(records), now)
    {
      records := Unexpired(records, now);
    }
  }
}
