/** Idempotency-Key on management requests: a retried request gets the first
    one's response instead of a second execution. Requests of any number of
    workers interleave statement by statement. */
module Idempotency {
  import opened CallTypes

  type RowId = nat
  type Hash = nat

  const TTL: nat := 86400
  const ABANDONED_AFTER: nat := 120
  const ATTEMPTS: nat := 2

  datatype Slot = Slot(consumer: nat, key: string)

  /** A response; only a JSON body is kept with the key. */
  datatype Response = Response(status: nat, body: Option<string>, json: bool) {
    function Kept(): Response { if json then this else Response(status, None, true) }
  }

  datatype Progress = Pending | Completed(response: Response)

  datatype KeyRow = KeyRow(id: RowId, hash: Hash, progress: Progress, expiresAt: Time, updatedAt: Time)

  /** The key table: one row a consumer and key, ids never used twice. */
  datatype Table = Table(rows: map<Slot, KeyRow>, nextId: RowId)

  // ---- The statements ----

  function Claimed(t: Table, slot: Slot, hash: Hash, now: Time): Table {
    if slot in t.rows then t
    else Table(t.rows[slot := KeyRow(t.nextId, hash, Pending, now + TTL, now)], t.nextId + 1)
  }

  predicate CanTakeOver(t: Table, slot: Slot, id: RowId, now: Time) {
    && slot in t.rows && t.rows[slot].id == id
    && t.rows[slot].progress.Pending? && t.rows[slot].updatedAt + ABANDONED_AFTER <= now
  }

  function Updated(t: Table, id: RowId, progress: Progress, now: Time): Table {
    t.(rows := map k | k in t.rows ::
         if t.rows[k].id == id then t.rows[k].(progress := progress, updatedAt := now) else t.rows[k])
  }

  function TakenOver(t: Table, id: RowId, now: Time): Table {
    t.(rows := map k | k in t.rows ::
         if CanTakeOver(t, k, id, now) then t.rows[k].(updatedAt := now) else t.rows[k])
  }

  function Removed(t: Table, id: RowId): Table {
    t.(rows := map k | k in t.rows && t.rows[k].id != id :: t.rows[k])
  }

  /** A purge deletes some of the expired rows, as many as its limit allows. */
  function Purged(t: Table, chosen: set<Slot>, now: Time): Table {
    t.(rows := map k | k in t.rows && !(k in chosen && t.rows[k].expiresAt <= now) :: t.rows[k])
  }

  // ---- Requests ----

  datatype Outcome = Executed(response: Response) | Replayed(response: Response) | InUse | Reused

  datatype Stage =
    | Claiming(tries: nat)
    | Finding(tries: nat)
    | Removing(id: RowId, tries: nat)
    | TakingOver(id: RowId)
    | Running(id: RowId)
    | Done(outcome: Outcome)

  datatype Task = Task(slot: Slot, hash: Hash, stage: Stage)

  /** What a request does once it has read the row of its key. */
  function AfterFind(row: Option<KeyRow>, hash: Hash, tries: nat, now: Time): Stage {
    match row
    case None => Retry(tries)
    case Some(r) =>
      if r.expiresAt <= now then Removing(r.id, tries)
      else if r.hash != hash then Done(Reused)
      else if r.progress.Completed? then Done(Replayed(r.progress.response))
      else if r.updatedAt + ABANDONED_AFTER <= now then TakingOver(r.id)
      else Done(InUse)
  }

  function Retry(tries: nat): Stage { if tries > 1 then Claiming(tries - 1) else Done(InUse) }

  function RowOf(t: Table, slot: Slot): Option<KeyRow> { if slot in t.rows then Some(t.rows[slot]) else None }

  /** The row is taken over if its request is this one and abandoned, else the
      request is answered from it. */
  predicate Told(r: KeyRow, hash: Hash, now: Time, claim: Option<RowId>, answer: Option<Outcome>) {
    if r.hash == hash && r.progress.Pending? && r.updatedAt + ABANDONED_AFTER <= now
    then claim == Some(r.id) && answer == None
    else claim == None && answer == Some(if r.hash != hash then Reused
                                         else if r.progress.Completed? then Replayed(r.progress.response) else InUse)
  }

  /** The pre-handler when nothing else runs between its statements. */
  class KeyTable {
    var rows: map<Slot, KeyRow>
    var nextId: RowId

    ghost function Contents(): Table
      reads this
    {
      Table(rows, nextId)
    }

    /** Ids are unique, and the next one is new. */
    ghost predicate Valid()
      reads this
    {
      && (forall k :: k in rows ==> rows[k].id < nextId)
      && (forall k, l :: k in rows && l in rows && rows[k].id == rows[l].id ==> k == l)
    }

    constructor ()
      ensures Valid() && Contents() == Table(map[], 0)
    {
      rows, nextId := map[], 0;
    }

    method Claim(slot: Slot, hash: Hash, now: Time) returns (id: Option<RowId>)
      modifies this
      ensures Contents() == Claimed(old(Contents()), slot, hash, now)
      ensures id == if slot in old(rows) then None else Some(old(nextId))
      ensures rows == if slot in old(rows) then old(rows)
                      else old(rows)[slot := KeyRow(old(nextId), hash, Pending, now + 86400, now)]
    {
      if slot in rows { return None; }
      id := Some(nextId);
      rows, nextId := rows[slot := KeyRow(nextId, hash, Pending, now + TTL, now)], nextId + 1;
    }

    /** Takes over the row with that id, wherever it is: it may be gone by now. */
    method TakeOver(id: RowId, now: Time) returns (ok: bool)
      requires Valid()
      modifies this
      ensures ok <==> exists slot :: CanTakeOver(old(Contents()), slot, id, now)
      ensures Contents() == TakenOver(old(Contents()), id, now) && Valid()
      ensures rows.Keys == old(rows).Keys && nextId == old(nextId)
      ensures forall k | k in rows ::
                var r := old(rows)[k];
                rows[k] == if r.id == id && r.progress == Pending && r.updatedAt + 120 <= now then r.(updatedAt := now)
                           else r
    {
      ok := false;
      if slot :| slot in rows && rows[slot].id == id {
        ok := rows[slot].progress.Pending? && rows[slot].updatedAt + ABANDONED_AFTER <= now;
        if ok {
          assert CanTakeOver(Contents(), slot, id, now);
          rows := rows[slot := rows[slot].(updatedAt := now)];
        }
      }
    }

    /** Deletes the row with that id, if it is still there. */
    method Remove(id: RowId)
      requires Valid()
      modifies this
      ensures Contents() == Removed(old(Contents()), id) && Valid()
      ensures forall k :: k in rows <==> k in old(rows) && old(rows)[k].id != id
      ensures forall k | k in rows :: rows[k] == old(rows)[k]
      ensures forall k | k in old(rows) && old(rows)[k].id == id :: rows == old(rows) - {k}
    {
      if slot :| slot in rows && rows[slot].id == id { rows := rows - {slot}; }
    }

    method Complete(id: RowId, response: Response, now: Time)
      requires Valid()
      modifies this
      ensures Contents() == Updated(old(Contents()), id, Completed(response.Kept()), now) && Valid()
      ensures rows.Keys == old(rows).Keys && nextId == old(nextId)
      ensures forall k | k in rows && old(rows)[k].id == id ::
                && rows[k] == old(rows)[k].(progress := rows[k].progress, updatedAt := now)
                && rows[k].progress.Completed?
                && rows[k].progress.response.status == response.status
                && rows[k].progress.response.body == if response.json then response.body else None
      ensures forall k | k in rows && old(rows)[k].id != id :: rows[k] == old(rows)[k]
    {
      if slot :| slot in rows && rows[slot].id == id {
        rows := rows[slot := rows[slot].(progress := Completed(response.Kept()), updatedAt := now)];
      }
    }

    /** What the request gets from the row of its key, which has not expired. */
    method Settle(slot: Slot, hash: Hash, now: Time) returns (claim: Option<RowId>, answer: Option<Outcome>)
      requires Valid() && slot in rows
      modifies this
      ensures Valid() && nextId == old(nextId)
      ensures Told(old(rows[slot]), hash, now, claim, answer)
      ensures rows == if claim.Some? then old(rows)[slot := old(rows[slot]).(updatedAt := now)] else old(rows)
    {
      var row := rows[slot];
      if row.hash != hash {
        return None, Some(Reused);
      } else if row.progress.Completed? {
        return None, Some(Replayed(row.progress.response));
      }
      if row.updatedAt + ABANDONED_AFTER <= now {
        assert CanTakeOver(Contents(), slot, row.id, now);
        var ok := TakeOver(row.id, now);
        if ok { return Some(row.id), None; }
      }
      return None, Some(InUse);
    }

    /** One round: the key is claimed, or its expired row removed, or the request
        gets what the row says. */
    method Attempt(slot: Slot, hash: Hash, now: Time) returns (claim: Option<RowId>, answer: Option<Outcome>)
      requires Valid()
      modifies this
      ensures Valid()
      ensures slot !in old(rows) ==>
                claim == Some(old(nextId)) && answer == None &&
                rows == old(rows)[slot := KeyRow(old(nextId), hash, Pending, now + TTL, now)]
      ensures slot in old(rows) ==> nextId == old(nextId)
      ensures slot in old(rows) && old(rows[slot]).expiresAt <= now ==>
                claim == None && answer == None && rows == old(rows) - {slot}
      ensures slot in old(rows) && old(rows[slot]).expiresAt > now ==>
                Told(old(rows[slot]), hash, now, claim, answer) &&
                rows == if claim.Some? then old(rows)[slot := old(rows[slot]).(updatedAt := now)] else old(rows)
    {
      answer := None;
      claim := Claim(slot, hash, now);
      if claim.None? {
        if rows[slot].expiresAt > now {
          claim, answer := Settle(slot, hash, now);
        } else {
          Remove(rows[slot].id);
        }
      }
    }

    /** The request executes, or it is answered; its own row is the only one that
        changes. */
    method PreHandle(slot: Slot, hash: Hash, now: Time) returns (claim: Option<RowId>, answer: Option<Outcome>)
      requires Valid()
      modifies this
      ensures Valid() && claim.Some? == answer.None?
      ensures forall k :: k != slot ==> RowOf(Contents(), k) == RowOf(old(Contents()), k)
      ensures claim.Some? ==> slot in rows && rows[slot].id == claim.value && rows[slot].hash == hash
                              && rows[slot].progress.Pending? && rows[slot].updatedAt == now < rows[slot].expiresAt
      ensures claim.None? ==> Contents() == old(Contents())
      ensures var r := RowOf(old(Contents()), slot);
              match r {
                case None => claim == Some(old(nextId))
                case Some(row) =>
                  if row.expiresAt <= now then claim == Some(old(nextId))
                  else if row.hash != hash then answer == Some(Reused)
                  else if row.progress.Completed? then answer == Some(Replayed(row.progress.response))
                  else if row.updatedAt + ABANDONED_AFTER <= now then claim == Some(row.id)
                  else answer == Some(InUse)
              }
    {
      claim, answer := None, None;
      var attempt := 0;
      while attempt < ATTEMPTS
        invariant 0 <= attempt <= ATTEMPTS
        invariant Valid() && claim.None? && answer.None? && nextId == old(nextId)
        invariant attempt == 0 ==> rows == old(rows)
        invariant attempt > 0 ==> slot in old(rows) && old(rows[slot]).expiresAt <= now && rows == old(rows) - {slot}
        invariant attempt < 2
      {
        claim, answer := Attempt(slot, hash, now);
        if claim.Some? || answer.Some? { return; }
        attempt := attempt + 1;
      }
      return None, Some(InUse);
    }
  }
}
