/** The app's push devices and their credentials (app/repo.py `register_device` to
    `delete_device`): the rows, and every transaction that changes one. */
module Devices {
  import opened Common

  type Id = nat
  type Token = string
  /** Secrets and codes are drawn at random and stored by hash; here each stands for
      itself, and different ones differ. */
  type Secret = nat
  type Code = nat

  datatype Platform = Apns | Fcm
  /** Whose verification request is outstanding: the device's own main credential's,
      or anyone else's. */
  datatype Kind = Owner | Open

  /** A row of push_devices. Housekeeping's clocks and the language are left out. */
  datatype Row = Row(platform: Platform, token: Token, secret: Secret,
                     pending: Option<Secret>, pendingSince: int,
                     verifiedAt: Option<int>,
                     kind: Kind, requestedAt: int, sentAt: Option<int>,
                     code: Option<Code>, codeAt: Option<int>,
                     failures: nat, tries: nat, nextAt: Option<int>,
                     deadSince: Option<int>, retired: bool)

  type Rows = map<Id, Row>

  const DAY := 86400
  const MINUTE := 60
  const MAX_VERIFY_FAILURES := 3

  // ---------------------------------------------------------------------
  // One row

  /** What a verification request does with the stored code. */
  datatype Keep = Drop | DropIfStale | KeepCode

  predicate Stale(r: Row, now: int) {
    r.codeAt.None? || r.codeAt.value <= now - MINUTE
  }

  /** `request_verification`. An open request that finds an owner's still waiting for
      its push joins it, and changes nothing about it. */
  function Requested(r: Row, kind: Kind, keep: Keep, now: int): Row {
    var joins := kind.Open? && r.kind.Owner? && r.sentAt.None?;
    var clear := keep.Drop? || (keep.DropIfStale? && Stale(r, now));
    r.(requestedAt := now,
       kind := if joins then Owner else kind,
       failures := if joins then r.failures else 0,
       nextAt := if joins then r.nextAt else None,
       sentAt := None,
       code := if clear then None else r.code,
       codeAt := if clear then None else r.codeAt)
  }

  function NewRow(platform: Platform, token: Token, secret: Secret, now: int): Row {
    Row(platform, token, secret, None, 0, None, Open, now, None, None, None, 0, 0, None, None, false)
  }

  /** A known token registered again: the newcomer's secret only waits. */
  function Reregistered(r: Row, secret: Secret, now: int): Row {
    Requested(r.(pending := Some(secret), pendingSince := now, retired := false, deadSince := None),
      Open, KeepCode, now)
  }

  /** A new token has to be proved afresh; what was sent to the old one is void. */
  function Retokened(r: Row, token: Token, now: int): Row {
    if token == r.token then r
    else
      Requested(
        r.(token := token, deadSince := None, verifiedAt := None, pending := None, code := None, sentAt := None,
          tries := 0),
                Owner, Drop, now)
  }

  /** `set_verify_code`: the write is the sender's claim. */
  predicate CanStore(r: Row, now: int) {
    r.sentAt.None? && Stale(r, now)
  }

  /** `verify_device`: is this the code on the row, made within the day, and is the
      caller's pending secret, if it came with one, still the one waiting? */
  predicate Accepts(r: Row, code: Code, pending: Option<Secret>, now: int) {
    && r.code == Some(code) && r.codeAt.Some? && r.codeAt.value > now - DAY
    && (pending.Some? ==> r.pending == pending)
  }

  function Verified(r: Row, code: Code, pending: Option<Secret>, now: int): Row {
    if !Accepts(r, code, pending, now) then r
    else if pending.Some? then
      r.(secret := pending.value, pending := None, verifiedAt := Some(now), code := None)
    else
      r.(verifiedAt := if r.verifiedAt.Some? then r.verifiedAt else Some(now), code := None, pending := None)
  }

  /** `devices_awaiting_verification`: what a sender may pick. */
  predicate Awaiting(r: Row, now: int) {
    && (r.verifiedAt.None? || r.pending.Some?)
    && !r.retired && r.sentAt.None?
    && r.requestedAt > now - DAY
    && r.failures < MAX_VERIFY_FAILURES
    && (r.nextAt.Some? ==> r.nextAt.value <= now)
  }

  function Backoff(tries: nat): nat {
    if tries >= 6 then 3600 else if tries == 0 then 60 else Min(3600, 2 * Backoff(tries - 1))
  }

  /** `record_verify_refusals`. */
  function RefusedOnce(r: Row, confirmed: bool, now: int): Row {
    r.(failures := r.failures + (if confirmed then 1 else 0), nextAt := Some(now + Backoff(r.tries)),
      tries := r.tries + 1)
  }

  /** What a request achieves. The device may be sent a code at once, unless the request
      joined an owner's that is used up or backing off; a new code may be stored unless a
      fresh one is kept; and a fresh code that is kept works on as if nothing was asked. */
  lemma WhatARequestAchieves(r: Row, kind: Kind, keep: Keep, now: int, code: Code, pending: Option<Secret>)
    ensures var after, joins := Requested(r, kind, keep, now), kind.Open? && r.kind.Owner? && r.sentAt.None?;
      && (Awaiting(after, now) <==>
            && (r.verifiedAt.None? || r.pending.Some?) && !r.retired
            && (joins ==> r.failures < MAX_VERIFY_FAILURES && (r.nextAt.Some? ==> r.nextAt.value <= now)))
      && (CanStore(after, now) <==> keep.Drop? || Stale(r, now))
      && (!CanStore(after, now) ==> Accepts(after, code, pending, now) == Accepts(r, code, pending, now))
  {
  }

  // ---------------------------------------------------------------------
  // The table

  predicate Holds(r: Row, platform: Platform, token: Token) {
    r.platform == platform && r.token == token
  }

  /** At most one row per platform and token. */
  ghost predicate OneRowPerToken(rows: Rows) {
    forall i, j :: i in rows && j in rows && i != j ==> !Holds(rows[i], rows[j].platform, rows[j].token)
  }

  class DeviceTable {
    var now: int
    var rows: Rows
    var nextId: Id     // AUTOINCREMENT: an id is never used again

    ghost predicate Valid()
      reads this
    {
      OneRowPerToken(rows) && forall i :: i in rows ==> i < nextId
    }

    constructor (now: int)
      ensures Valid() && rows == map[] && this.now == now
    {
      this.now, rows, nextId := now, map[], 0;
    }

    method Find(platform: Platform, token: Token) returns (id: Option<Id>)
      ensures id.Some? ==> id.value in rows && Holds(rows[id.value], platform, token)
      ensures id.None? ==> forall i :: i in rows ==> !Holds(rows[i], platform, token)
    {
      var left := rows.Keys;
      while left != {}
        invariant left <= rows.Keys
        invariant forall i :: i in rows && i !in left ==> !Holds(rows[i], platform, token)
        decreases |left|
      {
        var i :| i in left;
        if Holds(rows[i], platform, token) {
          return Some(i);
        }
        left := left - {i};
      }
      return None;
    }

    method RegisterDevice(platform: Platform, token: Token, secret: Secret) returns (id: Id)
      requires Valid()
      modifies this
      ensures Valid() && now == old(now) && id in rows && Holds(rows[id], platform, token)
      ensures if id in old(rows) then
                nextId == old(nextId) && rows == old(rows)[id := Reregistered(old(rows)[id], secret, now)]
              else
                && id == old(nextId) && nextId == id + 1
                && rows == old(rows)[id := NewRow(platform, token, secret, now)]
                && forall i :: i in old(rows) ==> !Holds(old(rows)[i], platform, token)
    {
      var existing := Find(platform, token);
      if existing.None? {
        id := nextId;
        rows, nextId := rows[id := NewRow(platform, token, secret, now)], nextId + 1;
      } else {
        id := existing.value;
        var r := rows[id].(pending := Some(secret), pendingSince := now, retired := false, deadSince := None);
        rows := rows[id := r];
        RequestVerification(id, Open, KeepCode);
      }
    }

    method RequestVerification(id: Id, kind: Kind, keep: Keep)
      requires Valid()
      modifies this`rows
      ensures Valid()
      ensures rows == if id in old(rows) then old(rows)[id := Requested(old(rows)[id], kind, keep, now)] else old(rows)
    {
      if id in rows {
        rows := rows[id := Requested(rows[id], kind, keep, now)];
      }
    }

    method SetVerifyCode(id: Id, code: Code) returns (mine: bool)
      requires Valid()
      modifies this`rows
      ensures Valid() && mine == (id in old(rows) && CanStore(old(rows)[id], now))
      ensures rows ==
        if mine then old(rows)[id := old(rows)[id].(code := Some(code), codeAt := Some(now))] else old(rows)
    {
      mine := id in rows && rows[id].sentAt.None? && (rows[id].codeAt.None? || rows[id].codeAt.value <= now - MINUTE);
      if mine {
        rows := rows[id := rows[id].(code := Some(code), codeAt := Some(now))];
      }
    }

    method MarkVerificationSent(id: Id, code: Code)
      requires Valid()
      modifies this`rows
      ensures Valid()
      ensures rows == if id in old(rows) && old(rows)[id].code == Some(code) then
                        old(rows)[id := old(rows)[id].(sentAt := Some(now), tries := 0)]
                      else old(rows)
    {
      if id in rows && rows[id].code == Some(code) {
        rows := rows[id := rows[id].(sentAt := Some(now), tries := 0)];
      }
    }

    method VerifyDevice(id: Id, code: Code, pending: Option<Secret>) returns (ok: bool)
      requires Valid()
      modifies this`rows
      ensures Valid() && ok == (id in old(rows) && Accepts(old(rows)[id], code, pending, now))
      ensures !ok ==> rows == old(rows)
      ensures rows ==
        if id in old(rows) then old(rows)[id := Verified(old(rows)[id], code, pending, now)] else old(rows)
    {
      if id !in rows {
        return false;
      }
      var r := rows[id];
      if r.code != Some(code) || r.codeAt.None? || r.codeAt.value <= now - DAY {
        assert rows[id := r] == rows;
        return false;
      }
      if pending.Some? {
        if r.pending != pending {
          assert rows[id := r] == rows;
          return false;
        }
        rows := rows[id := r.(secret := pending.value, pending := None, verifiedAt := Some(now), code := None)];
      } else {
        var since := if r.verifiedAt.Some? then r.verifiedAt else Some(now);
        rows := rows[id := r.(verifiedAt := since, code := None, pending := None)];
      }
      return true;
    }

    /** `token` None leaves the token alone. */
    method UpdateDevice(id: Id, secret: Secret, token: Option<Token>) returns (outcome: UpdateOutcome)
      requires Valid()
      modifies this`rows
      ensures Valid()
      ensures outcome.Unauthorized? <==> id !in old(rows) || old(rows)[id].secret != secret
      ensures outcome.TokenInUse? ==>
        token.Some? &&
        exists i :: i in old(rows) && i != id && Holds(old(rows)[i], old(rows)[id].platform, token.value)
      ensures outcome.Ok? ==>
                && rows == old(rows)[
                     id := Retokened(old(rows)[id], if token.Some? then token.value else old(rows)[id].token, now)]
                && (token.Some? ==> forall i :: i in old(rows) && i != id ==>
                      !Holds(old(rows)[i], old(rows)[id].platform, token.value))
      ensures !outcome.Ok? ==> rows == old(rows)
    {
      if id !in rows || rows[id].secret != secret {
        return Unauthorized;
      }
      var r := rows[id];
      if token.None? || token.value == r.token {
        assert rows[id := r] == rows;
        return Ok;
      }
      var clash := Find(r.platform, token.value);
      if clash.Some? {
        assert clash.value != id;
        return TokenInUse;
      }
      rows := rows[id := r.(token := token.value, deadSince := None, verifiedAt := None, pending := None,
        code := None, sentAt := None, tries := 0)];
      RequestVerification(id, Owner, Drop);
      return Ok;
    }

    /** Only while the row still holds the token that answered dead. */
    method RetireDevice(id: Id, token: Token) returns (retired: bool)
      requires Valid()
      modifies this`rows
      ensures Valid() && retired == (id in old(rows) && old(rows)[id].token == token && !old(rows)[id].retired)
      ensures rows == if retired then old(rows)[id := old(rows)[id].(retired := true)] else old(rows)
    {
      retired := id in rows && rows[id].token == token && !rows[id].retired;
      if retired {
        rows := rows[id := rows[id].(retired := true)];
      }
    }

    method DeleteDevice(id: Id, secret: Secret) returns (deleted: bool)
      requires Valid()
      modifies this`rows
      ensures Valid() && deleted == (id in old(rows) && old(rows)[id].secret == secret)
      ensures rows == if deleted then old(rows) - {id} else old(rows)
    {
      deleted := id in rows && rows[id].secret == secret;
      if deleted {
        rows := rows - {id};
      }
    }
  }

  datatype UpdateOutcome = Ok | Unauthorized | TokenInUse
}
