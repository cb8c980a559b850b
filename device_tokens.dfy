// The device-token registry (user_device_token table) and its health state
// machine: registration, success/failure bookkeeping with a threshold of six
// failures, explicit disabling, and the validity query.
module DeviceTokens {
  import opened Wrappers

  /** Failures at which recordPushFailure disables a token (`>= 6`). */
  const FailureThreshold: nat := 6

  const TooManyFailures: string := "推送失败次数过多"

  /** A row of the table; `failedCount` is nullable in the schema. */
  datatype DeviceToken = DeviceToken(
    id: nat,
    userId: int,
    deviceToken: string,
    platform: Option<string>,
    deviceInfo: Option<string>,
    appVersion: Option<string>,
    pushEnabled: bool,
    lastActiveTime: int,
    status: int,
    failedCount: Option<int>,
    lastFailedTime: Option<int>,
    lastSuccessTime: Option<int>,
    inactiveReason: Option<string>)

  /**
   * The non-deleted rows, keyed by token string, with the order in which they
   * were inserted (the order the list queries return them in).
   */
  datatype Table = Table(rows: map<string, DeviceToken>, order: seq<string>, nextId: nat)

  ghost predicate WellFormed(t: Table)
  {
    (forall k :: k in t.order <==> k in t.rows)
    && (forall i, j :: 0 <= i < j < |t.order| ==> t.order[i] != t.order[j])
    && (forall k :: k in t.rows ==> t.rows[k].deviceToken == k && t.rows[k].id < t.nextId)
  }

  /** A token a push may be sent to (the mapper's "active" selection). */
  predicate IsActive(d: DeviceToken)
  {
    d.status == 1 && d.pushEnabled
  }

  /** The active rows of the given users, in table order (the keys are scanned back to front). */
  function ActiveIn(rows: map<string, DeviceToken>, keys: seq<string>, userIds: seq<int>): seq<DeviceToken>
  {
    if |keys| == 0 then []
    else
      var k := keys[|keys| - 1];
      ActiveIn(rows, keys[..|keys| - 1], userIds)
      + (if k in rows && IsActive(rows[k]) && rows[k].userId in userIds then [rows[k]] else [])
  }

  function ActiveOf(t: Table, userIds: seq<int>): seq<DeviceToken>
  {
    ActiveIn(t.rows, t.order, userIds)
  }

  /** isTokenValid: a non-deleted row that is enabled, push-enabled and below the threshold. */
  predicate TokenValid(t: Table, token: string)
  {
    token in t.rows && t.rows[token].status == 1 && t.rows[token].pushEnabled
    && t.rows[token].failedCount.Some? && t.rows[token].failedCount.value < FailureThreshold as int
  }

  /** getFailureCount: 0 for an unknown token or a null count. */
  function FailureCountOf(t: Table, token: string): int
  {
    if token in t.rows && t.rows[token].failedCount.Some? then t.rows[token].failedCount.value else 0
  }

  /** registerOrUpdateToken: refresh an existing row or insert a fresh one. */
  function Registered(t: Table, userId: int, token: string, platform: Option<string>,
                      deviceInfo: Option<string>, appVersion: Option<string>, now: int): Table
  {
    if token in t.rows then
      var existing := t.rows[token];
      var row := existing.(userId := userId, platform := platform, deviceInfo := deviceInfo,
                      appVersion := appVersion, lastActiveTime := now, status := 1,
                      pushEnabled := true, failedCount := Some(0), lastSuccessTime := Some(now),
                      inactiveReason := None);
      t.(rows := t.rows[token := row])
    else
      var row := DeviceToken(t.nextId, userId, token, platform, deviceInfo, appVersion, true, now, 1,
                             Some(0), None, Some(now), None);
      Table(t.rows[token := row], t.order + [token], t.nextId + 1)
  }

  /**
   * updateFailureCount(token, increment, now): +1 (stamping the failure time) or
   * reset to 0 (stamping the success time). A NULL count stays NULL under `+ 1`.
   */
  function FailureCountUpdated(t: Table, token: string, increment: bool, now: int): Table
  {
    if token !in t.rows then t
    else
      var row := t.rows[token];
      var row' := if increment
        then row.(failedCount := if row.failedCount.Some? then Some(row.failedCount.value + 1) else None,
                  lastFailedTime := Some(now))
        else row.(failedCount := Some(0), lastSuccessTime := Some(now));
      t.(rows := t.rows[token := row'])
  }

  /** disableTokenByDeviceToken: status 0 with the reason recorded. */
  function Disabled(t: Table, token: string, reason: string): Table
  {
    if token !in t.rows then t
    else t.(rows := t.rows[token := t.rows[token].(status := 0, inactiveReason := Some(reason))])
  }

  /** recordPushSuccess / resetFailureCount. */
  function Succeeded(t: Table, token: string, now: int): Table
  {
    FailureCountUpdated(t, token, false, now)
  }

  /** recordPushFailure: count the failure, then disable once the count reaches the threshold. */
  function Failed(t: Table, token: string, now: int): Table
  {
    var t1 := FailureCountUpdated(t, token, true, now);
    if token in t1.rows && t1.rows[token].failedCount.Some?
       && t1.rows[token].failedCount.value >= FailureThreshold as int
    then Disabled(t1, token, TooManyFailures)
    else t1
  }

  /** `n` consecutive failures. */
  function FailedTimes(t: Table, token: string, now: int, n: nat): Table
  {
    if n == 0 then t else Failed(FailedTimes(t, token, now, n - 1), token, now)
  }

  // ---------------------------------------------------------------- lemmas

  /** Registration keeps the table well formed and leaves a valid token, whichever branch runs. */
  lemma RegisterLeavesValidToken(t: Table, userId: int, token: string, platform: Option<string>,
                                 deviceInfo: Option<string>, appVersion: Option<string>, now: int)
    requires WellFormed(t)
    ensures var t' := Registered(t, userId, token, platform, deviceInfo, appVersion, now);
      WellFormed(t') && TokenValid(t', token) && FailureCountOf(t', token) == 0
      && t'.rows[token].userId == userId && t'.rows[token].inactiveReason.None?
      && (token in t.rows ==> t'.rows[token].id == t.rows[token].id && t'.order == t.order)
      && (token !in t.rows ==> t'.order == t.order + [token])
      && forall k :: k in t.rows && k != token ==> k in t'.rows && t'.rows[k] == t.rows[k]
  {
    var t' := Registered(t, userId, token, platform, deviceInfo, appVersion, now);
    if token in t.rows {
      RefreshedWellFormed(t, token, t'.rows[token]);
    } else {
      InsertedWellFormed(t, token, t'.rows[token]);
    }
  }

  /** Replacing a row by one with the same token and an issued id keeps the table well formed. */
  lemma RefreshedWellFormed(t: Table, token: string, row: DeviceToken)
    requires WellFormed(t) && token in t.rows && row.deviceToken == token && row.id < t.nextId
    ensures WellFormed(t.(rows := t.rows[token := row]))
  {
  }

  /** Appending a row under a new token, with the next id, keeps the table well formed. */
  lemma InsertedWellFormed(t: Table, token: string, row: DeviceToken)
    requires WellFormed(t) && token !in t.rows && row.deviceToken == token && row.id == t.nextId
    ensures WellFormed(Table(t.rows[token := row], t.order + [token], t.nextId + 1))
  {
    var o := t.order + [token];
    forall i, j | 0 <= i < j < |o|
      ensures o[i] != o[j]
    {
      assert o[i] == t.order[i];
      if j < |t.order| {
        assert o[j] == t.order[j];
      }
    }
  }

  /** Success, failure and disabling leave every other row, and the row order, untouched. */
  lemma UpdatesAreLocal(t: Table, token: string, now: int, reason: string, k: string)
    requires k != token
    ensures Succeeded(t, token, now).order == t.order && Failed(t, token, now).order == t.order
    ensures Disabled(t, token, reason).order == t.order
    ensures k in t.rows ==>
              Succeeded(t, token, now).rows[k] == t.rows[k]
              && Failed(t, token, now).rows[k] == t.rows[k] && Disabled(t, token, reason).rows[k] == t.rows[k]
    ensures Succeeded(t, token, now).rows.Keys == t.rows.Keys
    ensures Failed(t, token, now).rows.Keys == t.rows.Keys
  {
  }

  /** An unknown token changes nothing and has failure count 0. */
  lemma UnknownTokenIsBenign(t: Table, token: string, now: int, reason: string)
    requires token !in t.rows
    ensures Succeeded(t, token, now) == t && Failed(t, token, now) == t && Disabled(t, token, reason) == t
    ensures FailureCountOf(t, token) == 0 && !TokenValid(t, token)
  {
  }

  /** A success resets the count to 0 but never re-enables a disabled token. */
  lemma SuccessResetsButKeepsStatus(t: Table, token: string, now: int)
    requires token in t.rows
    ensures var t' := Succeeded(t, token, now);
      FailureCountOf(t', token) == 0 && t'.rows[token].status == t.rows[token].status
      && t'.rows[token].inactiveReason == t.rows[token].inactiveReason
      && (TokenValid(t', token) <==> t.rows[token].status == 1 && t.rows[token].pushEnabled)
  {
  }

  /** A disabled token is no longer valid. */
  lemma DisabledIsInvalid(t: Table, token: string, reason: string)
    requires token in t.rows
    ensures !TokenValid(Disabled(t, token, reason), token)
    ensures Disabled(t, token, reason).rows[token].inactiveReason == Some(reason)
  {
  }

  /**
   * Starting from a freshly registered (or refreshed) token, n consecutive
   * failures leave the count at n; the token stays enabled for n < 6 and is
   * disabled for too many failures once n >= 6.
   */
  lemma {:induction false} FailuresReachThreshold(t: Table, token: string, now: int, n: nat)
    requires token in t.rows && t.rows[token].status == 1 && t.rows[token].failedCount == Some(0)
    ensures var t' := FailedTimes(t, token, now, n);
      token in t'.rows && t'.rows[token].failedCount == Some(n)
      && (n < FailureThreshold ==> t'.rows[token].status == 1 && t'.rows[token].inactiveReason == t.rows[token].inactiveReason)
      && (n >= FailureThreshold ==> t'.rows[token].status == 0 && t'.rows[token].inactiveReason == Some(TooManyFailures))
  {
    if n > 0 {
      FailuresReachThreshold(t, token, now, n - 1);
      FailedRow(FailedTimes(t, token, now, n - 1), token, now);
    }
  }

  /** One failure on a counted row: the count rises by one, and the row is disabled once it reaches the threshold. */
  lemma FailedRow(t: Table, token: string, now: int)
    requires token in t.rows && t.rows[token].failedCount.Some?
    ensures var c := t.rows[token].failedCount.value + 1;
      var t' := Failed(t, token, now);
      token in t'.rows && t'.rows[token].failedCount == Some(c)
      && (c < FailureThreshold as int ==> t'.rows[token].status == t.rows[token].status
                                          && t'.rows[token].inactiveReason == t.rows[token].inactiveReason)
      && (c >= FailureThreshold as int ==> t'.rows[token].status == 0 && t'.rows[token].inactiveReason == Some(TooManyFailures))
  {
  }

  /** The token is valid after five failures and invalid after the sixth. */
  lemma SixthFailureInvalidates(t: Table, token: string, now: int)
    requires token in t.rows && t.rows[token].status == 1 && t.rows[token].pushEnabled
    requires t.rows[token].failedCount == Some(0)
    ensures TokenValid(FailedTimes(t, token, now, 5), token)
    ensures !TokenValid(FailedTimes(t, token, now, 6), token)
  {
    FailuresReachThreshold(t, token, now, 5);
    FailuresReachThreshold(t, token, now, 6);
    PushEnabledKept(t, token, now, 5);
  }

  lemma {:induction false} PushEnabledKept(t: Table, token: string, now: int, n: nat)
    requires token in t.rows
    ensures token in FailedTimes(t, token, now, n).rows
    ensures FailedTimes(t, token, now, n).rows[token].pushEnabled == t.rows[token].pushEnabled
  {
    if n > 0 {
      PushEnabledKept(t, token, now, n - 1);
    }
  }

  /** The active-token query returns exactly the active rows of the given users, each once, in table order. */
  lemma {:induction false} ActiveInMembers(rows: map<string, DeviceToken>, keys: seq<string>, userIds: seq<int>,
                                           d: DeviceToken)
    ensures d in ActiveIn(rows, keys, userIds) <==>
      exists i :: 0 <= i < |keys| && keys[i] in rows && rows[keys[i]] == d && IsActive(d) && d.userId in userIds
  {
    if |keys| > 0 {
      var n := |keys| - 1;
      ActiveInMembers(rows, keys[..n], userIds, d);
      if d in ActiveIn(rows, keys, userIds) && d !in ActiveIn(rows, keys[..n], userIds) {
        assert keys[n] in rows && rows[keys[n]] == d;
      }
      if exists i :: 0 <= i < |keys| && keys[i] in rows && rows[keys[i]] == d && IsActive(d) && d.userId in userIds {
        var i :| 0 <= i < |keys| && keys[i] in rows && rows[keys[i]] == d && IsActive(d) && d.userId in userIds;
        if i < n {
          assert keys[..n][i] == keys[i];
        }
      }
      forall i | 0 <= i < n
        ensures keys[..n][i] == keys[i]
      {
      }
    }
  }

  /** With no user ids the active-token query is empty. */
  lemma {:induction false} ActiveInNoUsers(rows: map<string, DeviceToken>, keys: seq<string>)
    ensures ActiveIn(rows, keys, []) == []
  {
    if |keys| > 0 {
      ActiveInNoUsers(rows, keys[..|keys| - 1]);
    }
  }

  // ---------------------------------------------------------------- the service

  /** UserDeviceTokenServiceImpl over the user_device_token table. */
  class TokenRegistry {
    var rows: map<string, DeviceToken>
    var order: seq<string>
    var nextId: nat

    function Snapshot(): Table
      reads this
    {
      Table(rows, order, nextId)
    }

    ghost predicate Valid()
      reads this
    {
      WellFormed(Snapshot())
    }

    constructor ()
      ensures Valid() && rows == map[] && order == []
    {
      rows := map[];
      order := [];
      nextId := 1;
    }

    /** registerOrUpdateToken; the storage write always succeeds here. */
    method RegisterOrUpdateToken(userId: int, token: string, platform: Option<string>,
                                 deviceInfo: Option<string>, appVersion: Option<string>, now: int)
      returns (ok: bool)
      requires Valid()
      modifies this
      ensures Valid() && ok
      ensures Snapshot() == Registered(old(Snapshot()), userId, token, platform, deviceInfo, appVersion, now)
      ensures TokenValid(Snapshot(), token)
    {
      RegisterLeavesValidToken(Snapshot(), userId, token, platform, deviceInfo, appVersion, now);
      if token in rows {
        var row := rows[token];
        rows := rows[token := row.(userId := userId, platform := platform, deviceInfo := deviceInfo,
                                   appVersion := appVersion, lastActiveTime := now, status := 1,
                                   pushEnabled := true, failedCount := Some(0), lastSuccessTime := Some(now),
                                   inactiveReason := None)];
      } else {
        rows := rows[token := DeviceToken(nextId, userId, token, platform, deviceInfo, appVersion, true,
                                          now, 1, Some(0), None, Some(now), None)];
        order := order + [token];
        nextId := nextId + 1;
      }
      ok := true;
    }

    /** getActiveTokensByUserIds: [] for an absent or empty id list, else the mapper's scan. */
    method GetActiveTokensByUserIds(userIds: Option<seq<int>>) returns (tokens: seq<DeviceToken>)
      ensures userIds.None? || userIds.value == [] ==> tokens == []
      ensures userIds.Some? ==> tokens == ActiveOf(Snapshot(), userIds.value)
      ensures forall d :: d in tokens ==> IsActive(d) && userIds.Some? && d.userId in userIds.value
    {
      if userIds.None? || userIds.value == [] {
        ActiveInNoUsers(rows, order);
        return [];
      }
      tokens := SelectActive(userIds.value);
    }

    /** getActiveTokensByUserId. */
    method GetActiveTokensByUserId(userId: int) returns (tokens: seq<DeviceToken>)
      ensures tokens == ActiveOf(Snapshot(), [userId])
      ensures forall d :: d in tokens ==> IsActive(d) && d.userId == userId
    {
      tokens := SelectActive([userId]);
    }

    /** selectActiveTokensByUserIds: one pass over the table in row order. */
    method SelectActive(userIds: seq<int>) returns (tokens: seq<DeviceToken>)
      ensures tokens == ActiveOf(Snapshot(), userIds)
      ensures forall d :: d in tokens ==> IsActive(d) && d.userId in userIds
    {
      tokens := [];
      var i := 0;
      while i < |order|
        invariant 0 <= i <= |order|
        invariant tokens == ActiveIn(rows, order[..i], userIds)
      {
        var k := order[i];
        assert order[..i + 1][..i] == order[..i];
        if k in rows && IsActive(rows[k]) && rows[k].userId in userIds {
          tokens := tokens + [rows[k]];
        }
        i := i + 1;
      }
      assert order[..i] == order;
      forall d | d in tokens ensures IsActive(d) && d.userId in userIds {
        ActiveInMembers(rows, order, userIds, d);
      }
    }

    /** recordPushSuccess: reset the count; true iff a row was updated. */
    method RecordPushSuccess(token: string, now: int) returns (updated: bool)
      requires Valid()
      modifies this
      ensures Valid()
      ensures updated == (token in old(rows))
      ensures Snapshot() == Succeeded(old(Snapshot()), token, now)
    {
      updated := UpdateFailureCount(token, false, now);
    }

    /** resetFailureCount is recordPushSuccess. */
    method ResetFailureCount(token: string, now: int) returns (updated: bool)
      requires Valid()
      modifies this
      ensures Valid()
      ensures updated == (token in old(rows))
      ensures Snapshot() == Succeeded(old(Snapshot()), token, now)
    {
      updated := RecordPushSuccess(token, now);
    }

    /** recordPushFailure: count the failure, re-read the row, disable it at the threshold. */
    method RecordPushFailure(token: string, now: int) returns (updated: bool)
      requires Valid()
      modifies this
      ensures Valid()
      ensures updated == (token in old(rows))
      ensures Snapshot() == Failed(old(Snapshot()), token, now)
    {
      updated := UpdateFailureCount(token, true, now);
      if updated {
        var row := rows[token];
        if row.failedCount.Some? && row.failedCount.value >= FailureThreshold as int {
          var _ := DisableToken(token, TooManyFailures);
        }
      }
    }

    /** disableToken: true iff a row was updated. */
    method DisableToken(token: string, reason: string) returns (updated: bool)
      requires Valid()
      modifies this
      ensures Valid()
      ensures updated == (token in old(rows))
      ensures Snapshot() == Disabled(old(Snapshot()), token, reason)
    {
      updated := token in rows;
      if updated {
        rows := rows[token := rows[token].(status := 0, inactiveReason := Some(reason))];
      }
    }

    /** The mapper's updateFailureCount; returns whether a row matched. */
    method UpdateFailureCount(token: string, increment: bool, now: int) returns (updated: bool)
      requires Valid()
      modifies this
      ensures Valid()
      ensures updated == (token in old(rows))
      ensures Snapshot() == FailureCountUpdated(old(Snapshot()), token, increment, now)
    {
      updated := token in rows;
      if updated {
        var row := rows[token];
        if increment {
          var count := if row.failedCount.Some? then Some(row.failedCount.value + 1) else None;
          rows := rows[token := row.(failedCount := count, lastFailedTime := Some(now))];
        } else {
          rows := rows[token := row.(failedCount := Some(0), lastSuccessTime := Some(now))];
        }
        RefreshedWellFormed(old(Snapshot()), token, rows[token]);
      }
    }

    /** getFailureCount. */
    function GetFailureCount(token: string): (n: int)
      reads this
      ensures token !in rows ==> n == 0
      ensures token in rows && rows[token].failedCount.None? ==> n == 0
      ensures token in rows && rows[token].failedCount.Some? ==> n == rows[token].failedCount.value
    {
      FailureCountOf(Snapshot(), token)
    }

    /** isTokenValid. */
    function IsTokenValid(token: string): (valid: bool)
      reads this
      ensures valid <==> token in rows && rows[token].status == 1 && rows[token].pushEnabled
                         && rows[token].failedCount.Some? && rows[token].failedCount.value < 6
    {
      TokenValid(Snapshot(), token)
    }
  }
}
