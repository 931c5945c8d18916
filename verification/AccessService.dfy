// The access service as the source has it: calls that update the server and
// access_log tables in place and append to the audit trail, each tied to the
// state function of AccessLifecycle (backend/src/access/access.service.ts), and
// the deletions of other services that write the same tables
// (backend/src/servers/servers.service.ts, backend/src/users/users.service.ts).
module AccessService {
  import opened Prelude
  import opened AccessLifecycle
  import opened AccessServers
  import opened AccessEvents

  class AccessService {
    var now: int
    var servers: map<ServerId, Server>
    var owners: map<ServerId, UserId>
    var tickets: set<TicketId>
    var pinned: set<ServerId>
    var logs: map<LogId, Log>
    var trail: seq<(LogId, Kind)>
    ghost var issued: set<LogId>

    ghost function View(): State
      reads this
    {
      State(now, servers, owners, tickets, pinned, logs, trail, issued)
    }

    ghost predicate Valid()
      reads this
    {
      Inv(View())
    }

    constructor ()
      ensures Valid() && View() == Empty
    {
      now, servers, owners, tickets, pinned, logs, trail := 0, map[], map[], {}, {}, map[], [];
      issued := {};
      new;
      RunsKeepInv([]);
    }

    method Tick(at: int)
      requires Valid() && at > now
      modifies this`now
      ensures Valid() && View() == old(View()).(now := at)
    {
      TimeKeeps(View(), at);
      now := at;
    }

    method SetAccessEnabled(server: ServerId, enabled: bool, expiresAt: Option<int>)
      modifies this`servers
      ensures View() == SetAccess(old(View()), server, Server(enabled, expiresAt))
    {
      if server in servers {
        servers := servers[server := Server(enabled, expiresAt)];
      }
    }

    method Append(id: LogId, kind: Kind)
      modifies this`trail
      ensures View() == Log1(old(View()), id, kind)
    {
      trail := trail + [(id, kind)];
    }

    // The open log of the server that was granted last, if there is one.
    method FindActive(server: ServerId) returns (active: Option<LogId>)
      requires GrantsApart(View())
      ensures active == NewestOpen(View(), server)
    {
      var open := set id | id in logs && logs[id].server == server && !logs[id].isRevoked;
      ghost var s := View();
      if open == {} {
        assert forall id | id in s.logs && Open(s, id, server) :: id in open;
        return None;
      }
      assert open == set id | id in s.logs && Open(s, id, server);
      ghost var latest := LatestOf(s, open);
      var id :| id in open && forall other | other in open :: logs[other].grantedAt <= logs[id].grantedAt;
      assert IsNewestOpen(s, id, server);
      assert Open(s, id, server);
      NewestIsUnique(s, server, id, NewestOpen(s, server).value);
      return Some(id);
    }

    // The log and its event; false: the audit trail refuses the event.
    method SaveLog(server: ServerId, id: LogId, r: Request) returns (ok: bool)
      modifies this`logs, this`issued, this`trail
      ensures View() == StoreLog(old(View()), server, id, r) && ok == Loggable(r)
    {
      var expiresAt := now + r.minutes * MS_PER_MINUTE;
      logs := logs[id := Log(server, r.grantedBy, now, now, expiresAt, None, None, None, false,
                             Some(r.password), false)];
      issued := issued + {id};
      ok := r.details.None? || WellFormed(r.details.value);
      Append(id, if ok then Granted else Lost);
    }

    // The body of grantAccess, at the current time. False: the call throws,
    // and what was written before stays.
    method OpenLog(server: ServerId, id: LogId, r: Request) returns (ok: bool)
      modifies this`servers, this`logs, this`issued, this`trail
      ensures View() == DoGrant(old(View()), server, id, r)
      ensures ok <==> server in servers && Storable(old(View()), r) && Loggable(r)
    {
      SetAccessEnabled(server, true, Some(now + r.minutes * MS_PER_MINUTE));
      if server !in servers {
        return false;
      }
      if r.ticket.Some? && r.ticket.value !in tickets {
        return false;
      }
      if r.details.Some? && (Characters(r.details.value) > REASON_DETAILS_LENGTH || 0 in r.details.value) {
        return false;
      }
      ok := SaveLog(server, id, r);
    }

    method GrantAccess(at: int, server: ServerId, id: LogId, r: Request) returns (ok: bool)
      requires Valid() && at > now && id !in issued
      modifies this
      ensures Valid() && View() == Step(old(View()), Grant(server, id, r), at)
      ensures ok <==> server in old(servers) && Storable(old(View()), r) && Loggable(r)
      // an unknown server changes nothing; a known one is open from now on
      ensures server !in old(servers) ==> servers == old(servers) && logs == old(logs) && trail == old(trail)
      ensures var expiresAt := at + r.minutes * 60_000;
              && (server in old(servers) ==> servers == old(servers)[server := Server(true, Some(expiresAt))])
              // with a log and its event, or with neither, or with the log alone
              && (ok ==>
                    && logs == old(logs)[id := Log(server, r.grantedBy, at, at, expiresAt, None, None, None,
                                                   false, Some(r.password), false)]
                    && trail == old(trail) + [(id, Granted)])
              && (!ok ==> logs == old(logs) || !(r.details.None? || WellFormed(r.details.value)))
      ensures r.ticket.Some? && r.ticket.value !in old(tickets) ==> !ok && logs == old(logs)
      ensures r.details.Some? && Characters(r.details.value) > 280 ==> !ok && logs == old(logs)
      ensures server in old(servers) && r.ticket.None? && r.details.None? ==> ok
    {
      Tick(at);
      GrantKeeps(View(), server, id, r);
      ok := OpenLog(server, id, r);
    }

    method FileTicket(at: int, ticket: TicketId, about: Option<ServerId>)
      requires Valid() && Enabled(View(), Op.FileTicket(ticket, about), at)
      modifies this
      ensures Valid() && View() == Step(old(View()), Op.FileTicket(ticket, about), at)
      ensures tickets == old(tickets) + {ticket}
      ensures pinned == old(pinned) + if about.Some? then {about.value} else {}
    {
      Tick(at);
      FileTicketKeeps(View(), ticket, about);
      tickets := tickets + {ticket};
      if about.Some? {
        pinned := pinned + {about.value};
      }
    }

    method BindOperation(at: int, server: ServerId)
      requires Valid() && Enabled(View(), Op.BindOperation(server), at)
      modifies this
      ensures Valid() && View() == Step(old(View()), Op.BindOperation(server), at)
      ensures pinned == old(pinned) + {server}
    {
      Tick(at);
      BindOperationKeeps(View(), server);
      pinned := pinned + {server};
    }

    method CloseLogs(server: ServerId)
      modifies this`logs
      ensures logs == map id | id in old(logs) ::
                        if Open(old(View()), id, server) then Closed(old(logs)[id], now) else old(logs)[id]
    {
      logs := map id | id in logs ::
        if logs[id].server == server && !logs[id].isRevoked
        then logs[id].(isRevoked := true, revokedAt := Some(now), password := None)
        else logs[id];
    }

    // The body of revokeAccess, at the current time.
    method CloseAll(server: ServerId, expired: bool)
      requires GrantsApart(View())
      modifies this`servers, this`logs, this`trail
      ensures View() == DoRevoke(old(View()), server, expired)
    {
      var active := FindActive(server);
      CloseLogs(server);
      SetAccessEnabled(server, false, None);
      if active.Some? {
        Append(active.value, if expired then Expired else Revoked);
      }
    }

    method RevokeAccess(at: int, server: ServerId, expired: bool)
      requires Valid() && at > now
      modifies this
      ensures Valid() && View() == Step(old(View()), Revoke(server, expired), at)
      // closed is the server, and every open log of it, with its password gone
      ensures servers == if server in old(servers) then old(servers)[server := Server(false, None)] else old(servers)
      ensures logs.Keys == old(logs).Keys
      ensures forall id | id in logs ::
                var was := old(logs)[id];
                logs[id] == if was.server == server && !was.isRevoked
                            then was.(isRevoked := true, revokedAt := Some(at), password := None) else was
      // with one event, for the one granted last
      ensures trail == old(trail) ||
              exists id | id in old(logs) ::
                && old(logs)[id].server == server && !old(logs)[id].isRevoked
                && (forall x | x in old(logs) && old(logs)[x].server == server && !old(logs)[x].isRevoked ::
                      old(logs)[x].grantedAt <= old(logs)[id].grantedAt)
                && trail == old(trail) + [(id, if expired then Expired else Revoked)]
      ensures trail == old(trail) <==>
                forall id | id in old(logs) && old(logs)[id].server == server :: old(logs)[id].isRevoked
    {
      Tick(at);
      RevokeKeeps(View(), server, expired);
      CloseAll(server, expired);
    }

    // The body of recordConnection, at the current time.
    method Bind(server: ServerId, user: UserId) returns (answer: ConnectResult)
      requires GrantsApart(View())
      modifies this`logs, this`trail
      ensures View() == DoConnect(old(View()), server, user)
      ensures answer == ConnectAnswer(old(View()), server, user)
    {
      var active := FindActive(server);
      if active.None? {
        return NoSession;
      }
      var id := active.value;
      if logs[id].accessedBy.Some? && logs[id].accessedBy.value != user {
        return Claimed(logs[id].accessedBy.value);
      }
      if logs[id].connectedAt.None? {
        BindRow(id, user);
      }
      StillNewest(old(View()), View(), server, id);
      var result := FindActive(server);
      NewestIsUnique(View(), server, id, result.value);
      return Credentials(logs[result.value].password);
    }

    method BindRow(id: LogId, user: UserId)
      requires id in logs
      modifies this`logs, this`trail
      ensures View() == Log1(old(View()).(logs := old(logs)[id := old(logs)[id].(
                               accessedBy := Some(user), connectedAt := Some(now))]), id, Connected)
    {
      logs := logs[id := logs[id].(accessedBy := Some(user), connectedAt := Some(now))];
      Append(id, Connected);
    }

    lemma StillNewest(s: State, s': State, server: ServerId, id: LogId)
      requires IsNewestOpen(s, id, server) && GrantsApart(s) && s'.logs.Keys == s.logs.Keys
      requires forall x | x in s.logs :: s'.logs[x].server == s.logs[x].server
                 && s'.logs[x].isRevoked == s.logs[x].isRevoked && s'.logs[x].grantedAt == s.logs[x].grantedAt
      ensures IsNewestOpen(s', id, server) && GrantsApart(s')
    {
      forall other | other in s'.logs && Open(s', other, server)
        ensures s'.logs[other].grantedAt <= s'.logs[id].grantedAt
      {
        assert Open(s, other, server);
      }
    }

    method RecordConnection(at: int, server: ServerId, user: UserId) returns (answer: ConnectResult)
      requires Valid() && at > now
      modifies this
      ensures Valid() && View() == Step(old(View()), Connect(server, user), at)
      ensures answer == ConnectAnswer(old(View()).(now := at), server, user)
      ensures servers == old(servers) && logs.Keys == old(logs).Keys
      // refused without an open log
      ensures answer.NoSession? <==>
                forall id | id in old(logs) && old(logs)[id].server == server :: old(logs)[id].isRevoked
      ensures !answer.Credentials? ==> logs == old(logs) && trail == old(trail)
    {
      Tick(at);
      ConnectKeeps(View(), server, user);
      answer := Bind(server, user);
    }

    // One turn of the sweep, deciding on the server as it was read.
    method CloseIfOverdue(id: ServerId, read: map<ServerId, Server>)
      requires Valid()
      modifies this`servers, this`logs, this`trail
      ensures Valid()
      ensures View() == if id in read && Overdue(read[id], now) then DoRevoke(old(View()), id, true) else old(View())
    {
      if id in read && read[id].enabled && read[id].expiresAt.Some? && read[id].expiresAt.value < now {
        RevokeKeeps(View(), id, true);
        CloseAll(id, true);
      }
    }

    method CheckAndRevokeExpired(at: int, order: seq<ServerId>)
      requires Valid() && Enabled(View(), Sweep(order), at)
      modifies this
      ensures Valid() && View() == Step(old(View()), Sweep(order), at)
      // closed are the servers past their expiry and their open logs, no others
      ensures servers.Keys == old(servers).Keys && logs.Keys == old(logs).Keys
      ensures forall v | v in servers ::
                var was := old(servers)[v];
                servers[v] == if was.enabled && was.expiresAt.Some? && was.expiresAt.value < at
                              then Server(false, None) else was
      ensures forall id | id in logs ::
                var was := old(logs)[id];
                logs[id] == if !was.isRevoked && IsPast(old(servers), was.server, at)
                            then was.(isRevoked := true, revokedAt := Some(at), password := None) else was
    {
      ghost var was := View();
      Tick(at);
      ghost var s := View();
      SweepTables(servers, order);
      SweepKeepsKeys(s, s.servers, order);
      SweepServers(s, s.servers, order);
      forall v | v in servers
        ensures servers[v] == if Overdue(was.servers[v], at) then Server(false, None) else was.servers[v]
      {
        SweepEffect(s, s.servers, order, v);
      }
      forall id | id in logs
        ensures logs[id] == if !was.logs[id].isRevoked && IsPast(was.servers, was.logs[id].server, at)
                            then Closed(was.logs[id], at) else was.logs[id]
      {
        SweepLog(s, s.servers, order, id);
        assert LogOk(s, id);
      }
    }

    predicate IsPast(servers: map<ServerId, Server>, v: ServerId, at: int)
      ensures IsPast(servers, v, at) <==>
                v in servers && servers[v].enabled && servers[v].expiresAt.Some? && servers[v].expiresAt.value < at
    {
      v in servers && servers[v].enabled && servers[v].expiresAt.Some? && servers[v].expiresAt.value < at
    }

    method SweepTables(read: map<ServerId, Server>, order: seq<ServerId>)
      requires Valid()
      modifies this`servers, this`logs, this`trail
      ensures Valid() && View() == DoSweep(old(View()), read, order)
    {
      for i := 0 to |order|
        invariant Valid()
        invariant View() == DoSweep(old(View()), read, order[..i])
      {
        assert order[..i + 1][..i] == order[..i];
        CloseIfOverdue(order[i], read);
      }
      assert order[..|order|] == order;
    }

    method UpdateHold(id: LogId, hold: bool)
      modifies this`logs
      ensures View() == DoHold(old(View()), id, hold)
    {
      if id in logs {
        logs := logs[id := logs[id].(hold := hold)];
      }
    }

    method SetRetentionHold(at: int, id: LogId, hold: bool)
      requires Valid() && at > now
      modifies this
      ensures Valid() && View() == Step(old(View()), Hold(id, hold), at)
      ensures logs == if id in old(logs) then old(logs)[id := old(logs)[id].(hold := hold)] else old(logs)
      ensures servers == old(servers) && trail == old(trail)
    {
      Tick(at);
      HoldKeeps(View(), id, hold);
      UpdateHold(id, hold);
    }

    method DeleteClosed(days: nat) returns (affected: nat)
      modifies this`logs
      ensures View() == DoPurge(old(View()), days)
      ensures affected == |old(logs).Keys - logs.Keys|
    {
      var cutoff := now - days * MS_PER_DAY;
      var gone := set id | id in logs && logs[id].isRevoked && !logs[id].hold && logs[id].createdAt < cutoff;
      ghost var before := logs;
      affected := |gone|;
      logs := map id | id in logs && id !in gone :: logs[id];
      assert logs == map id | id in before && !Purgeable(before[id], cutoff) :: before[id];
      assert before.Keys - logs.Keys == gone;
    }

    // Gone are the closed logs without a hold created before the window.
    method PurgeExpiredLogs(at: int, days: nat) returns (affected: nat)
      requires Valid() && at > now
      modifies this
      ensures Valid() && View() == Step(old(View()), Purge(days), at)
      ensures affected == |old(logs).Keys - logs.Keys|
      ensures forall id | id in old(logs) ::
                var log := old(logs)[id];
                id !in logs <==> log.isRevoked && !log.hold && log.createdAt + days * 24 * 60 * 60 * 1000 < at
      ensures forall id | id in logs :: id in old(logs) && logs[id] == old(logs)[id]
    {
      Tick(at);
      PurgeKeeps(View(), days);
      PurgeInWords(View(), days);
      affected := DeleteClosed(days);
    }

    // The logs of the server first, then the server; false: that is refused.
    method DeleteServer(at: int, id: ServerId) returns (ok: bool)
      requires Valid() && at > now
      modifies this
      ensures Valid() && View() == Step(old(View()), Op.DeleteServer(id), at)
      ensures ok <==> id !in pinned
      ensures servers == if ok then old(servers) - {id} else old(servers)
      ensures logs == map x | x in old(logs) && old(logs)[x].server != id :: old(logs)[x]
      ensures trail == old(trail)
    {
      Tick(at);
      DeleteServerKeeps(View(), id);
      logs := map x | x in logs && logs[x].server != id :: logs[x];
      if id in pinned {
        return false;
      }
      servers, owners := servers - {id}, owners - {id};
      ok := true;
    }

    method ClearLogsOf(user: UserId)
      modifies this`logs
      ensures View() == ClearOwned(old(View()), user)
    {
      logs := map x | x in logs && !(logs[x].server in owners && owners[logs[x].server] == user) :: logs[x];
    }

    // What follows once the user's servers can be deleted.
    method EraseRest(user: UserId)
      modifies this`servers, this`owners, this`logs
      ensures servers == map v | v in old(servers) && !Owns(old(View()), user, v) :: old(servers)[v]
      ensures owners == map v | v in old(owners) && old(owners)[v] != user :: old(owners)[v]
      ensures logs == map x | x in old(logs) && !Touches(old(logs)[x], user) :: old(logs)[x]
    {
      servers := map v | v in servers && !(v in owners && owners[v] == user) :: servers[v];
      owners := map v | v in owners && owners[v] != user :: owners[v];
      logs := map x | x in logs && !Touches(logs[x], user) :: logs[x];
    }

    // False: the user's servers are referenced.
    method EraseUnlessHeld(user: UserId) returns (ok: bool)
      modifies this`servers, this`owners, this`logs
      ensures View() == DoDeleteUser(old(View()), user)
      ensures ok <==> !Blocked(old(View()), user)
    {
      ghost var was := View();
      ClearLogsOf(user);
      var held := set v | v in pinned && v in servers && v in owners && owners[v] == user;
      assert held == {} <==> !Blocked(was, user) by {
        if Blocked(was, user) {
          var v :| v in was.pinned && v in was.servers && Owns(was, user, v);
          assert v in held;
        }
      }
      if held != {} {
        return false;
      }
      EraseRest(user);
      assert logs == EraseUser(was, user).logs;
      assert servers == EraseUser(was, user).servers && owners == EraseUser(was, user).owners;
      ok := true;
    }

    // The logs of the user's own servers, these servers, and then every log
    // that the user granted or connected to.
    method DeleteUser(at: int, user: UserId) returns (ok: bool)
      requires Valid() && at > now
      modifies this
      ensures Valid() && View() == Step(old(View()), Op.DeleteUser(user), at)
      ensures ok <==> !Blocked(old(View()), user)
      // what goes: the user's servers if none is referenced, their logs in any
      // case, and with the servers the logs that the user granted or holds
      ensures ok <==> forall v | v in old(servers) && v in old(owners) && old(owners)[v] == user :: v !in old(pinned)
      ensures servers == map v |
                v in old(servers) && !(ok && v in old(owners) && old(owners)[v] == user) :: old(servers)[v]
      ensures logs == map x | x in old(logs) && var log := old(logs)[x];
                        && !(log.server in old(owners) && old(owners)[log.server] == user)
                        && !(ok && (log.grantedBy == user || log.accessedBy == Some(user))) :: old(logs)[x]
      ensures trail == old(trail)
    {
      Tick(at);
      DeleteUserKeeps(View(), user);
      ok := EraseUnlessHeld(user);
    }
  }
}
