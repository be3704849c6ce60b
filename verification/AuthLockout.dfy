/** AuthLockout of internal/middleware/lockout.go as a class over mutable per-IP records. */
module AuthLockouts {
  import opened Basics
  import L = LockoutSpec
  import E = LockoutEviction

  class IPRecord {
    var failures: int
    var lockedAt: Option<Time>
    var resetAt: Option<Time>

    constructor ()
      ensures View() == L.EMPTY && failures == 0 && lockedAt == None && resetAt == None
    {
      failures, lockedAt, resetAt := 0, None, None;
    }

    function View(): L.Rec
      reads this
    {
      L.Rec(failures, lockedAt, resetAt)
    }

    /** Count a failure, from zero again when the last one is too long ago. */
    method Fail(c: L.Config, now: Time) returns (locked: bool)
      modifies this
      ensures (View(), locked) == L.RecordFailure(c, old(View()), now)
      ensures resetAt == Some(now + c.window)
      ensures var past := old(resetAt).Some? && old(resetAt).value < now;
              && failures == (if past then 1 else old(failures) + 1)
              && (locked <==> failures >= c.threshold && (past || old(lockedAt) == None))
              && lockedAt == (if locked then Some(now) else if past then None else old(lockedAt))
    {
      if resetAt.Some? && resetAt.value < now {
        failures := 0;
        lockedAt := None;
      }
      failures := failures + 1;
      resetAt := Some(now + c.window);
      if failures >= c.threshold && lockedAt == None {
        lockedAt := Some(now);
        return true;
      }
      return false;
    }

    method Clear()
      modifies this
      ensures View() == L.EMPTY && failures == 0 && lockedAt == None && resetAt == None
    {
      failures, lockedAt, resetAt := 0, None, None;
    }
  }

  class AuthLockout {
    const config: L.Config
    var records: map<string, IPRecord>

    /** Every IP has a record object of its own. */
    ghost predicate Valid()
      reads this
    {
      forall ip, other :: ip in records && other in records && records[ip] == records[other] ==> ip == other
    }

    function View(): map<string, L.Rec>
      reads this, records.Values
    {
      map ip | ip in records :: records[ip].View()
    }

    constructor (threshold: int, lockoutDuration: Time, windowDuration: Time)
      ensures Valid() && View() == map[] && config == L.Config(threshold, lockoutDuration, windowDuration)
      ensures fresh(records.Values)
    {
      config := L.Config(threshold, lockoutDuration, windowDuration);
      records := map[];
    }

    method GetOrCreate(ip: string) returns (rec: IPRecord)
      requires Valid()
      modifies this
      ensures Valid() && ip in records && records[ip] == rec && fresh(records.Values - old(records.Values))
      ensures ip in old(records) ==> records == old(records)
      ensures ip !in old(records) ==> fresh(rec) && records == old(records)[ip := rec]
      ensures View() == old(View())[ip := E.OrEmpty(Lookup(old(View()), ip))]
    {
      if ip in records {
        return records[ip];
      }
      rec := new IPRecord();
      records := records[ip := rec];
    }

    method RecordFailure(ip: string, now: Time) returns (locked: bool)
      requires Valid()
      modifies this, records.Values
      ensures Valid() && fresh(records.Values - old(records.Values))
      ensures View() == E.Step(config, old(View()), E.Failure(ip, now))
      ensures locked == L.RecordFailure(config, E.OrEmpty(Lookup(old(View()), ip)), now).1
    {
      var rec := GetOrCreate(ip);
      ghost var mid := View();
      assert rec.View() == mid[ip];
      locked := rec.Fail(config, now);
      assert View() == mid[ip := rec.View()];
    }

    method RecordSuccess(ip: string)
      requires Valid()
      modifies this, records.Values
      ensures Valid() && fresh(records.Values - old(records.Values))
      ensures View() == old(View())[ip := L.EMPTY]
    {
      var rec := GetOrCreate(ip);
      ghost var mid := View();
      rec.Clear();
      assert View() == mid[ip := rec.View()];
    }

    method IsLocked(ip: string, now: Time) returns (locked: bool)
      requires Valid()
      modifies records.Values
      ensures Valid() && records == old(records)
      ensures View() == E.Step(config, old(View()), E.Check(ip, now))
      ensures locked == L.IsLocked(config, E.OrEmpty(Lookup(old(View()), ip)), now).1
    {
      if ip !in records {
        return false;
      }
      ghost var before := View();
      var rec := records[ip];
      if rec.lockedAt == None {
        locked := false;
      } else if now - rec.lockedAt.value >= config.lockout {
        rec.lockedAt := None;
        rec.failures := 0;
        locked := false;
      } else {
        locked := true;
      }
      assert View() == before[ip := rec.View()];
    }

    method UnlockIn(ip: string, now: Time) returns (secs: int)
      requires Valid()
      ensures secs == L.UnlockIn(config, E.OrEmpty(Lookup(View(), ip)), now)
    {
      if ip !in records || records[ip].lockedAt == None {
        return 0;
      }
      var remaining := config.lockout - (now - records[ip].lockedAt.value);
      secs := if remaining <= 0 then 0 else remaining / SECOND + 1;
    }

    /** The middleware: a locked IP is refused before its key is looked at. */
    method Wrap(ip: string, a: L.Attempt) returns (verdict: L.Verdict)
      requires Valid()
      modifies this, records.Values
      ensures Valid() && fresh(records.Values - old(records.Values))
      ensures (E.OrEmpty(Lookup(View(), ip)), verdict) ==
              L.Judge(config, E.OrEmpty(Lookup(old(View()), ip)), a)
      ensures forall other :: other != ip ==> Lookup(View(), other) == Lookup(old(View()), other)
    {
      var locked := IsLocked(ip, a.asked);
      if locked {
        return L.Refused;
      }
      if !a.good {
        var _ := RecordFailure(ip, a.judged);
        return L.Failed;
      }
      RecordSuccess(ip);
      return L.Passed;
    }

    /** The background loop over the map, deleting as it goes. */
    method Cleanup(now: Time)
      requires Valid()
      modifies this
      ensures Valid() && records.Values <= old(records.Values)
      ensures View() == E.Step(config, old(View()), E.Cleanup(now))
      ensures forall ip :: ip in records <==>
                ip in old(records) && (old(records[ip].lockedAt).Some? ||
                  (old(records[ip].resetAt).Some? && old(records[ip].resetAt).value >= now - 2 * config.lockout))
    {
      var cutoff := now - config.lockout * 2;
      var todo := records.Keys;
      while todo != {}
        invariant todo <= records.Keys <= old(records).Keys
        invariant forall ip :: ip in records ==> records[ip] == old(records)[ip]
        invariant forall ip :: ip in old(records) && ip !in todo ==>
                    (ip in records <==> !E.Stale(config, old(records)[ip].View(), now))
        decreases todo
      {
        var ip :| ip in todo;
        var rec := records[ip];
        if rec.lockedAt == None && (rec.resetAt == None || rec.resetAt.value < cutoff) {
          records := records - {ip};
        }
        todo := todo - {ip};
      }
    }
  }
}
