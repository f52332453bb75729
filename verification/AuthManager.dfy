/** The session store and the manager in front of it, method by method; Sessions and
    FailureWindows say what these methods add up to when calls and crashes interleave. */
module AuthManager {
  import opened Common
  import S = Sessions
  import W = FailureWindows

  type Token = S.Token
  type Address = W.Address

  /** The rows with the tokens still to visit left out. */
  function Adopted(sessions: map<Token, int>, live: map<Token, int>, rest: set<Token>): map<Token, int> {
    sessions + (live - rest)
  }

  lemma AdoptOne(sessions: map<Token, int>, live: map<Token, int>, rest: set<Token>, t: Token)
    requires t in rest && t in live
    ensures Adopted(sessions, live, rest - {t}) == Adopted(sessions, live, rest)[t := live[t]]
  {}

  /** Every statement may fail, and then changes nothing. */
  class SqlSessionStore {
    var db: S.Db

    constructor ()
      ensures db == S.Db(map[], None)
    {
      db := S.Db(map[], None);
    }

    method Save(token: Token, expiry: int) returns (ok: bool)
      modifies this
      ensures db == if ok then S.Save(old(db), token, expiry) else old(db)
      ensures ok ==> db.sessions == old(db.sessions)[token := expiry / 1_000_000]
    {
      ok := *;
      if ok {
        db := db.(sessions := db.sessions[token := S.Millis(expiry)]);
      }
    }

    method Delete(token: Token) returns (ok: bool)
      modifies this
      ensures db == if ok then S.Delete(old(db), token) else old(db)
    {
      ok := *;
      if ok {
        db := db.(sessions := db.sessions - {token});
      }
    }

    method DeleteExpired(now: int) returns (ok: bool)
      modifies this
      ensures db == if ok then S.DeleteExpired(old(db), now) else old(db)
      ensures ok ==> forall t :: t in db.sessions <==> t in old(db.sessions) && old(db.sessions)[t] > now / 1_000_000
    {
      ok := *;
      if ok {
        var gone := set t | t in db.sessions && db.sessions[t] <= S.Millis(now);
        db := db.(sessions := db.sessions - gone);
        assert db.sessions == S.DeleteExpired(old(db), now).sessions;
      }
    }

    /** One transaction, rolled back by an error anywhere. No recorded fingerprint reads as the
        empty string, which no credential has. */
    method Rebind(fingerprint: string) returns (ok: bool)
      requires fingerprint != "" && db.credential != Some("")
      modifies this
      ensures db == if ok then S.Rebind(old(db), fingerprint) else old(db)
      ensures ok ==> db.credential == Some(fingerprint)
      ensures ok ==> db.sessions == if old(db.credential) == Some(fingerprint) then old(db.sessions) else map[]
    {
      var before := db;
      var stored := if db.credential.Some? then db.credential.value else "";
      if stored != fingerprint {
        ok := *;
        if !ok {
          return;
        }
        db := db.(sessions := map[]);
      }
      ok := *;
      if !ok {
        db := before;
        return;
      }
      db := db.(credential := Some(fingerprint));
    }

    method Live(now: int) returns (out: Option<map<Token, int>>)
      ensures out.Some? ==> out.value == S.Live(db, now)
      ensures out.Some? ==> forall t :: t in out.value <==> t in db.sessions && db.sessions[t] > now / 1_000_000
      ensures out.Some? ==> forall t :: t in out.value ==> out.value[t] == db.sessions[t] * 1_000_000
    {
      var rows := set t | t in db.sessions && db.sessions[t] > S.Millis(now);
      var rest := rows;
      var found: map<Token, int> := map[];
      while rest != {}
        invariant rest <= rows
        invariant found == S.Live(db, now) - rest
      {
        var read: bool := *;
        if !read {
          return None;
        }
        var t :| t in rest;
        found, rest := found[t := db.sessions[t] * S.MILLI], rest - {t};
      }
      var ok: bool := *;
      out := if ok then Some(found) else None;
    }
  }

  datatype PersistError = NotRebound | NotLoaded | NotCleaned

  datatype LoginResult = LoggedIn(expiry: int) | NothingToLogInto | RateLimited | BadCredentials | Failed

  class Manager {
    const username: string
    const hash: string
    const ttl: nat
    var sessions: map<Token, int>
    var failures: W.Failures
    var global: W.Counter
    var store: SqlSessionStore?

    constructor (username: string, hash: string, ttlHours: int)
      ensures this.username == username && this.hash == hash
      ensures ttl == (if ttlHours <= 0 then 720 else ttlHours) * 3600 * W.SECOND
      ensures sessions == map[] && Limits() == W.Limits(map[], W.ZERO) && store == null
    {
      this.username, this.hash := username, hash;
      ttl := (if ttlHours <= 0 then 720 else ttlHours) * 3600 * W.SECOND;
      sessions, failures, global, store := map[], map[], W.ZERO, null;
    }

    function Limits(): W.Limits
      reads this
    {
      W.Limits(failures, global)
    }

    predicate Enabled() {
      username != "" && hash != ""
    }

    /** Rebind first: what is adopted afterwards was issued under this very hash. Without it
        nothing is adopted, but the store is attached all the same. */
    method Persist(store: SqlSessionStore?, now: int) returns (error: Option<PersistError>)
      requires store != null ==> store.db.credential != Some("")
      modifies this`sessions, this`store, store
      ensures store == null ==> error.None? && sessions == old(sessions) && this.store == old(this.store)
      ensures store != null ==>
                var bound := S.Rebind(old(store.db), S.Fingerprint(hash));
                this.store == store &&
                match error
                case Some(NotRebound) => store.db == old(store.db) && sessions == old(sessions)
                case Some(NotLoaded) => store.db == bound && sessions == old(sessions)
                case Some(NotCleaned) => store.db == bound && sessions == old(sessions) + S.Live(bound, now)
                case None => store.db == S.DeleteExpired(bound, now) && sessions == old(sessions) + S.Live(bound, now)
    {
      if store == null {
        return None;
      }
      var ok := store.Rebind(S.Fingerprint(hash));
      if !ok {
        this.store := store;
        return Some(NotRebound);
      }
      var live := store.Live(now);
      this.store := store;
      if live.None? {
        return Some(NotLoaded);
      }
      AdoptAll(live.value);
      ok := store.DeleteExpired(now);
      error := if ok then None else Some(NotCleaned);
    }

    method AdoptAll(live: map<Token, int>)
      modifies this`sessions
      ensures sessions == old(sessions) + live
    {
      var rest := live.Keys;
      assert sessions == Adopted(sessions, live, rest);
      while rest != {}
        invariant rest <= live.Keys
        invariant sessions == Adopted(old(sessions), live, rest)
      {
        var t :| t in rest;
        AdoptOne(old(sessions), live, rest, t);
        sessions, rest := sessions[t := live[t]], rest - {t};
      }
      assert Adopted(old(sessions), live, {}) == old(sessions) + live;
    }

    method IsRateLimited(ip: Address, now: int) returns (limited: bool)
      modifies this`failures, this`global
      ensures limited == W.Limited(old(Limits()), ip, now)
      ensures limited <==>
                || (old(global).count >= 100 && now - old(global).first <= 5 * 60 * W.SECOND)
                || (ip in old(failures) && old(failures)[ip].count >= 5
                    && now - old(failures)[ip].first <= 15 * 60 * W.SECOND)
      ensures Limits() == W.Checked(old(Limits()), ip, now)
    {
      if global.count > 0 && now - global.first > W.GLOBAL_WINDOW {
        global := W.ZERO;
      }
      if global.count >= W.GLOBAL_MAX {
        return true;
      }
      if ip !in failures {
        return false;
      }
      var f := failures[ip];
      if now - f.first > W.FAIL_WINDOW {
        failures := failures - {ip};
        return false;
      }
      return f.count >= W.MAX_FAILURES;
    }

    method PruneFailures(now: int)
      modifies this`failures
      ensures failures == W.Prune(old(failures), now)
      ensures forall ip :: ip in failures <==>
          ip in old(failures) && now - old(failures)[ip].first <= 15 * 60 * W.SECOND
      ensures forall ip :: ip in failures ==> failures[ip] == old(failures)[ip]
    {
      var rest := failures.Keys;
      while rest != {}
        invariant rest <= old(failures).Keys
        invariant failures == map ip | ip in old(failures)
            && (ip in rest || !W.Over(old(failures)[ip], W.FAIL_WINDOW, now)) :: old(failures)[ip]
      {
        var ip :| ip in rest;
        if now - failures[ip].first > W.FAIL_WINDOW {
          failures := failures - {ip};
        }
        rest := rest - {ip};
      }
    }

    method RecordFailure(ip: Address, now: int)
      modifies this`failures, this`global
      ensures Limits() == W.Record(old(Limits()), ip, now)
    {
      if global.count == 0 || now - global.first > W.GLOBAL_WINDOW {
        global := W.Counter(1, now);
      } else {
        global := global.(count := global.count + 1);
      }
      if ip in failures {
        var f := failures[ip];
        if now - f.first > W.FAIL_WINDOW {
          failures := failures[ip := W.Counter(1, now)];
        } else {
          failures := failures[ip := f.(count := f.count + 1)];
        }
        return;
      }
      if |failures| >= W.MAX_ENTRIES {
        PruneFailures(now);
        if |failures| >= W.MAX_ENTRIES {
          return;
        }
      }
      failures := failures[ip := W.Counter(1, now)];
    }

    /** The end of a successful login: the session is in memory before it is in the store, and
        stays there if it cannot be stored. */
    method Issue(ip: Address, token: Token, expiry: int) returns (stored: bool)
      modifies this`sessions, this`failures, this`global, store
      ensures store == old(store)
      ensures sessions == old(sessions)[token := expiry]
      ensures Limits() == W.Forgive(old(Limits()), ip)
      ensures store != null ==> store.db == if stored then S.Save(old(store.db), token, expiry) else old(store.db)
    {
      stored := false;
      sessions := sessions[token := expiry];
      failures := failures - {ip};
      global := W.ZERO;
      if store != null {
        stored := store.Save(token, expiry);
      }
    }

    /** verified: what the password check came to, None when it gave up or failed; minted: a new
        random token, None when there is no randomness. A login alone, without interleaving. */
    method Login(ip: Address, user: string, verified: Option<bool>, minted: Option<Token>, now: int)
      returns (r: LoginResult, stored: bool)
      modifies this`sessions, this`failures, this`global, store
      ensures store == old(store)
      ensures !Enabled() ==> r == NothingToLogInto && Limits() == old(Limits())
      ensures Enabled() ==>
                var l := W.Checked(old(Limits()), ip, now);
                if W.Limited(old(Limits()), ip, now) then r == RateLimited && Limits() == l
                else if verified.None? then r == Failed && Limits() == l
                else if user != username || !verified.value then r == BadCredentials && Limits() == W.Record(l, ip, now)
                else if minted.None? then r == Failed && Limits() == l
                else
                  && r == LoggedIn(now + ttl) && Limits() == W.Forgive(l, ip)
                  && sessions == old(sessions)[minted.value := now + ttl]
                  && (store != null && stored ==> store.db == S.Save(old(store.db), minted.value, now + ttl))
      ensures !r.LoggedIn? || !stored ==> store != null ==> store.db == old(store.db)
      ensures !r.LoggedIn? ==> sessions == old(sessions)
    {
      stored := false;
      if !Enabled() {
        return NothingToLogInto, false;
      }
      var limited := IsRateLimited(ip, now);
      if limited {
        return RateLimited, false;
      }
      if verified.None? {
        return Failed, false;
      }
      if user != username || !verified.value {
        RecordFailure(ip, now);
        return BadCredentials, false;
      }
      if minted.None? {
        return Failed, false;
      }
      stored := Issue(ip, minted.value, now + ttl);
      r := LoggedIn(now + ttl);
    }

    /** A missing or empty cookie names no session. deleted: whether the store was reached. */
    method Logout(cookie: Option<Token>) returns (deleted: bool)
      modifies this`sessions, store
      ensures store == old(store)
      ensures var named := cookie.Some? && cookie.value != "";
              && sessions == (if named then old(sessions) - {cookie.value} else old(sessions))
              && (deleted ==> named)
              && (store != null ==> store.db == if deleted then S.Delete(old(store.db), cookie.value)
                  else old(store.db))
    {
      deleted := false;
      if cookie.Some? && cookie.value != "" {
        sessions := sessions - {cookie.value};
        if store != null {
          deleted := store.Delete(cookie.value);
        }
      }
    }

    method Authenticated(cookie: Option<Token>, now: int) returns (yes: bool, deleted: bool)
      modifies this`sessions, store
      ensures store == old(store)
      ensures yes <==> !Enabled() || (cookie.Some? && cookie.value != "" && S.Accepts(old(sessions), cookie.value, now))
      ensures var dropped := Enabled() && cookie.Some? && cookie.value != ""
          && S.Expired(old(sessions), cookie.value, now);
              && sessions == (if dropped then old(sessions) - {cookie.value} else old(sessions))
              && (deleted ==> dropped)
              && (store != null ==> store.db == if deleted then S.Delete(old(store.db), cookie.value)
                  else old(store.db))
    {
      deleted := false;
      if !Enabled() {
        return true, false;
      }
      if cookie.None? || cookie.value == "" {
        return false, false;
      }
      var token := cookie.value;
      var ok := token in sessions;
      var expired := ok && now > sessions[token];
      if expired {
        sessions := sessions - {token};
        if store != null {
          deleted := store.Delete(token);
        }
      }
      yes := ok && !expired;
    }

    method Reap(now: int) returns (deleted: bool)
      modifies this`sessions, this`failures, store
      ensures store == old(store)
      ensures sessions == S.Reaped(old(sessions), now)
      ensures forall t :: t in sessions <==> t in old(sessions) && now <= old(sessions)[t]
      ensures forall ip :: ip in failures <==>
          ip in old(failures) && now - old(failures)[ip].first <= 15 * 60 * W.SECOND
      ensures failures == W.Prune(old(failures), now)
      ensures store != null ==> store.db == if deleted then S.DeleteExpired(old(store.db), now) else old(store.db)
    {
      deleted := false;
      var rest := sessions.Keys;
      while rest != {}
        invariant rest <= old(sessions).Keys && store == old(store)
        invariant failures == old(failures) && (store != null ==> store.db == old(store.db))
        invariant sessions == map t | t in old(sessions) && (t in rest || now <= old(sessions)[t]) :: old(sessions)[t]
      {
        var t :| t in rest;
        if now > sessions[t] {
          sessions := sessions - {t};
        }
        rest := rest - {t};
      }
      PruneFailures(now);
      if store != null {
        deleted := store.DeleteExpired(now);
      }
    }
  }
}
