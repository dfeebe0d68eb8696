/**
 The policy engine's cache as one caller drives it. What other transactions commit between its reads, and which reads
 fail, are parameters; the interleaving of many callers is in PolicyRuns.
 */
module PolicyEngine {
  import opened Basics
  import opened Scopes
  import opened PolicyTables
  import opened PolicyDecision

  // ---------------------------------------------------------------------------------------------
  // Commits that leave the revision alone
  // ---------------------------------------------------------------------------------------------

  /**
   What a commit may do without raising the revision: the users table carries no revision trigger. Users are disabled,
   never enabled again, and a new user has no membership yet.
   */
  ghost predicate UsersOnly(before: Tables, after: Tables) {
    && after == before.(users := after.users)
    && (forall u <- before.users :: u in after.users && (before.users[u].disabled ==> after.users[u].disabled))
    && (forall m <- before.memberships | before.memberships[m].userId in after.users ::
          before.memberships[m].userId in before.users)
  }

  lemma UsersOnlyComposes(a: Tables, b: Tables, c: Tables)
    requires UsersOnly(a, b) && UsersOnly(b, c)
    ensures UsersOnly(a, c) && UsersOnly(a, a)
  {
  }

  /** The caller's own flag is up to date: a user disabled in the tables is known to be disabled. */
  ghost predicate KnownEnabled(t: Tables, caller: Principal) {
    caller.userId in t.users && t.users[caller.userId].disabled ==> caller.disabled
  }

  lemma LiveMemberUnchanged(before: Tables, after: Tables, m: Uuid)
    requires UsersOnly(before, after) && m in before.memberships
    requires before.memberships[m].userId in after.users ==> !after.users[before.memberships[m].userId].disabled
    ensures LiveMember(before, m) <==> LiveMember(after, m)
  {
  }

  lemma GrantsUnchanged(before: Tables, after: Tables, user: Uuid, act: string, scope: Scope)
    requires UsersOnly(before, after) && (user in after.users ==> !after.users[user].disabled)
    ensures GrantedAt(before, user, act, scope) <==> GrantedAt(after, user, act, scope)
    ensures DeniedAt(before, user, act, scope) <==> DeniedAt(after, user, act, scope)
  {
    forall m | m in before.memberships && before.memberships[m].userId == user
      ensures LiveMember(before, m) <==> LiveMember(after, m)
    {
      LiveMemberUnchanged(before, after, m);
    }
    forall m, row
      ensures PlatformGrantCovers(before, m, row, user, act, scope)
              <==> PlatformGrantCovers(after, m, row, user, act, scope)
      ensures GrantCovers(before, m, row, user, act, scope) <==> GrantCovers(after, m, row, user, act, scope)
      ensures DenyCovers(before, m, row, user, act, scope) <==> DenyCovers(after, m, row, user, act, scope)
    {
    }
  }

  /**
   A cache that misses such commits decides as if it had seen them, for every caller whose own flag is up to date:
   the rules of disabled users linger, but those users are refused before the rules are looked at.
   */
  lemma MissedUserChangesDecideAlike(before: Tables, after: Tables, caller: Principal, act: string, scope: Scope)
    requires UsersOnly(before, after) && KnownEnabled(after, caller)
    ensures Authorize(EffectivePolicy(before), caller, act, scope)
         == Authorize(EffectivePolicy(after), caller, act, scope)
  {
    if !caller.disabled {
      DecisionFromTables(before, caller, act, scope);
      DecisionFromTables(after, caller, act, scope);
      GrantsUnchanged(before, after, caller.userId, act, scope);
    }
  }

  datatype EngineError = ReadFailed | BadRequest

  /** A decision over loaded rules, with the engine's errors. */
  function Decided(rules: set<Rule>, caller: Principal, act: string, scope: Scope): Result<bool, EngineError> {
    var decision := Authorize(rules, caller, act, scope);
    if decision.Err? then Err(BadRequest) else Ok(decision.value)
  }

  /** Rules loaded from tables from which only users have changed since. */
  ghost predicate Reflects(rules: set<Rule>, t: Tables) {
    exists loaded :: rules == EffectivePolicy(loaded) && UsersOnly(loaded, t)
  }

  lemma ReflectingRulesDecide(rules: set<Rule>, t: Tables, caller: Principal, act: string, scope: Scope)
    requires Reflects(rules, t) && KnownEnabled(t, caller)
    ensures Decided(rules, caller, act, scope) == Decided(EffectivePolicy(t), caller, act, scope)
  {
    var loaded :| rules == EffectivePolicy(loaded) && UsersOnly(loaded, t);
    MissedUserChangesDecideAlike(loaded, t, caller, act, scope);
  }

  lemma LoadedRulesReflect(t: Tables)
    ensures Reflects(EffectivePolicy(t), t)
  {
    assert UsersOnly(t, t);
  }

  // ---------------------------------------------------------------------------------------------
  // The source and the cache
  // ---------------------------------------------------------------------------------------------

  /** What one transaction, or several taken together, commit: the new tables and how far the revision rises. */
  datatype Change = Change(tables: Tables, statements: nat)

  /** A change that raises no revision touches users only. */
  ghost predicate Possible(t: Tables, change: Change) {
    change.statements == 0 ==> UsersOnly(t, change.tables)
  }

  /** The committed policy and its revision counter. */
  class PolicySource {
    var tables: Tables
    var revision: nat

    constructor (tables: Tables, revision: nat)
      ensures this.tables == tables && this.revision == revision
    {
      this.tables := tables;
      this.revision := revision;
    }

    /** Each statement on a policy table raises the revision; without any, only users have changed. */
    method Commit(change: Change)
      requires Possible(tables, change)
      modifies this
      ensures tables == change.tables && revision == old(revision) + change.statements
      ensures revision == old(revision) ==> UsersOnly(old(tables), tables)
    {
      tables := change.tables;
      revision := revision + change.statements;
    }
  }

  /** What happens around the reads of one load: failures, and the commits between its two reads. */
  datatype LoadWeather = LoadWeather(policyFails: bool, between: Option<Change>, revisionFails: bool)

  const CALM: LoadWeather := LoadWeather(false, None, false)

  class Engine {
    const source: PolicySource
    var rules: set<Rule>
    var revision: nat

    constructor (source: PolicySource, rules: set<Rule>, revision: nat)
      ensures this.source == source && this.rules == rules && this.revision == revision
    {
      this.source, this.rules, this.revision := source, rules, revision;
    }

    /**
     The tag is not ahead of the source; at the source's revision the rules are those of tables from which only users
     have changed since.
     */
    ghost predicate TagIsTruthful()
      reads this, source
    {
      && revision <= source.revision
      && (revision == source.revision ==> Reflects(rules, source.tables))
    }

    /**
     Reads the policy and then the revision. A failed policy read changes nothing; a failed revision read leaves the
     new rules under the old tag; a commit in between leaves the rules of the tables before it under its revision.
     */
    method Reload(weather: LoadWeather) returns (ok: bool)
      requires weather.between.Some? ==> Possible(source.tables, weather.between.value)
      modifies this, source
      ensures ok <==> !weather.policyFails && !weather.revisionFails
      ensures weather.policyFails ==>
                && rules == old(rules)
                && source.tables == old(source.tables)
                && source.revision == old(source.revision)
      ensures !weather.policyFails ==>
                && rules == EffectivePolicy(old(source.tables))
                && (weather.between == None ==>
                      source.tables == old(source.tables) && source.revision == old(source.revision))
                && (weather.between != None ==>
                      && source.tables == weather.between.value.tables
                      && source.revision == old(source.revision) + weather.between.value.statements)
      ensures revision == (if ok then source.revision else old(revision)) && source.revision >= old(source.revision)
    {
      if weather.policyFails {
        return false;
      }
      rules := EffectivePolicy(source.tables);
      if weather.between.Some? {
        source.Commit(weather.between.value);
      }
      if weather.revisionFails {
        return false;
      }
      revision := source.revision;
      return true;
    }

    /** Reloads exactly when the source's revision is newer than the tag. */
    method ReloadIfStale(currentFails: bool, weather: LoadWeather) returns (ok: bool)
      requires weather.between.Some? ==> Possible(source.tables, weather.between.value)
      modifies this, source
      ensures currentFails || old(source.revision) <= old(revision) ==>
                && ok == !currentFails && rules == old(rules) && revision == old(revision)
                && source.tables == old(source.tables) && source.revision == old(source.revision)
      ensures !currentFails && old(source.revision) > old(revision) ==>
                && (ok <==> !weather.policyFails && !weather.revisionFails)
                && (!weather.policyFails ==> rules == EffectivePolicy(old(source.tables)))
                && revision == (if ok then source.revision else old(revision))
                && source.revision >= old(source.revision)
      ensures old(TagIsTruthful()) && ok && weather == CALM ==>
                && TagIsTruthful() && revision == source.revision
                && source.tables == old(source.tables) && source.revision == old(source.revision)
    {
      if currentFails {
        return false;
      }
      var current := source.revision;
      var loaded := revision;
      if current <= loaded {
        return true;
      }
      LoadedRulesReflect(source.tables);
      ok := Reload(weather);
    }

    /** Evaluates the cached rules. */
    method AuthorizeCached(caller: Principal, act: string, scope: Scope) returns (r: Result<bool, EngineError>)
      ensures r == Decided(rules, caller, act, scope)
    {
      var decision := Authorize(rules, caller, act, scope);
      if decision.Err? {
        return Err(BadRequest);
      }
      return Ok(decision.value);
    }

    /**
     Brings the tag up to the source's revision, then evaluates the cached rules. From a truthful tag, with no failure
     and no commit between the reads, those reflect the committed tables, and so decide as they would.
     */
    method AuthorizeFresh(currentFails: bool, weather: LoadWeather, caller: Principal, act: string, scope: Scope)
      returns (r: Result<bool, EngineError>)
      requires weather.between.Some? ==> Possible(source.tables, weather.between.value)
      modifies this, source
      ensures r == Err(ReadFailed) <==>
              (currentFails
               || (old(source.revision) > old(revision) && (weather.policyFails || weather.revisionFails)))
      ensures r != Err(ReadFailed) ==> r == Decided(rules, caller, act, scope) && revision >= old(source.revision)
      ensures old(TagIsTruthful()) && weather == CALM && !currentFails ==>
                revision == source.revision && Reflects(rules, source.tables)
    {
      var ok := ReloadIfStale(currentFails, weather);
      if !ok {
        return Err(ReadFailed);
      }
      r := AuthorizeCached(caller, act, scope);
    }
  }

  /** The initial load, in the same order; any failed read gives no engine. */
  method NewPolicyEngine(source: PolicySource, weather: LoadWeather) returns (r: Option<Engine>)
    requires weather.between.Some? ==> Possible(source.tables, weather.between.value)
    modifies source
    ensures r.Some? <==> !weather.policyFails && !weather.revisionFails
    ensures r.Some? ==>
              && fresh(r.value) && r.value.source == source
              && r.value.rules == EffectivePolicy(old(source.tables)) && r.value.revision == source.revision
    ensures weather.policyFails || weather.between == None ==>
              source.tables == old(source.tables) && source.revision == old(source.revision)
    ensures !weather.policyFails && weather.between != None ==>
              && source.tables == weather.between.value.tables
              && source.revision == old(source.revision) + weather.between.value.statements
  {
    if weather.policyFails {
      return None;
    }
    var rules := EffectivePolicy(source.tables);
    if weather.between.Some? {
      source.Commit(weather.between.value);
    }
    if weather.revisionFails {
      return None;
    }
    var engine := new Engine(source, rules, source.revision);
    return Some(engine);
  }
}
