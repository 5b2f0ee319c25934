/**
 The matrix service: a relay driver, a database whose transactions commit or roll back as a
 whole, and the safety latch stored in it.

 `apply_connections` may fail with any part of the requested routes closed, a commit may
 fail, and the service may be started again on the same database at any time.
 */
module MatrixService {
  import opened Common
  import opened MatrixValidation

  const INITIAL_PROFILE_ID := "00000000-0000-4000-8000-000000000001"
  const INITIAL_PROFILE_NAME := "Basic output voltage measurement"
  const INITIAL_CONNECTIONS :=
    [Connection("dut.vout", "meter.voltage_hi"), Connection("dut.gnd", "meter.voltage_lo")]

  datatype Profile = Profile(name: string, version: nat, connections: seq<Connection>)

  datatype ActiveRow = ActiveRow(profile: Option<string>, connections: seq<Connection>)

  datatype Database = Database(
    ports: Ports,
    profiles: map<string, Profile>,
    active: Option<ActiveRow>,
    safe: Option<bool>)

  datatype Error =
    | Invalid(problems: seq<Problem>)
    | EmptyName
    | NotFound
    | Conflict
    | Interlock
    | NotInitialized
    | DriverFailed
    | CommitFailed

  function Routes(cs: seq<Connection>): set<Connection> {
    set c | c in cs
  }

  /** One request to make routes: the list, whether all routes were open, and whether it went through. */
  datatype Made = Made(connections: seq<Connection>, wasOpen: bool, ok: bool)

  /** The relay matrix. `log` records every `Apply`. */
  class Driver {
    var routes: set<Connection>
    ghost var log: seq<Made>

    constructor ()
      ensures routes == {} && log == []
    {
      routes, log := {}, [];
    }

    method OpenAll()
      modifies this`routes
      ensures routes == {}
    {
      routes := {};
    }

    method Apply(cs: seq<Connection>) returns (ok: bool)
      modifies this
      ensures old(routes) <= routes <= old(routes) + Routes(cs)
      ensures ok ==> routes == old(routes) + Routes(cs)
      ensures log == old(log) + [Made(cs, old(routes) == {}, ok)]
    {
      var i := 0;
      while i < |cs|
        invariant 0 <= i <= |cs|
        invariant routes == old(routes) + Routes(cs[..i])
        invariant log == old(log)
      {
        var sticks: bool := *;
        if sticks {
          log := log + [Made(cs, old(routes) == {}, false)];
          return false;
        }
        assert cs[..i + 1] == cs[..i] + [cs[i]];
        routes := routes + {cs[i]};
        i := i + 1;
      }
      assert cs[..i] == cs;
      log := log + [Made(cs, old(routes) == {}, true)];
      return true;
    }
  }

  function Stored(db: Database): seq<Connection> {
    if db.active.None? then [] else db.active.value.connections
  }

  predicate Emergency(db: Database) {
    db.safe == Some(false)
  }

  /** Every stored profile passes validation and names are unique. */
  ghost predicate ProfilesOk(db: Database) {
    && (forall id :: id in db.profiles ==> ValidConnections(db.ports, db.profiles[id].connections))
    && (forall a, b :: a in db.profiles && b in db.profiles && db.profiles[a].name == db.profiles[b].name ==> a == b)
  }

  /** The active profile exists; an emergency leaves nothing active. */
  ghost predicate ActiveOk(db: Database) {
    && (db.active.Some? && db.active.value.profile.Some? ==> db.active.value.profile.value in db.profiles)
    && (Emergency(db) ==> Stored(db) == [] && (db.active.Some? ==> db.active.value.profile.None?))
  }

  ghost predicate DatabaseOk(db: Database) {
    ProfilesOk(db) && ActiveOk(db)
  }

  predicate NameTaken(db: Database, name: string, holder: string) {
    exists id :: id in db.profiles && id != holder && db.profiles[id].name == name
  }

  /** The profile an id or a name selects: the id wins. */
  ghost predicate Selects(db: Database, idOrName: string, id: string) {
    && id in db.profiles
    && (id == idOrName || (idOrName !in db.profiles && db.profiles[id].name == idOrName))
  }

  /** What the built-in profile needs of the ports. */
  predicate InitialProfileFits(ports: Ports) {
    && "dut.vout" in ports && "meter.voltage_hi" in ports
    && "dut.gnd" in ports && "meter.voltage_lo" in ports
    && !(ports["dut.vout"] == SOURCE && ports["meter.voltage_hi"] == SOURCE)
    && !(ports["dut.gnd"] == SOURCE && ports["meter.voltage_lo"] == SOURCE)
  }

  /** The rows present after a start on the database `db`. */
  function Initialized(db: Database, driverPorts: Ports): Database {
    Database(
      driverPorts + db.ports,
      if INITIAL_PROFILE_ID in db.profiles then db.profiles
      else db.profiles[INITIAL_PROFILE_ID := Profile(INITIAL_PROFILE_NAME, 1, INITIAL_CONNECTIONS)],
      if db.active.None? then Some(ActiveRow(None, [])) else db.active,
      if db.safe.None? then Some(true) else db.safe)
  }

  /**
   The rows after a start: what was stored stays as it was, ports included; what was missing is an
   empty state, a clear latch, the built-in profile in its first version and the driver's new ports.
   */
  lemma StartIs(db: Database, driverPorts: Ports)
    ensures var after := Initialized(db, driverPorts);
      && after.ports.Keys == db.ports.Keys + driverPorts.Keys
      && (forall p :: p in after.ports ==> after.ports[p] == if p in db.ports then db.ports[p] else driverPorts[p])
      && after.profiles.Keys == db.profiles.Keys + {INITIAL_PROFILE_ID}
      && (forall id :: id in db.profiles ==> after.profiles[id] == db.profiles[id])
      && (INITIAL_PROFILE_ID !in db.profiles ==>
            after.profiles[INITIAL_PROFILE_ID] == Profile("Basic output voltage measurement", 1, [
              Connection("dut.vout", "meter.voltage_hi"), Connection("dut.gnd", "meter.voltage_lo")]))
      && after.active == Some(if db.active.Some? then db.active.value else ActiveRow(None, []))
      && after.safe == Some(db.safe.None? || db.safe.value)
  {
  }

  lemma InitialProfileValid(ports: Ports)
    ensures ValidConnections(ports, INITIAL_CONNECTIONS) <==> InitialProfileFits(ports)
  {
    var cs := INITIAL_CONNECTIONS;
    assert cs[0].fromPort[0] == 'd' && cs[0].toPort[0] == 'm';
    assert cs[1].fromPort[0] == 'd' && cs[1].toPort[0] == 'm';
    assert cs[0].fromPort[4] == 'v' && cs[1].fromPort[4] == 'g';
  }

  /**
   A start keeps every stored profile valid exactly when the built-in profile, if it is
   missing, fits the ports: it is inserted without being validated.
   */
  lemma StartKeepsProfilesIff(db: Database, driverPorts: Ports)
    requires DatabaseOk(db)
    requires !NameTaken(db, INITIAL_PROFILE_NAME, INITIAL_PROFILE_ID)
    ensures DatabaseOk(Initialized(db, driverPorts))
      <==> INITIAL_PROFILE_ID in db.profiles || InitialProfileFits(driverPorts + db.ports)
  {
    var db' := Initialized(db, driverPorts);
    InitialProfileValid(db'.ports);
    forall id | id in db.profiles ensures ValidConnections(db'.ports, db.profiles[id].connections) {
      MorePortsKeepValid(db.ports, db'.ports, db.profiles[id].connections);
    }
    assert INITIAL_PROFILE_ID in db'.profiles;
  }

  lemma MorePortsKeepValid(ports: Ports, more: Ports, cs: seq<Connection>)
    requires ValidConnections(ports, cs)
    requires forall p :: p in ports ==> p in more && more[p] == ports[p]
    ensures ValidConnections(more, cs)
  {
  }

  /** A driver without the built-in profile's ports: the first start stores a profile that is not valid. */
  lemma StartWithOtherPorts()
    ensures var db := Database(map[], map[], None, None);
      DatabaseOk(db) && !DatabaseOk(Initialized(db, map["dut.vout" := "signal"]))
  {
    var db := Database(map[], map[], None, None);
    assert "dut.gnd"[4] != "dut.vout"[4] && "meter.voltage_hi"[0] != "dut.vout"[0];
    assert !InitialProfileFits(map["dut.vout" := "signal"] + db.ports);
    StartKeepsProfilesIff(db, map["dut.vout" := "signal"]);
  }

  /** The ports of the simulated matrix fit the built-in profile. */
  lemma SimulatedPortsFit()
    ensures InitialProfileFits(map[
      "dut.vout" := "signal", "dut.gnd" := "return",
      "meter.voltage_hi" := "measurement_input", "meter.voltage_lo" := "measurement_input",
      "scope.ch1" := "scope_input", "scope.gnd" := "return",
      "generator.out1" := SOURCE, "source.main" := SOURCE, "source.aux" := SOURCE])
  {
  }

  class Service {
    var db: Database
    const driver: Driver
    /** Commits that have failed. */
    ghost var failures: nat

    /** Stored and physical routes agree as far as failures allow, and every make was after a break. */
    ghost predicate Consistent()
      reads this, driver
    {
      DatabaseOk(db) && driver.routes <= Routes(Stored(db)) && BreakBeforeMake()
    }

    ghost predicate BreakBeforeMake()
      reads this, driver
    {
      forall k :: 0 <= k < |driver.log| ==> driver.log[k].wasOpen
    }

    constructor (db: Database, driver: Driver)
      ensures this.db == db && this.driver == driver && failures == 0
    {
      this.db, this.driver, failures := db, driver, 0;
    }

    method Commit(session: Database) returns (ok: bool)
      modifies this`db, this`failures
      ensures db == if ok then session else old(db)
      ensures failures == old(failures) + if ok then 0 else 1
    {
      ok := *;
      if ok {
        db := session;
      } else {
        failures := failures + 1;
      }
    }

    /**
     `initialize` on a database that may already hold rows, with the relays in any state: the
     driver is opened and re-made from what is stored.
     */
    method Initialize(driverPorts: Ports) returns (r: Result<(), Error>)
      requires DatabaseOk(db) && BreakBeforeMake()
      modifies this`db, this`failures, driver
      ensures BreakBeforeMake()
      ensures r.Ok? || r.error.DriverFailed? || old(driver.routes <= Routes(Stored(db)))
        ==> driver.routes <= Routes(Stored(db))
      ensures old(INITIAL_PROFILE_ID in db.profiles || InitialProfileFits(driverPorts + db.ports)) ==> DatabaseOk(db)
      ensures r.Ok? ==> db == Initialized(old(db), driverPorts) && driver.routes == Routes(Stored(db))
      ensures Stored(db) == Stored(old(db)) && (Emergency(db) <==> Emergency(old(db)))
      ensures r.Err? ==> db == old(db) || db == Initialized(old(db), driverPorts)
      ensures r == Err(Conflict) <==> old(
        INITIAL_PROFILE_ID !in db.profiles && NameTaken(db, INITIAL_PROFILE_NAME, INITIAL_PROFILE_ID))
      ensures r.Err? ==> r.error in {Conflict, CommitFailed, DriverFailed}
      ensures r == Err(DriverFailed) ==> driver.log == old(driver.log) + [Made(Stored(old(db)), true, false)]
      ensures failures == old(failures) + if r == Err(CommitFailed) then 1 else 0
    {
      if INITIAL_PROFILE_ID !in db.profiles && NameTaken(db, INITIAL_PROFILE_NAME, INITIAL_PROFILE_ID) {
        return Err(Conflict);
      }
      if INITIAL_PROFILE_ID in db.profiles {
        PortsOnly(db, driverPorts);
      } else {
        StartKeepsProfilesIff(db, driverPorts);
      }
      var committed := Commit(Initialized(db, driverPorts));
      if !committed {
        return Err(CommitFailed);
      }
      driver.OpenAll();
      var connections := Stored(db);
      if connections != [] {
        var ok := driver.Apply(connections);
        if !ok {
          return Err(DriverFailed);
        }
      }
      return Ok(());
    }

    lemma PortsOnly(db: Database, driverPorts: Ports)
      requires DatabaseOk(db) && INITIAL_PROFILE_ID in db.profiles
      ensures DatabaseOk(Initialized(db, driverPorts))
    {
    }

    /** `id` is the new row's identifier; a clash with an existing row is an integrity error. */
    method CreateProfile(id: string, name: string, cs: seq<Connection>) returns (r: Result<string, Error>)
      requires Consistent()
      modifies this`db, this`failures
      ensures Consistent()
      ensures r.Ok? ==>
        && id !in old(db).profiles && ValidConnections(db.ports, cs)
        && db == old(db).(profiles := old(db).profiles[id := Profile(name, 1, cs)])
      ensures r.Err? ==> db == old(db)
      ensures r == Err(EmptyName) <==> name == ""
      ensures name != "" && !ValidConnections(db.ports, cs) ==> r == Err(Invalid(AllProblems(db.ports, cs)))
      ensures r == Err(Conflict) <==>
        name != "" && ValidConnections(db.ports, cs) && (id in old(db).profiles || NameTaken(old(db), name, id))
      ensures r.Err? ==> r.error.Invalid? || r.error in {EmptyName, Conflict, CommitFailed}
      ensures r.Err? && r.error.Invalid? ==> !ValidConnections(db.ports, cs)
      ensures failures == old(failures) + if r == Err(CommitFailed) then 1 else 0
    {
      if name == "" {
        return Err(EmptyName);
      }
      NoProblemsIffValid(db.ports, cs);
      var errors := ValidateConnections(db.ports, cs);
      if errors != [] {
        return Err(Invalid(errors));
      }
      if id in db.profiles || NameTaken(db, name, id) {
        return Err(Conflict);
      }
      var committed := Commit(db.(profiles := db.profiles[id := Profile(name, 1, cs)]));
      if !committed {
        return Err(CommitFailed);
      }
      return Ok(id);
    }

    method UpdateProfile(id: string, name: string, cs: seq<Connection>) returns (r: Result<(), Error>)
      requires Consistent()
      modifies this`db, this`failures
      ensures Consistent()
      ensures r.Ok? ==>
        && id in old(db).profiles && ValidConnections(db.ports, cs)
        && db == old(db).(profiles := old(db).profiles[id := Profile(name, old(db).profiles[id].version + 1, cs)])
      ensures r.Err? ==> db == old(db)
      ensures r == Err(EmptyName) <==> name == ""
      ensures name != "" && !ValidConnections(db.ports, cs) ==> r == Err(Invalid(AllProblems(db.ports, cs)))
      ensures r == Err(NotFound) <==> name != "" && ValidConnections(db.ports, cs) && id !in old(db).profiles
      ensures r == Err(Conflict) <==>
        name != "" && ValidConnections(db.ports, cs) && id in old(db).profiles && NameTaken(old(db), name, id)
      ensures r.Err? ==> r.error.Invalid? || r.error in {EmptyName, NotFound, Conflict, CommitFailed}
      ensures r.Err? && r.error.Invalid? ==> !ValidConnections(db.ports, cs)
      ensures failures == old(failures) + if r == Err(CommitFailed) then 1 else 0
    {
      if name == "" {
        return Err(EmptyName);
      }
      NoProblemsIffValid(db.ports, cs);
      var errors := ValidateConnections(db.ports, cs);
      if errors != [] {
        return Err(Invalid(errors));
      }
      if id !in db.profiles {
        return Err(NotFound);
      }
      if NameTaken(db, name, id) {
        return Err(Conflict);
      }
      var row := Profile(name, db.profiles[id].version + 1, cs);
      var committed := Commit(db.(profiles := db.profiles[id := row]));
      if !committed {
        return Err(CommitFailed);
      }
      return Ok(());
    }

    method DeleteProfile(id: string) returns (r: Result<(), Error>)
      requires Consistent()
      modifies this`db, this`failures
      ensures Consistent()
      ensures r.Ok? ==> id in old(db).profiles && db == old(db).(profiles := old(db).profiles - {id})
      ensures r.Err? ==> db == old(db)
      ensures r == Err(NotInitialized) <==> old(db).active.None?
      ensures r == Err(Conflict) <==> old(db).active.Some? && old(db).active.value.profile == Some(id)
      ensures r == Err(NotFound) <==>
        old(db).active.Some? && old(db).active.value.profile != Some(id) && id !in old(db).profiles
      ensures r.Err? ==> r.error in {NotInitialized, Conflict, NotFound, CommitFailed}
      ensures failures == old(failures) + if r == Err(CommitFailed) then 1 else 0
    {
      if db.active.None? {
        return Err(NotInitialized);
      }
      if db.active.value.profile == Some(id) {
        return Err(Conflict);
      }
      if id !in db.profiles {
        return Err(NotFound);
      }
      var committed := Commit(db.(profiles := db.profiles - {id}));
      if !committed {
        return Err(CommitFailed);
      }
      return Ok(());
    }

    method Find(idOrName: string) returns (found: Option<string>)
      ensures found.Some? ==> Selects(db, idOrName, found.value)
      ensures found.None? ==> forall id :: !Selects(db, idOrName, id)
    {
      if idOrName in db.profiles {
        return Some(idOrName);
      }
      var ids := db.profiles.Keys;
      while ids != {}
        invariant ids <= db.profiles.Keys
        invariant forall id :: id in db.profiles && id !in ids ==> db.profiles[id].name != idOrName
        decreases ids
      {
        var id :| id in ids;
        if db.profiles[id].name == idOrName {
          return Some(id);
        }
        ids := ids - {id};
      }
      return None;
    }

    /**
     What the driver is asked for after a failed attempt: the profile, which was made exactly if it
     was the commit that failed, and then the routes that were stored, from an open driver. If that
     goes through, exactly those are closed.
     */
    static ghost predicate Restored(
      before: Database, target: seq<Connection>, log: seq<Made>, made: bool, routes: set<Connection>)
    {
      && |log| == (if Stored(before) == [] then 1 else 2)
      && log[0] == Made(target, true, made)
      && (if Stored(before) == [] then routes == {}
          else
            && log[1].connections == Stored(before) && log[1].wasOpen
            && (log[1].ok ==> routes == Routes(Stored(before))))
    }

    /** The part of `apply_profile` that follows the checks: break, make, store, and go back on a failure. */
    method SwitchTo(id: string) returns (r: Result<seq<Connection>, Error>)
      requires Consistent() && id in db.profiles && db.safe == Some(true) && db.active.Some?
      modifies this`db, this`failures, driver
      ensures Consistent() && old(driver.log) <= driver.log
      ensures r.Ok? ==>
        && r.value == old(db).profiles[id].connections && driver.routes == Routes(r.value)
        && db == old(db).(active := Some(ActiveRow(Some(id), r.value)))
        && driver.log == old(driver.log) + [Made(r.value, true, true)]
      ensures r.Err? ==>
        && db == old(db) && r.error in {DriverFailed, CommitFailed}
        && Restored(old(db), old(db).profiles[id].connections, driver.log[|old(driver.log)|..],
                    r.error == CommitFailed, driver.routes)
      ensures failures == old(failures) + if r == Err(CommitFailed) then 1 else 0
    {
      hide ValidConnections;
      var target := db.profiles[id].connections;
      var previous := db.active.value.connections;
      driver.OpenAll();
      var made := driver.Apply(target);
      if made {
        made := Commit(db.(active := Some(ActiveRow(Some(id), target))));
        if made {
          return Ok(target);
        }
        r := Err(CommitFailed);
      } else {
        r := Err(DriverFailed);
      }
      driver.OpenAll();
      if previous != [] {
        var restored := driver.Apply(previous);
      }
    }

    /**
     Break-before-make, inside the transaction. Success stores exactly the routes that are
     closed. After a failure the database is as before, and the driver is untouched when the
     request was refused, or opened and asked for the routes stored before.
     */
    method ApplyProfile(idOrName: string) returns (r: Result<seq<Connection>, Error>)
      requires Consistent()
      modifies this`db, this`failures, driver
      ensures Consistent()
      ensures r.Ok? ==> !Emergency(old(db)) && driver.routes == Routes(Stored(db))
      ensures r.Ok? ==> exists id ::
        && Selects(old(db), idOrName, id) && r.value == old(db).profiles[id].connections
        && db == old(db).(active := Some(ActiveRow(Some(id), r.value)))
      ensures r.Err? ==> db == old(db)
      ensures r == Err(NotFound) <==> forall id :: !Selects(old(db), idOrName, id)
      ensures r != Err(NotFound) ==>
        && (r == Err(Interlock) <==> Emergency(old(db)))
        && (r == Err(NotInitialized)
            <==> old(db).safe.None? || (!Emergency(old(db)) && old(db).active.None?))
      ensures r.Err? ==> r.error in {NotFound, Interlock, NotInitialized, DriverFailed, CommitFailed}
      ensures r.Err? && r.error !in {DriverFailed, CommitFailed}
        ==> driver.routes == old(driver.routes) && driver.log == old(driver.log)
      ensures Emergency(old(db)) ==> r.Err? && driver.routes == {}
      ensures r.Ok? ==> driver.log == old(driver.log) + [Made(r.value, true, true)]
      ensures old(driver.log) <= driver.log
      ensures r.Err? && r.error in {DriverFailed, CommitFailed} ==> exists id ::
        && Selects(old(db), idOrName, id)
        && Restored(old(db), old(db).profiles[id].connections, driver.log[|old(driver.log)|..],
                    r.error == CommitFailed, driver.routes)
      ensures failures == old(failures) + if r == Err(CommitFailed) then 1 else 0
    {
      hide ValidConnections, AllProblems, Restored;
      var found := Find(idOrName);
      if found.None? {
        return Err(NotFound);
      }
      var target := db.profiles[found.value].connections;
      NoProblemsIffValid(db.ports, target);
      var errors := ValidateConnections(db.ports, target);
      if errors != [] {
        return Err(Invalid(errors));
      }
      if db.safe.None? {
        return Err(NotInitialized);
      }
      if db.safe.value == false {
        return Err(Interlock);
      }
      if db.active.None? {
        return Err(NotInitialized);
      }
      r := SwitchTo(found.value);
    }

    method OpenAll() returns (r: Result<(), Error>)
      requires Consistent()
      modifies this`db, this`failures, driver
      ensures Consistent() && driver.routes == {}
      ensures r.Ok? ==> db == old(db).(active := Some(ActiveRow(None, [])))
      ensures r.Err? ==> db == old(db) && r.error in {NotInitialized, CommitFailed}
      ensures r == Err(NotInitialized) <==> old(db).active.None?
      ensures failures == old(failures) + if r == Err(CommitFailed) then 1 else 0
    {
      driver.OpenAll();
      if db.active.None? {
        return Err(NotInitialized);
      }
      var committed := Commit(db.(active := Some(ActiveRow(None, []))));
      if !committed {
        return Err(CommitFailed);
      }
      return Ok(());
    }

    method EmergencyStop() returns (r: Result<(), Error>)
      requires Consistent()
      modifies this`db, this`failures, driver
      ensures Consistent() && driver.routes == {}
      ensures r.Ok? ==> db == old(db).(active := Some(ActiveRow(None, [])), safe := Some(false))
      ensures r.Err? ==> db == old(db) && r.error in {NotInitialized, CommitFailed}
      ensures r == Err(NotInitialized) <==> old(db).active.None? || old(db).safe.None?
      ensures failures == old(failures) + if r == Err(CommitFailed) then 1 else 0
    {
      driver.OpenAll();
      if db.active.None? || db.safe.None? {
        return Err(NotInitialized);
      }
      var committed := Commit(db.(active := Some(ActiveRow(None, [])), safe := Some(false)));
      if !committed {
        return Err(CommitFailed);
      }
      return Ok(());
    }

    method ResetSafety() returns (r: Result<(), Error>)
      requires Consistent()
      modifies this`db, this`failures
      ensures Consistent()
      ensures r.Ok? ==> db == old(db).(safe := Some(true))
      ensures r.Err? ==> db == old(db) && r.error in {NotInitialized, CommitFailed}
      ensures r == Err(NotInitialized) <==> old(db).safe.None?
      ensures failures == old(failures) + if r == Err(CommitFailed) then 1 else 0
    {
      if db.safe.None? {
        return Err(NotInitialized);
      }
      var committed := Commit(db.(safe := Some(true)));
      if !committed {
        return Err(CommitFailed);
      }
      return Ok(());
    }

    /**
     Any run of requests and restarts, each succeeding or failing, each restart with a driver of
     its own. Consistency holds at every boundary, and from a stop that succeeded until a reset
     nothing is stored and no route is closed. What each restart needs is that the ports it ends
     up with fit the built-in profile, which it may have to insert.
     */
    method Serve(requests: seq<Request>) returns (stopped: bool)
      requires Consistent()
      requires forall ports :: Restart(ports) in requests ==> InitialProfileFits(ports + db.ports)
      modifies this`db, this`failures, driver
      ensures Consistent()
      ensures stopped ==> Emergency(db) && Stored(db) == [] && driver.routes == {}
      ensures stopped <== old(Emergency(db)) && Reset !in requests
      ensures stopped ==> Stop in requests || old(Emergency(db))
    {
      stopped := Emergency(db);
      var i := 0;
      while i < |requests|
        invariant 0 <= i <= |requests|
        invariant Consistent()
        invariant db.ports == old(db).ports || InitialProfileFits(db.ports)
        invariant stopped <==> Emergency(db)
        invariant stopped <== old(Emergency(db)) && Reset !in requests[..i]
        invariant stopped ==> Stop in requests[..i] || old(Emergency(db))
      {
        assert requests[..i + 1] == requests[..i] + [requests[i]];
        match requests[i] {
          case Create(id, name, cs) => var r := CreateProfile(id, name, cs);
          case Change(id, name, cs) => var r := UpdateProfile(id, name, cs);
          case Delete(id) => var r := DeleteProfile(id);
          case Apply(idOrName) => var r := ApplyProfile(idOrName);
          case Open => var r := OpenAll();
          case Stop =>
            var r := EmergencyStop();
            if r.Ok? {
              stopped := true;
            }
          case Reset =>
            var r := ResetSafety();
            if r.Ok? {
              stopped := false;
            }
          case Restart(ports) =>
            FittingStays(ports, db.ports);
            var r := Initialize(ports);
        }
        i := i + 1;
      }
      assert requests[..i] == requests;
    }

    lemma FittingStays(driverPorts: Ports, stored: Ports)
      ensures InitialProfileFits(stored) ==> InitialProfileFits(driverPorts + stored)
    {
    }
  }

  datatype Request =
    | Create(id: string, name: string, cs: seq<Connection>)
    | Change(id: string, name: string, cs: seq<Connection>)
    | Delete(id: string)
    | Apply(idOrName: string)
    | Open
    | Stop
    | Reset
    | Restart(driverPorts: Ports)
}
