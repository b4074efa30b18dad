/** The stored server configuration, whose every change is announced in the inbox before it commits. */
module ServerConfig {
  import opened Options
  import opened Uuids
  import opened Handoff
  import opened HandoffSafety
  import opened ArchiveHost

  datatype ConfigError = ConfigBusy | ConfigUnwritten

  datatype Connection = Connection(config: Config, generation: Uuid)

  class ServerConfigStore {
    const host: Host

    constructor (host: Host)
      ensures this.host == host
    {
      this.host := host;
    }

    /** What a login sees; a configuration without a generation still needs its migration. */
    method ReadConnection() returns (c: Option<Connection>)
      ensures c.Some? <==> Generation(host.state.stored).Some?
      ensures c.Some? ==> host.state.stored == Some(Stored(c.value.config, Some(c.value.generation)))
    {
      c := None;
      if host.state.stored.Some? && host.state.stored.value.generation.Some? {
        c := Some(Connection(host.state.stored.value.config, host.state.stored.value.generation.value));
      }
    }

    /** Everything but the configuration, its lock and the control file is as before. */
    twostate predicate OnlyConfiguration()
      reads this, host
    {
      && host.Valid() && host.Extended() && host.state.edit == old(host.state.edit)
      && host.state.files == old(host.state.files).(control := host.state.files.control)
      && host.state.lock == old(host.state.lock) && host.state.workers == old(host.state.workers)
      && host.state.owed == old(host.state.owed)
    }

    /** How a change ends: the lock may be busy, and a write may fail. */
    static function Outcome(answers: seq<bool>): Result<(), ConfigError> {
      if answers != [] && answers[0] then Failure(ConfigBusy)
      else if |answers| > 1 && answers[1] then Failure(ConfigUnwritten)
      else Success(())
    }

    /** The change under the configuration lock: the event becomes durable first. A failure of either
        write leaves the configuration as it was, so a failed change never alters what is authorized. */
    method Apply(change: Change, token: Uuid) returns (r: Result<(), ConfigError>)
      requires host.Valid() && token !in host.state.past.issued && host.state.edit.NoEdit?
      requires change.Migrate? ==> host.state.stored == Some(Stored(change.config, None))
      modifies host
      ensures OnlyConfiguration() && r == Outcome(old(host.answers))
      ensures r.Failure? ==> host.state.stored == old(host.state.stored)
      ensures r.Success? ==> host.state.stored == Committed(change) && host.state.files.control == Event(token)
    {
      host.Arrive(host.state, Plan(change));
      var busy := host.Answer();
      if busy {
        host.Arrive(host.state, Abandon);
        return Failure(ConfigBusy);
      }
      var before := host.state;
      host.state := before.(files := before.files.(control := Event(token)));
      host.Arrive(before, Announce(token));
      var failed := host.Answer();
      if failed {
        host.Arrive(host.state, Abandon);
        return Failure(ConfigUnwritten);
      }
      before := host.state;
      host.state := before.(stored := Committed(change));
      host.Arrive(before, Commit(false));
      return Success(());
    }

    method Save(config: Config, generation: Uuid, token: Uuid) returns (r: Result<(), ConfigError>)
      requires host.Valid() && token !in host.state.past.issued
      modifies host
      ensures OnlyConfiguration()
      ensures r == if old(host.state.edit).NoEdit? then Outcome(old(host.answers)) else Failure(ConfigBusy)
      ensures r.Failure? ==> host.state.stored == old(host.state.stored)
      ensures r.Success? ==>
        host.state.stored == Some(Stored(config, Some(generation))) && host.state.files.control == Event(token)
    {
      if !host.state.edit.NoEdit? {
        return Failure(ConfigBusy);
      }
      r := Apply(Change.Save(config, generation), token);
    }

    method Logout(token: Uuid) returns (r: Result<(), ConfigError>)
      requires host.Valid() && token !in host.state.past.issued
      modifies host
      ensures OnlyConfiguration()
      ensures r == if old(host.state.edit).NoEdit? then Outcome(old(host.answers)) else Failure(ConfigBusy)
      ensures r.Failure? ==> host.state.stored == old(host.state.stored)
      ensures r.Success? ==> host.state.stored.None? && host.state.files.control == Event(token)
    {
      if !host.state.edit.NoEdit? {
        return Failure(ConfigBusy);
      }
      r := Apply(Change.Logout, token);
    }

    /** Gives an old configuration its generation; one that has a generation, or none at all, is left alone
        and raises no event. */
    method EnsureConnection(generation: Uuid, token: Uuid) returns (r: Result<Option<Connection>, ConfigError>)
      requires host.Valid() && token !in host.state.past.issued
      modifies host
      ensures OnlyConfiguration()
      ensures r.Failure? <==> old(host.state.edit.NoEdit? ==>
        host.state.stored.Some? && host.state.stored.value.generation.None? && Outcome(host.answers).Failure?)
      ensures r.Failure? ==> host.state.stored == old(host.state.stored)
      ensures r.Success? ==>
        match old(host.state.stored)
        case None => r.value.None? && host.state == old(host.state)
        case Some(Stored(config, Some(g))) => r.value == Some(Connection(config, g)) && host.state == old(host.state)
        case Some(Stored(config, None)) =>
          r.value == Some(Connection(config, generation)) && host.state.files.control == Event(token)
          && host.state.stored == Some(Stored(config, Some(generation)))
    {
      if !host.state.edit.NoEdit? {
        return Failure(ConfigBusy);
      }
      var stored := host.state.stored;
      if stored.None? {
        return Success(None);
      }
      if stored.value.generation.Some? {
        return Success(Some(Connection(stored.value.config, stored.value.generation.value)));
      }
      var applied := Apply(Migrate(stored.value.config, generation), token);
      if applied.Failure? {
        return Failure(applied.error);
      }
      return Success(Some(Connection(stored.value.config, generation)));
    }
  }
}
