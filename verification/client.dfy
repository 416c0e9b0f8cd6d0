/**
 The event handlers of client.go over the process-wide variables of main.go.
 A `Sniper` holds those variables as fields and its methods update them in
 place, as the handlers do; each method is proved to produce the state (and the
 snipe) that the matching function of `Sniping` describes.
 */
module Client {
  import opened Sniping

  class Sniper {
    const config: Config
    var guilds: map<string, string>          // watched guild -> last seen vanity code
    var sameGuildIntervals: map<string, int> // destination guild -> cooldown expiry
    var guildsIndex: int                     // rotation cursor into config.guilds
    var status: Status

    /** The shared state as a value. */
    function AsState(): State
      reads this
    {
      State(guilds, sameGuildIntervals, guildsIndex, status)
    }

    /** The variable block of main.go: empty maps and the cursor at 0. */
    constructor (config: Config)
      ensures this.config == config
      ensures guilds == map[] && sameGuildIntervals == map[] && guildsIndex == 0 && status == Running
      ensures AsState() == Initial()
    {
      this.config := config;
      guilds := map[];
      sameGuildIntervals := map[];
      guildsIndex := 0;
      status := Running;
    }

    /** `ready`: records the code of every guild of the snapshot that has one. */
    method Ready(snapshot: seq<Guild>)
      modifies this
      ensures AsState() == ReadyStep(old(AsState()), snapshot)
      ensures guilds.Keys == old(guilds).Keys + CodedIds(snapshot)
    {
      var i := 0;
      while i < |snapshot|
        invariant 0 <= i <= |snapshot|
        invariant guilds == RecordAll(old(guilds), snapshot[..i])
        invariant sameGuildIntervals == old(sameGuildIntervals)
        invariant guildsIndex == old(guildsIndex) && status == old(status)
      {
        var guild := snapshot[i];
        if guild.vanityCode != "" {
          guilds := guilds[guild.id := guild.vanityCode];
        }
        assert snapshot[..i + 1][..i] == snapshot[..i];
        i := i + 1;
      }
      assert snapshot[..i] == snapshot;
    }

    /** `guildCreate`: queues a guild that has a vanity code. */
    method GuildCreate(guild: Guild)
      modifies this
      ensures AsState() == CreateStep(old(AsState()), guild)
      ensures guild.vanityCode == "" ==> guilds == old(guilds)
      ensures guild.vanityCode != "" ==> guilds == old(guilds)[guild.id := guild.vanityCode]
      ensures sameGuildIntervals == old(sameGuildIntervals) && guildsIndex == old(guildsIndex)
    {
      if guild.vanityCode != "" {
        guilds := guilds[guild.id := guild.vanityCode];
      }
    }

    /**
     The cooldown block of `guildUpdate` and `guildDelete`. Returns whether the
     handler goes on to snipe.
     */
    method CheckCooldown(now: int) returns (proceed: bool)
      modifies this
      ensures guilds == old(guilds) && guildsIndex == old(guildsIndex)
      ensures match CooldownGate(config, old(AsState()), now)
        case Proceed(intervals) => proceed && AsState() == old(AsState()).(sameGuildIntervals := intervals)
        case OnCooldown => !proceed && AsState() == old(AsState())
        case IndexOutOfRange => !proceed && AsState() == old(AsState()).(status := Panicked)
    {
      proceed := true;
      if config.sameGuildTimeout != 0 {
        if !(0 <= guildsIndex < |config.guilds|) {
          // indexing config.Guilds panics
          status := Panicked;
          return false;
        }
        var destination := config.guilds[guildsIndex];
        if destination in sameGuildIntervals {
          var difference := sameGuildIntervals[destination] - now;
          if difference > 0 {
            return false;
          } else {
            sameGuildIntervals := sameGuildIntervals - {destination};
          }
        }
      }
    }

    /**
     `snipe(vanity, token, 0)`, its self-recursion on a 429 written as a loop.
     The wait before a retry is not modelled.
     */
    method Snipe(vanity: string, net: nat -> Response, now: int) returns (attempt: Attempt)
      modifies this
      ensures Step(AsState(), Some(attempt)) == SnipeStep(config, old(AsState()), vanity, net, now)
      ensures attempt.requests <= Max(config.retries, 0) + 1
      ensures attempt.outcome != Sniped && attempt.outcome != IndexPanic ==> AsState() == old(AsState())
    {
      if !(0 <= guildsIndex < |config.guilds|) {
        // indexing config.Guilds panics
        status := Panicked;
        return Attempt(vanity, guildsIndex, 0, IndexPanic);
      }
      var guild := config.guilds[guildsIndex];
      var tries: nat := 0;
      var res := net(tries);
      while res == RateLimited && config.retries > tries
        invariant res == net(tries)
        invariant FinalTry(config.retries, net, tries) == FinalTry(config.retries, net, 0)
        decreases config.retries - tries
      {
        tries := tries + 1;
        res := net(tries);
      }
      attempt := Attempt(vanity, guildsIndex, tries + 1, OutcomeOf(res));
      if res == Ok {
        guildsIndex := guildsIndex + 1;
        if config.sameGuildTimeout != 0 {
          sameGuildIntervals := sameGuildIntervals[guild := now + config.sameGuildTimeout];
        }
        if guildsIndex >= |config.guilds| - 1 {
          if config.rotateGuilds {
            guildsIndex := 0;
          } else {
            // exit(): the process ends
            status := Exited;
          }
        }
      }
    }

    /**
     `guildUpdate`: snipes the old code of a guild whose known, non-empty code
     changed, unless the current destination is cooling down.
     */
    method GuildUpdate(guild: Guild, unavailable: bool, now: int, net: nat -> Response) returns (claim: Option<Attempt>)
      modifies this
      ensures Step(AsState(), claim) == UpdateStep(config, old(AsState()), guild, unavailable, now, net)
    {
      claim := None;
      if unavailable {
        return;
      }
      if config.ignoreHostGuilds && guild.id in config.guilds {
        return;
      }
      if guild.vanityCode != Lookup(guilds, guild.id) {
        var stored := Lookup(guilds, guild.id);
        if stored == "" {
          return;
        }
        var proceed := CheckCooldown(now);
        if !proceed {
          return;
        }
        var attempt := Snipe(stored, net, now);
        claim := Some(attempt);
        if status == Running {
          guilds := guilds[guild.id := guild.vanityCode];
        }
      }
    }

    /**
     `guildDelete`: snipes the code the event carries, after the host-guild and
     cooldown checks; the alias map is neither read nor written.
     */
    method GuildDelete(guild: Guild, now: int, net: nat -> Response) returns (claim: Option<Attempt>)
      modifies this
      ensures Step(AsState(), claim) == DeleteStep(config, old(AsState()), guild, now, net)
      ensures guilds == old(guilds)
    {
      claim := None;
      if guild.vanityCode == "" {
        return;
      }
      if config.ignoreHostGuilds && guild.id in config.guilds {
        return;
      }
      var proceed := CheckCooldown(now);
      if !proceed {
        return;
      }
      var attempt := Snipe(guild.vanityCode, net, now);
      claim := Some(attempt);
    }
  }
}
