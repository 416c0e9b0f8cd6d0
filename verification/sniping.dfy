/**
 The claim-coordination logic of client.go as a pure state machine.

 The process-wide state of main.go is a `State`: the alias map `guilds`
 (watched guild to last seen vanity code), the cooldown map
 `sameGuildIntervals` (destination guild to expiry time, in milliseconds) and
 the rotation cursor `guildsIndex` into the configured destinations. A
 `status` records whether the process is still running, has called `exit()`,
 or has crashed on an out-of-range read of the destination list.

 The network is an oracle `net`: `net(t)` is the response to the request made
 with retry counter `t`. The clock is an integer `now`, fixed for one handler
 invocation.
 */
module Sniping {

  datatype Option<T> = None | Some(value: T)

  /** The part of the configuration file that the claim logic reads. */
  datatype Config = Config(
    retries: int,
    rotateGuilds: bool,
    ignoreHostGuilds: bool,
    sameGuildTimeout: int,   // milliseconds; 0 turns cooldowns off
    guilds: seq<string>)     // the operator's destination guilds, in rotation order

  datatype Status = Running | Exited | Panicked

  datatype State = State(
    guilds: map<string, string>,
    sameGuildIntervals: map<string, int>,
    guildsIndex: int,
    status: Status)

  /** A guild as an event carries it: its ID and its vanity code ("" for none). */
  datatype Guild = Guild(id: string, vanityCode: string)

  /** What one claim request can come back with. */
  datatype Response =
    | Ok               // status 200
    | BadRequest       // status 400
    | RateLimited      // status 429
    | TransportError   // the request could not be built, sent, or its body read
    | OtherStatus      // any other status code

  /** How one call of `snipe` ended. */
  datatype Outcome =
    | Sniped            // a 200 came back
    | Rejected          // a 400 came back
    | RetriesExhausted  // a 429 came back and no retry was left
    | TransportFailed
    | UnknownStatus
    | IndexPanic        // the cursor was outside the destination list

  /**
   One call of `snipe`: the vanity code claimed, the cursor value that chose the
   destination, how many requests were sent and how it ended.
   */
  datatype Attempt = Attempt(vanity: string, slot: int, requests: nat, outcome: Outcome)

  /** The state after a handler, and the snipe it started, if any. */
  datatype Step = Step(state: State, claim: Option<Attempt>)

  /** The shared state when the process starts. */
  function Initial(): State
  {
    State(map[], map[], 0, Running)
  }

  function Max(a: int, b: int): int
  {
    if a < b then b else a
  }

  /** Go's map index expression: the zero value "" for a missing key. */
  function Lookup(m: map<string, string>, id: string): string
  {
    if id in m then m[id] else ""
  }

  /** With `IgnoreHostGuilds` set, events on the operator's own guilds are dropped. */
  predicate HostIgnored(cfg: Config, id: string)
  {
    cfg.ignoreHostGuilds && id in cfg.guilds
  }

  // ---------------------------------------------------------------------------
  // Cooldown gate (the block shared by guildUpdate and guildDelete)
  // ---------------------------------------------------------------------------

  datatype Gate =
    | Proceed(sameGuildIntervals: map<string, int>)  // go on, with this cooldown map
    | OnCooldown                                     // the current destination is cooling down
    | IndexOutOfRange                                // reading the destination panicked

  /**
   The cooldown check before a claim. It is keyed on the CURRENT destination
   `config.Guilds[guildsIndex]`, not on the guild of the event. A live entry
   (expiry still in the future) blocks; an expired one is deleted.
   */
  function CooldownGate(cfg: Config, st: State, now: int): (g: Gate)
    ensures cfg.sameGuildTimeout == 0 ==> g == Proceed(st.sameGuildIntervals)
    ensures g.IndexOutOfRange? <==> cfg.sameGuildTimeout != 0 && !(0 <= st.guildsIndex < |cfg.guilds|)
    ensures cfg.sameGuildTimeout != 0 && 0 <= st.guildsIndex < |cfg.guilds| ==>
      var dest := cfg.guilds[st.guildsIndex];
      && (g.OnCooldown? <==> dest in st.sameGuildIntervals && st.sameGuildIntervals[dest] > now)
      && (g.Proceed? ==> g.sameGuildIntervals == st.sameGuildIntervals - {dest})
  {
    if cfg.sameGuildTimeout == 0 then Proceed(st.sameGuildIntervals)
    else if !(0 <= st.guildsIndex < |cfg.guilds|) then IndexOutOfRange
    else
      var dest := cfg.guilds[st.guildsIndex];
      if dest !in st.sameGuildIntervals then Proceed(st.sameGuildIntervals)
      else if st.sameGuildIntervals[dest] - now > 0 then OnCooldown
      else Proceed(st.sameGuildIntervals - {dest})
  }

  // ---------------------------------------------------------------------------
  // snipe: bounded retries, then the success path
  // ---------------------------------------------------------------------------

  /**
   The retry counter of the request that ends a snipe begun at `tries`:
   `snipe` calls itself with `tries + 1` after a 429 while `Retries > tries`.
   */
  function FinalTry(retries: int, net: nat -> Response, tries: nat): (last: nat)
    ensures tries <= last <= Max(retries, tries)
    ensures forall t :: tries <= t < last ==> net(t) == RateLimited
    ensures net(last) != RateLimited || last >= retries
    decreases retries - tries
  {
    if net(tries) == RateLimited && retries > tries then FinalTry(retries, net, tries + 1)
    else tries
  }

  function OutcomeOf(res: Response): Outcome
  {
    match res
    case Ok => Sniped
    case BadRequest => Rejected
    case RateLimited => RetriesExhausted
    case TransportError => TransportFailed
    case OtherStatus => UnknownStatus
  }

  /**
   The success path of `snipe`: the cursor moves on by one, the destination just
   used gets a cooldown when one is configured, and once the cursor reaches
   `len(Guilds) - 1` it wraps to 0 with rotation on, or the process exits.
   */
  function RecordSuccess(cfg: Config, st: State, now: int): (s: State)
    requires 0 <= st.guildsIndex < |cfg.guilds|
    ensures s.guilds == st.guilds
    ensures cfg.sameGuildTimeout != 0 ==>
      s.sameGuildIntervals == st.sameGuildIntervals[cfg.guilds[st.guildsIndex] := now + cfg.sameGuildTimeout]
    ensures cfg.sameGuildTimeout == 0 ==> s.sameGuildIntervals == st.sameGuildIntervals
    ensures st.guildsIndex + 1 < |cfg.guilds| - 1 ==> s.guildsIndex == st.guildsIndex + 1 && s.status == st.status
    ensures st.guildsIndex + 1 >= |cfg.guilds| - 1 && cfg.rotateGuilds ==> s.guildsIndex == 0 && s.status == st.status
    ensures st.guildsIndex + 1 >= |cfg.guilds| - 1 && !cfg.rotateGuilds ==>
      s.guildsIndex == st.guildsIndex + 1 && s.status == Exited
  {
    var dest := cfg.guilds[st.guildsIndex];
    var index := st.guildsIndex + 1;
    var intervals :=
      if cfg.sameGuildTimeout != 0 then st.sameGuildIntervals[dest := now + cfg.sameGuildTimeout]
      else st.sameGuildIntervals;
    if index >= |cfg.guilds| - 1 then
      if cfg.rotateGuilds then State(st.guilds, intervals, 0, st.status)
      else State(st.guilds, intervals, index, Exited)
    else State(st.guilds, intervals, index, st.status)
  }

  /**
   One call of `snipe(vanity, token, 0)`. A rate-limited request is retried while
   retries remain, so at most `max(Retries, 0) + 1` requests go out; any other
   failure ends the attempt at once and changes nothing.
   */
  function SnipeStep(cfg: Config, st: State, vanity: string, net: nat -> Response, now: int): (r: Step)
    ensures r.claim.Some?
    ensures r.claim.value.vanity == vanity && r.claim.value.slot == st.guildsIndex
    ensures r.claim.value.requests <= Max(cfg.retries, 0) + 1
    ensures r.claim.value.outcome == IndexPanic <==> !(0 <= st.guildsIndex < |cfg.guilds|)
    ensures r.claim.value.outcome == IndexPanic ==>
      r.claim.value.requests == 0 && r.state == st.(status := Panicked)
    ensures r.claim.value.outcome != IndexPanic ==>
      && 1 <= r.claim.value.requests
      && (forall t :: 0 <= t < r.claim.value.requests - 1 ==> net(t) == RateLimited)
      && r.claim.value.outcome == OutcomeOf(net(r.claim.value.requests - 1))
    ensures r.claim.value.outcome == RetriesExhausted ==> r.claim.value.requests == Max(cfg.retries, 0) + 1
    ensures r.claim.value.outcome == Sniped ==> r.state == RecordSuccess(cfg, st, now)
    ensures r.claim.value.outcome !in {Sniped, IndexPanic} ==> r.state == st
  {
    if !(0 <= st.guildsIndex < |cfg.guilds|) then
      Step(st.(status := Panicked), Some(Attempt(vanity, st.guildsIndex, 0, IndexPanic)))
    else
      var last := FinalTry(cfg.retries, net, 0);
      var res := net(last);
      var attempt := Attempt(vanity, st.guildsIndex, last + 1, OutcomeOf(res));
      if res == Ok then Step(RecordSuccess(cfg, st, now), Some(attempt))
      else Step(st, Some(attempt))
  }

  // ---------------------------------------------------------------------------
  // Event handlers
  // ---------------------------------------------------------------------------

  /** Records one guild's code, but only a non-empty one. */
  function RecordCode(m: map<string, string>, g: Guild): map<string, string>
  {
    if g.vanityCode != "" then m[g.id := g.vanityCode] else m
  }

  /** The IDs of the guilds in `gs` that carry a vanity code. */
  function CodedIds(gs: seq<Guild>): (ids: set<string>)
    ensures forall i :: 0 <= i < |gs| && gs[i].vanityCode != "" ==> gs[i].id in ids
    ensures forall id :: id in ids ==> exists i :: 0 <= i < |gs| && gs[i].vanityCode != "" && gs[i].id == id
    decreases |gs|
  {
    if gs == [] then {}
    else
      var init, g := gs[..|gs| - 1], gs[|gs| - 1];
      assert forall i :: 0 <= i < |init| ==> init[i] == gs[i];
      CodedIds(init) + (if g.vanityCode != "" then {g.id} else {})
  }

  /** `gs[i]` carries a code and no later guild of `gs` with the same ID does. */
  predicate LastCoded(gs: seq<Guild>, i: int)
    requires 0 <= i < |gs|
  {
    gs[i].vanityCode != "" && forall j :: i < j < |gs| && gs[j].id == gs[i].id ==> gs[j].vanityCode == ""
  }

  /**
   The loop of `ready`: records every non-empty code of the snapshot in order,
   so the last non-empty code seen for an ID wins, and guilds without a code
   leave their entry as it was.
   */
  function RecordAll(m: map<string, string>, gs: seq<Guild>): (r: map<string, string>)
    ensures r.Keys == m.Keys + CodedIds(gs)
    ensures forall id :: id in m && id !in CodedIds(gs) ==> r[id] == m[id]
    ensures forall i :: 0 <= i < |gs| && LastCoded(gs, i) ==> r[gs[i].id] == gs[i].vanityCode
    decreases |gs|
  {
    if gs == [] then m
    else
      var prev := RecordAll(m, gs[..|gs| - 1]);
      RecordCodeKeeps(m, gs, prev);
      RecordCodeLast(gs, prev);
      RecordCode(prev, gs[|gs| - 1])
  }

  /** Recording the last guild of `gs` leaves every ID without a code in `gs` as it was. */
  lemma RecordCodeKeeps(m: map<string, string>, gs: seq<Guild>, prev: map<string, string>)
    requires gs != []
    requires forall id :: id in m && id !in CodedIds(gs[..|gs| - 1]) ==> id in prev && prev[id] == m[id]
    ensures forall id :: id in m && id !in CodedIds(gs) ==> RecordCode(prev, gs[|gs| - 1])[id] == m[id]
  {
  }

  /**
   After recording the last guild of `gs` on top of the codes of the earlier
   ones, every last coded guild of `gs` has its code.
   */
  lemma RecordCodeLast(gs: seq<Guild>, prev: map<string, string>)
    requires gs != []
    requires forall i :: 0 <= i < |gs| - 1 && LastCoded(gs[..|gs| - 1], i) ==>
      gs[i].id in prev && prev[gs[i].id] == gs[i].vanityCode
    ensures forall i :: 0 <= i < |gs| && LastCoded(gs, i) ==>
      var r := RecordCode(prev, gs[|gs| - 1]);
      gs[i].id in r && r[gs[i].id] == gs[i].vanityCode
  {
  }

  /** `ready`: only the alias map changes. */
  function ReadyStep(st: State, gs: seq<Guild>): (s: State)
    ensures s == st.(guilds := s.guilds)
    ensures s.guilds.Keys == st.guilds.Keys + CodedIds(gs)
  {
    st.(guilds := RecordAll(st.guilds, gs))
  }

  /** `guildCreate`: a guild with a code is inserted or overwritten; one without changes nothing. */
  function CreateStep(st: State, g: Guild): (s: State)
    ensures g.vanityCode == "" ==> s == st
    ensures g.vanityCode != "" ==> s == st.(guilds := st.guilds[g.id := g.vanityCode])
  {
    st.(guilds := RecordCode(st.guilds, g))
  }

  /**
   An update is actionable when the guild is available, not an ignored host
   guild, its stored code is non-empty and the new code differs from it.
   */
  predicate Actionable(cfg: Config, st: State, g: Guild, unavailable: bool)
  {
    && !unavailable
    && !HostIgnored(cfg, g.id)
    && Lookup(st.guilds, g.id) != ""
    && g.vanityCode != Lookup(st.guilds, g.id)
  }

  /**
   `guildUpdate`. An actionable change passes the cooldown gate, snipes the OLD
   code, and then (if the process is still running) records the new code.
   A change on a guild with no stored code is dropped without being recorded.
   */
  function UpdateStep(cfg: Config, st: State, g: Guild, unavailable: bool, now: int, net: nat -> Response): (r: Step)
    ensures !Actionable(cfg, st, g, unavailable) ==> r == Step(st, None)
    ensures Actionable(cfg, st, g, unavailable) && CooldownGate(cfg, st, now).OnCooldown? ==> r == Step(st, None)
    ensures r.claim.Some? <==> Actionable(cfg, st, g, unavailable) && CooldownGate(cfg, st, now).Proceed?
    ensures r.claim.Some? ==> r.claim.value.vanity == Lookup(st.guilds, g.id) && r.claim.value.slot == st.guildsIndex
    ensures r.claim.Some? && r.state.status == Running ==> r.state.guilds == st.guilds[g.id := g.vanityCode]
    ensures r.state.status != Running ==> r.state.guilds == st.guilds
    // a panic reading the destination for the cooldown check ends the process with no claim
    ensures Actionable(cfg, st, g, unavailable) && CooldownGate(cfg, st, now).IndexOutOfRange? ==>
      r == Step(st.(status := Panicked), None)
    // otherwise the snipe runs on the cooldown map the gate left, and only the alias record differs
    ensures Actionable(cfg, st, g, unavailable) && CooldownGate(cfg, st, now).Proceed? ==>
      var s := SnipeStep(cfg, st.(sameGuildIntervals := CooldownGate(cfg, st, now).sameGuildIntervals),
                         Lookup(st.guilds, g.id), net, now);
      r.claim == s.claim && r.state.(guilds := s.state.guilds) == s.state
  {
    if unavailable then Step(st, None)
    else if HostIgnored(cfg, g.id) then Step(st, None)
    else
      var stored := Lookup(st.guilds, g.id);
      if g.vanityCode == stored || stored == "" then Step(st, None)
      else
        match CooldownGate(cfg, st, now)
        case OnCooldown => Step(st, None)
        case IndexOutOfRange => Step(st.(status := Panicked), None)
        case Proceed(intervals) =>
          var s := SnipeStep(cfg, st.(sameGuildIntervals := intervals), stored, net, now);
          if s.state.status == Running then Step(s.state.(guilds := s.state.guilds[g.id := g.vanityCode]), s.claim)
          else s
  }

  /**
   `guildDelete`. It never looks at the alias map: it snipes the code the event
   carries, after the host-guild and cooldown gates.
   */
  function DeleteStep(cfg: Config, st: State, g: Guild, now: int, net: nat -> Response): (r: Step)
    ensures g.vanityCode == "" || HostIgnored(cfg, g.id) ==> r == Step(st, None)
    ensures r.state.guilds == st.guilds
    ensures r.claim.Some? <==>
      g.vanityCode != "" && !HostIgnored(cfg, g.id) && CooldownGate(cfg, st, now).Proceed?
    ensures r.claim.Some? ==> r.claim.value.vanity == g.vanityCode && r.claim.value.slot == st.guildsIndex
    ensures CooldownGate(cfg, st, now).OnCooldown? ==> r == Step(st, None)
    ensures g.vanityCode != "" && !HostIgnored(cfg, g.id) && CooldownGate(cfg, st, now).IndexOutOfRange? ==>
      r == Step(st.(status := Panicked), None)
    ensures g.vanityCode != "" && !HostIgnored(cfg, g.id) && CooldownGate(cfg, st, now).Proceed? ==>
      r == SnipeStep(cfg, st.(sameGuildIntervals := CooldownGate(cfg, st, now).sameGuildIntervals), g.vanityCode, net, now)
  {
    if g.vanityCode == "" then Step(st, None)
    else if HostIgnored(cfg, g.id) then Step(st, None)
    else
      match CooldownGate(cfg, st, now)
      case OnCooldown => Step(st, None)
      case IndexOutOfRange => Step(st.(status := Panicked), None)
      case Proceed(intervals) => SnipeStep(cfg, st.(sameGuildIntervals := intervals), g.vanityCode, net, now)
  }

  // ---------------------------------------------------------------------------
  // Runs: handler invocations one after another
  // ---------------------------------------------------------------------------

  datatype Event =
    | ReadyEvent(snapshot: seq<Guild>)
    | GuildCreateEvent(guild: Guild)
    | GuildUpdateEvent(guild: Guild, unavailable: bool)
    | GuildDeleteEvent(guild: Guild)

  /** An event together with the clock and the network it meets. */
  datatype Delivery = Delivery(event: Event, now: int, net: nat -> Response)

  function Handle(cfg: Config, st: State, d: Delivery): Step
  {
    match d.event
    case ReadyEvent(gs) => Step(ReadyStep(st, gs), None)
    case GuildCreateEvent(g) => Step(CreateStep(st, g), None)
    case GuildUpdateEvent(g, unavailable) => UpdateStep(cfg, st, g, unavailable, d.now, d.net)
    case GuildDeleteEvent(g) => DeleteStep(cfg, st, g, d.now, d.net)
  }

  datatype Trace = Trace(state: State, claims: seq<Attempt>)

  /** Handles deliveries one at a time until they run out or the process ends. */
  function Run(cfg: Config, st: State, ds: seq<Delivery>): (r: Trace)
    ensures st.status != Running ==> r == Trace(st, [])
    decreases |ds|
  {
    if ds == [] || st.status != Running then Trace(st, [])
    else
      var s := Handle(cfg, st, ds[0]);
      var rest := Run(cfg, s.state, ds[1..]);
      Trace(rest.state, (if s.claim.Some? then [s.claim.value] else []) + rest.claims)
  }
}
