/**
 Properties of the claim-coordination state machine over any sequence of
 handler invocations: where the rotation cursor can be, what rotation
 guarantees, how many claims can succeed without it, and what the handlers
 do not depend on.
 */
module Properties {
  import opened Sniping

  /**
   Where the cursor may be. While the process runs it is at most
   `max(0, len(Guilds) - 2)`, because the success path resets or exits as soon
   as it reaches `len(Guilds) - 1`; once the process has exited it may be one
   further.
   */
  predicate CursorInRange(cfg: Config, st: State)
  {
    && 0 <= st.guildsIndex <= Max(1, |cfg.guilds| - 1)
    && (st.status == Running ==> st.guildsIndex <= Max(0, |cfg.guilds| - 2))
  }

  /** The number of claims that succeeded. */
  function Successes(claims: seq<Attempt>): nat
  {
    if claims == [] then 0
    else (if claims[0].outcome == Sniped then 1 else 0) + Successes(claims[1..])
  }

  /** A snipe from a running state keeps the cursor in range. */
  lemma SnipeKeepsCursorInRange(cfg: Config, st: State, vanity: string, net: nat -> Response, now: int)
    requires st.status == Running && CursorInRange(cfg, st)
    ensures CursorInRange(cfg, SnipeStep(cfg, st, vanity, net, now).state)
  {
  }

  /**
   One handler invocation keeps the cursor in range, and a snipe it starts uses
   a cursor value in range: never the index of the last destination when there
   are at least two.
   */
  lemma HandleKeepsCursorInRange(cfg: Config, st: State, d: Delivery)
    requires st.status == Running && CursorInRange(cfg, st)
    ensures CursorInRange(cfg, Handle(cfg, st, d).state)
    ensures Handle(cfg, st, d).claim.Some? ==> 0 <= Handle(cfg, st, d).claim.value.slot <= Max(0, |cfg.guilds| - 2)
  {
  }

  /**
   Over any run, the cursor stays in range and no snipe ever targets the last
   configured destination (when there are at least two).
   */
  lemma {:induction false} RunKeepsCursorInRange(cfg: Config, st: State, ds: seq<Delivery>)
    requires CursorInRange(cfg, st)
    ensures CursorInRange(cfg, Run(cfg, st, ds).state)
    ensures forall a :: a in Run(cfg, st, ds).claims ==> 0 <= a.slot <= Max(0, |cfg.guilds| - 2)
    decreases |ds|
  {
    if ds != [] && st.status == Running {
      HandleKeepsCursorInRange(cfg, st, ds[0]);
      RunKeepsCursorInRange(cfg, Handle(cfg, st, ds[0]).state, ds[1..]);
    }
  }

  /**
   With rotation on and at least one destination, a handler never ends the
   process: no exit, no out-of-range read.
   */
  lemma RotationHandleKeepsRunning(cfg: Config, st: State, d: Delivery)
    requires cfg.rotateGuilds && |cfg.guilds| >= 1
    requires st.status == Running && CursorInRange(cfg, st)
    ensures Handle(cfg, st, d).state.status == Running
    ensures Handle(cfg, st, d).claim.Some? ==> Handle(cfg, st, d).claim.value.outcome != IndexPanic
  {
  }

  /**
   With rotation on and at least one destination, the process keeps running
   over any run, and every snipe reads a destination inside the list.
   */
  lemma {:induction false} RotationKeepsRunning(cfg: Config, st: State, ds: seq<Delivery>)
    requires cfg.rotateGuilds && |cfg.guilds| >= 1
    requires st.status == Running && CursorInRange(cfg, st)
    ensures Run(cfg, st, ds).state.status == Running
    ensures forall a :: a in Run(cfg, st, ds).claims ==> 0 <= a.slot < |cfg.guilds| && a.outcome != IndexPanic
    decreases |ds|
  {
    if ds != [] {
      var s := Handle(cfg, st, ds[0]);
      HandleKeepsCursorInRange(cfg, st, ds[0]);
      RotationHandleKeepsRunning(cfg, st, ds[0]);
      RotationKeepsRunning(cfg, s.state, ds[1..]);
    }
  }

  /** Without rotation, a handler moves the cursor by exactly the number of claims it won. */
  lemma NoRotationHandleCountsSuccesses(cfg: Config, st: State, d: Delivery)
    requires !cfg.rotateGuilds
    ensures Handle(cfg, st, d).state.guildsIndex ==
      st.guildsIndex + (if Handle(cfg, st, d).claim.Some? && Handle(cfg, st, d).claim.value.outcome == Sniped then 1 else 0)
  {
  }

  /** Without rotation, the cursor counts the successful claims. */
  lemma {:induction false} NoRotationCursorCountsSuccesses(cfg: Config, st: State, ds: seq<Delivery>)
    requires !cfg.rotateGuilds
    ensures Run(cfg, st, ds).state.guildsIndex == st.guildsIndex + Successes(Run(cfg, st, ds).claims)
    decreases |ds|
  {
    if ds != [] && st.status == Running {
      var s := Handle(cfg, st, ds[0]);
      var rest := Run(cfg, s.state, ds[1..]);
      NoRotationHandleCountsSuccesses(cfg, st, ds[0]);
      NoRotationCursorCountsSuccesses(cfg, s.state, ds[1..]);
      var first := if s.claim.Some? then [s.claim.value] else [];
      assert Run(cfg, st, ds).claims == first + rest.claims;
      if s.claim.Some? {
        assert (first + rest.claims)[1..] == rest.claims;
        assert Successes(first + rest.claims) ==
          (if s.claim.value.outcome == Sniped then 1 else 0) + Successes(rest.claims);
      } else {
        assert first + rest.claims == rest.claims;
      }
    }
  }

  /**
   Without rotation, from the initial state no more than `max(1, len(Guilds) - 1)`
   claims ever succeed: the process exits when the cursor reaches the last
   destination, which is therefore never used once there are two or more.
   */
  lemma NoRotationSuccessesBounded(cfg: Config, ds: seq<Delivery>)
    requires !cfg.rotateGuilds
    ensures Successes(Run(cfg, Initial(), ds).claims) <= Max(1, |cfg.guilds| - 1)
  {
    RunKeepsCursorInRange(cfg, Initial(), ds);
    NoRotationCursorCountsSuccesses(cfg, Initial(), ds);
  }

  /**
   `guildDelete` does not depend on the alias map: with any other alias map it
   starts the same snipe and leaves everything else the same.
   */
  lemma DeleteIgnoresAliases(cfg: Config, st: State, aliases: map<string, string>, g: Guild, now: int, net: nat -> Response)
    ensures DeleteStep(cfg, st.(guilds := aliases), g, now, net) ==
      var r := DeleteStep(cfg, st, g, now, net);
      Step(r.state.(guilds := aliases), r.claim)
  {
  }

  /**
   The cooldown cleanup is idempotent: checking again against the cleaned-up
   map lets the claim through with the same map.
   */
  lemma CooldownCleanupIdempotent(cfg: Config, st: State, now: int)
    requires CooldownGate(cfg, st, now).Proceed?
    ensures var m := CooldownGate(cfg, st, now).sameGuildIntervals;
      CooldownGate(cfg, st.(sameGuildIntervals := m), now) == Proceed(m)
  {
  }

  /**
   The cleared-vanity scenario: a watched guild's known code is cleared while
   the current destination is free; with a 200 on the first request the old
   code is claimed for that destination, the destination starts cooling down,
   the cursor moves on and the guild is recorded with no code.
   */
  lemma ClearedCodeIsClaimed(cfg: Config, st: State, id: string, now: int, net: nat -> Response)
    requires st.status == Running && 0 <= st.guildsIndex && st.guildsIndex + 2 < |cfg.guilds|
    requires Lookup(st.guilds, id) != "" && !HostIgnored(cfg, id)
    requires cfg.sameGuildTimeout > 0 && cfg.guilds[st.guildsIndex] !in st.sameGuildIntervals
    requires net(0) == Ok
    ensures var r := UpdateStep(cfg, st, Guild(id, ""), false, now, net);
      var dest := cfg.guilds[st.guildsIndex];
      && r.claim == Some(Attempt(Lookup(st.guilds, id), st.guildsIndex, 1, Sniped))
      && r.state.sameGuildIntervals == st.sameGuildIntervals[dest := now + cfg.sameGuildTimeout]
      && dest in r.state.sameGuildIntervals && r.state.sameGuildIntervals[dest] > now
      && r.state.guildsIndex == st.guildsIndex + 1
      && r.state.guilds == st.guilds[id := ""]
  {
  }
}
