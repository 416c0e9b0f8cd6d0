# Vanity sniper claim coordination, modelled in Dafny

This project models the claim-coordination core of a Discord vanity-URL sniper. The sniper watches guilds for changes to their vanity code. When a known code is changed or freed, it tries to claim that code for one of the operator's own guilds (the destinations).

The core is the four gateway event handlers (`ready`, `guildCreate`, `guildUpdate`, `guildDelete`) and `snipe`, which sends the claim. They act on three process-wide variables:
- `guilds`: the alias map from a watched guild to its last seen vanity code.
- `sameGuildIntervals`: the cooldown map from a destination guild to the time its cooldown expires.
- `guildsIndex`: the rotation cursor into the configured destination list.

Files:
- `helpers.dfy` (module `Helpers`): `If`, `strip` and the `strings.Repeat` it uses, with lemmas.
- `sniping.dfy` (module `Sniping`): the handlers and `snipe` as pure functions over a `State` value.
  - Each function's contract gives the rules the code follows: when a change is actionable, the cooldown gate, the retry bound and the success path.
  - `Run` applies handler invocations one after another.
- `client.dfy` (module `Client`): class `Sniper`, whose fields are the three variables plus a status.
  - Its methods update the fields in place, as the handlers do. `snipe`'s self-recursion on a 429 response is a loop.
  - Each method is proved to give exactly the state, and the snipe, that the matching `Sniping` function gives.
- `properties.dfy` (module `Properties`): lemmas over any sequence of events.
  - They cover the bounds of the rotation cursor, that rotation keeps the process alive, and the number of successful claims without rotation.
  - They also prove that `guildDelete` does not depend on the alias map, and that cooldown clean-up is idempotent.

Abstractions:
- The network is an oracle `net: nat -> Response`. `net(t)` is the response to the request that carries retry counter `t`. A response is one of: 200, 400, 429, a transport/read error, or any other status.
- The clock is an integer `now`, in milliseconds. One handler invocation uses one `now`.
- The process's end is a `status`:
  - `Exited` when `exit()` is called because the destinations ran out.
  - `Panicked` when `config.Guilds[guildsIndex]` is read out of range, which can only happen with an empty destination list.
  - `Run` handles no more events once the status is not `Running`.

Behaviours of the code that the model keeps as written:
- The cursor wraps, or the process exits, once it reaches `len(Guilds) - 1`, not `len(Guilds)`. So once there are two or more destinations, the last one is never a claim destination. `RunKeepsCursorInRange` proves this.
- Without rotation, at most `max(1, len(Guilds) - 1)` claims ever succeed. `NoRotationSuccessesBounded` proves this.
- `guildDelete` claims the code carried by the event and never reads or writes the alias map.
- `ready` and `guildCreate` record only non-empty codes, so a guild seen without a code stays unknown.
- An update on a guild whose stored code is empty or missing returns without recording the new code. So a guild that gains a code is not tracked until a later `guildCreate` or `ready` records it.
- The cooldown gate is keyed on the current destination, not on the guild of the event.
- When `snipe` ends the process with `exit()`, the new code is not recorded, because `guildUpdate`'s assignment after `snipe` never runs.

## Model

| member | source | states |
|---|---|---|
| `Helpers.If` | main.go:56-62 | yields the first value when the condition holds and the second otherwise |
| `Helpers.Repeat` | main.go:69 | `strings.Repeat` of one character gives exactly `n` characters, each of them that character |
| `Helpers.Strip` | main.go:64-70 | the result has the input's length; a string shorter than `length` comes back unchanged; the first `length` characters are kept and every later one is `'x'` |
| `Helpers.StripUnique` | main.go:69 | any string with the input's length, its first `length` characters and only `'x'` after them is the stripped string |
| `Helpers.StripIdempotent` | main.go:64-70 | stripping a stripped string with the same length changes nothing |
| `Sniping.CooldownGate` | client.go:79-92 | with a zero timeout the gate passes without change. Otherwise an out-of-range cursor panics. A claim is blocked exactly when the current destination has an expiry later than `now`, and a passing gate removes the destination's entry |
| `Sniping.FinalTry` | client.go:186-209 | the last retry counter lies between the first and `max(Retries, first)`. Every earlier request was rate-limited, and the last one either was not rate-limited or had no retry left |
| `Sniping.RecordSuccess` | client.go:232-249 | the alias map is untouched. The used destination gets expiry `now + SameGuildTimeout` when the timeout is non-zero. The cursor advances by one; at `len(Guilds) - 1` or beyond it resets to 0 with rotation, and otherwise the process exits |
| `Sniping.SnipeStep` | client.go:144-253 | claims the given code with the current cursor, sending at most `max(Retries, 0) + 1` requests and only retrying after 429s. An exhausted retry budget means exactly that many requests. A 200 applies the success path; 400, transport errors and unknown statuses change nothing; an out-of-range cursor panics before any request |
| `Sniping.CodedIds` | client.go:47-51 | the set is exactly the IDs of snapshot guilds that carry a code |
| `Sniping.RecordAll` | client.go:47-51 | the keys become the old keys plus the coded IDs. IDs with no coded guild keep their entry, and each ID ends with its last non-empty code in the snapshot |
| `Sniping.RecordCodeKeeps` | client.go:47-50 | recording the last snapshot guild leaves every entry untouched whose ID has no code anywhere in the snapshot |
| `Sniping.RecordCodeLast` | client.go:47-50 | after the last snapshot guild is recorded, every guild that is the last coded one for its ID has its code in the map |
| `Sniping.ReadyStep` | client.go:44-52 | `ready` changes only the alias map and adds exactly the coded IDs of the snapshot |
| `Sniping.CreateStep` | client.go:54-59 | a guild with a code is inserted or overwritten; a guild without one changes nothing |
| `Sniping.UpdateStep` | client.go:61-98 | an unavailable guild, an ignored host guild, an unchanged code and an empty or missing stored code all change nothing and claim nothing. A live cooldown on the current destination suppresses the claim with no state change. A claim happens exactly when the change is actionable and the gate passes; it targets the old stored code, and afterwards the record holds the new code if the process still runs. An out-of-range read at the cooldown check panics with no claim. When the gate passes, the claim and the new cooldown map, cursor and status are exactly those of `SnipeStep` run on the map the gate left |
| `Sniping.DeleteStep` | client.go:100-126 | an empty code or an ignored host guild does nothing. The alias map is never written. A claim of the event's own code happens exactly when the gate passes, and a live cooldown changes nothing. An out-of-range read at the cooldown check panics with no claim. When the gate passes, the result is exactly `SnipeStep` of the event's code on the map the gate left |
| `Sniping.Run` | main.go:45-54 | once the process has exited or crashed, no further event changes the state or claims |
| `Client.Sniper.constructor` | main.go:13-18 | the shared state starts as an empty alias map, an empty cooldown map and cursor 0 |
| `Client.Sniper.Ready` | client.go:44-52 | the loop over the snapshot leaves the state `ReadyStep` describes |
| `Client.Sniper.GuildCreate` | client.go:54-59 | inserts the guild's code only when it is non-empty; nothing else changes |
| `Client.Sniper.CheckCooldown` | client.go:79-92 | proceeds, blocks or panics as `CooldownGate` says, deleting an expired entry in place |
| `Client.Sniper.Snipe` | client.go:144-253 | the retry loop and the success path leave the state and return the attempt `SnipeStep` describes; failures change nothing |
| `Client.Sniper.GuildUpdate` | client.go:61-98 | leaves the state and returns the claim that `UpdateStep` describes |
| `Client.Sniper.GuildDelete` | client.go:100-126 | leaves the state and returns the claim that `DeleteStep` describes; the alias map is unchanged |
| `Properties.SnipeKeepsCursorInRange` | client.go:232-249 | a snipe from a running state keeps the cursor within `[0, max(0, len - 2)]` while running and `[0, max(1, len - 1)]` always |
| `Properties.HandleKeepsCursorInRange` | client.go:232-249 | one handler keeps the cursor in range, and any snipe it starts reads a cursor within `[0, max(0, len - 2)]` |
| `Properties.RunKeepsCursorInRange` | client.go:241-249 | over any run the cursor stays in range, and no claim ever uses index `len - 1` once there are two or more destinations |
| `Properties.RotationHandleKeepsRunning` | client.go:241-245 | with rotation and at least one destination, a handler neither exits nor panics |
| `Properties.RotationKeepsRunning` | client.go:241-245 | with rotation and at least one destination, the process keeps running over any run. Every read of `config.Guilds[guildsIndex]` is in bounds |
| `Properties.NoRotationHandleCountsSuccesses` | client.go:232 | without rotation, a handler advances the cursor by one exactly when it wins a claim |
| `Properties.NoRotationCursorCountsSuccesses` | client.go:232-248 | without rotation, the cursor grows by exactly the number of successful claims over any run |
| `Properties.NoRotationSuccessesBounded` | client.go:241-248 | without rotation, at most `max(1, len(Guilds) - 1)` claims succeed from the initial state |
| `Properties.DeleteIgnoresAliases` | client.go:100-126 | `guildDelete` gives the same claim and the same non-alias state whatever the alias map holds |
| `Properties.CooldownCleanupIdempotent` | client.go:110-123 | re-checking the gate after it removed an expired entry passes again with the same map |
| `Properties.ClearedCodeIsClaimed` | client.go:70-96 | a known code cleared while the destination is free is claimed on the first 200. The destination then cools down until after `now`, the cursor advances, and the guild is recorded with no code |

## Left out

- Session setup (`createClient`: login, intents, registering the handlers, opening and closing the gateway connection) is network I/O through a foreign library.
- The HTTP work in `snipe` (payload marshalling, request headers, sending, reading and decoding the body) is replaced by the response oracle. A request that cannot be built, sent or read is the `TransportError` response.
- The wait before a retry (`retry_after`, truncated to whole seconds and slept) is floating point and blocking. It is a no-op step, and the clock does not advance during a handler.
- `Sniping.RecordSuccess`: does not model the overflow of `time.Duration(SameGuildTimeout) * time.Millisecond` for huge timeouts. The expiry is the unbounded `now + SameGuildTimeout`.
- `Client.Sniper.Snipe`: reads the destination once per call. The source re-reads `config.Guilds[guildsIndex]` on every retry, which gives the same value when handlers run one at a time.
- Concurrency: the source runs handlers of several sessions concurrently on unsynchronised globals. Here each handler invocation is one atomic step, and interleavings are not modelled.
- The configuration loader, the build-number lookup and the webhook notification sent after a success are I/O. The notification has no effect on the modelled state.
- Process control (`main`'s signal wait and `exit()` closing the sessions) is reduced to the `Exited` status.
- Logging, including the "unknown response code" line printed after a 200, and the elapsed-time measurement, have no effect on state.
- `Helpers.Strip`: takes `length` as a natural number. Go panics on a negative `length` at the slice `content[0:length]`, and that panic is not modelled; the only callers pass 30.
- Go strings are byte strings; a `string` element here stands for one byte.
