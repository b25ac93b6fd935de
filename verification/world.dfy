/**
 * The parts of the outside world the agents consult: the language-model
 * gateway, the clock and the JSON decoder. Each is a scripted oracle handed
 * to the model as input; `Io` records how much of each has been used.
 */
module World {
  import opened Base

  /** What one raw gateway call yields: generated text or an error's display text. */
  datatype Reply = Ok(text: string) | Err(error: string)

  /**
   * The scripted oracles.
   * - `gateway(n)` answers the n-th raw call to the language model (counting from 0);
   * - `clock(n)` is the n-th reading of the local clock;
   * - `parseStrings(s)` is `serde_json::from_str::<Vec<String>>(s)`, None when it fails.
   */
  datatype Env = Env(
    gateway: nat -> Reply,
    clock: nat -> Stamp,
    parseStrings: string -> Option<seq<string>>)

  /** Consumption of the oracles so far: every message sent to the gateway, and the number of clock readings. */
  datatype Io = Io(sent: seq<Message>, ticks: nat)

  /** A clock reading together with the consumption record after it. */
  datatype Reading = Reading(now: Stamp, io: Io)

  /** `Local::now()`: takes the next clock reading. */
  function ReadClock(env: Env, io: Io): (r: Reading)
    ensures r.now == env.clock(io.ticks)
    ensures r.io.sent == io.sent && r.io.ticks == io.ticks + 1
  {
    Reading(env.clock(io.ticks), Io(io.sent, io.ticks + 1))
  }
}
