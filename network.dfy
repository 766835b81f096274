/** pkg/network/server.go: the configuration every server is built from, the
    sentence groups an NMEA 0183 server generates, and the base that every
    server embeds (its configuration and its one-shot Done signal). */
module Network {

  /** Which groups of NMEA 0183 sentences a server generates each tick. */
  datatype SentenceOptions = SentenceOptions(
    enablePosition: bool,
    enableNavigation: bool,
    enableEnvironment: bool)

  /** Config; the logger it carries is not part of this model. The update
      interval is a time.Duration, a count of nanoseconds. */
  datatype Config = Config(
    host: string,
    port: int,
    updateInterval: int,
    sentenceOptions: SentenceOptions,
    baudRate: int,
    protocol: string)

  /** What a Start call comes to. `Serving` is a call that has not returned:
      the server runs until it is closed from outside (ListenAndServe, or a
      wait on the context). */
  datatype StartResult = Started | Failed | Serving

  /** The error result of Stop: nil or an error. */
  datatype Status = Ok | Err

  /** BaseServer: the configuration and the Done signal. `doneClosed` records
      that `close(Done)` has happened; closing it a second time is a panic in
      Go, so every method that closes it unguarded requires it still open. */
  class BaseServer {
    const config: Config
    var doneClosed: bool

    /** NewBaseServer. */
    constructor (cfg: Config)
      ensures config == cfg && !doneClosed
    {
      config := cfg;
      doneClosed := false;
    }

    /** `close(Done)`. */
    method CloseDone()
      requires !doneClosed
      modifies this
      ensures doneClosed
    {
      doneClosed := true;
    }
  }
}
