/** Connection options and their validation (def/conn_option.go, def/conf.go). */
module ConnOption {
  import opened Wrappers
  import opened Errors

  type int64 = x: int | -0x8000_0000_0000_0000 <= x < 0x8000_0000_0000_0000

  /** def.ClientSide / def.ServerSide: which end of the connection originates pings. */
  datatype Side = ClientSide | ServerSide

  datatype ConnOptions = ConnOptions(
    maxMsgSize: int64,
    readTimeout: int64,
    writeTimeout: int64,
    asyncWriteSize: int64,
    side: Side,
    pongWait: int64,
    pingPeriod: int64,
    closeGracePeriod: int64)

  /** What a usable configuration is: a non-empty queue, and a ping period inside the pong window when pinging. */
  predicate Usable(co: ConnOptions)
  {
    && co.asyncWriteSize > 0
    && (co.pingPeriod == 0 || co.pingPeriod < co.pongWait)
  }

  /** ConnOptions.CheckValid: nil for a usable configuration, ErrInvalidConnParam otherwise. */
  function CheckValid(co: ConnOptions): (r: Reason)
    ensures r == None <==> Usable(co)
    ensures r != None ==> r == Some(InvalidConnParam)
  {
    if co.asyncWriteSize <= 0 then Some(InvalidConnParam)
    else if co.pingPeriod != 0 && co.pingPeriod >= co.pongWait then Some(InvalidConnParam)
    else None
  }

  /**
   * The validation the ping sender needs: besides what CheckValid rejects,
   * a negative PingPeriod, which time.NewTicker refuses with a panic.
   */
  function CheckValidStrict(co: ConnOptions): (r: Reason)
    ensures r == None <==> Usable(co) && co.pingPeriod >= 0
    ensures r != None ==> r == Some(InvalidConnParam)
  {
    if co.pingPeriod < 0 then Some(InvalidConnParam) else CheckValid(co)
  }

  /** The two validations disagree exactly on the usable options with a negative ping period. */
  lemma StrictRejectsOnlyNegativePeriods(co: ConnOptions)
    ensures CheckValidStrict(co) != CheckValid(co) <==> Usable(co) && co.pingPeriod < 0
  {
  }

  lemma EmptyQueueRejected(co: ConnOptions)
    requires co.asyncWriteSize <= 0
    ensures CheckValid(co) == Some(InvalidConnParam)
  {
  }

  lemma SlowPingRejected(co: ConnOptions)
    requires co.pingPeriod != 0 && co.pingPeriod >= co.pongWait
    ensures CheckValid(co) == Some(InvalidConnParam)
  {
  }

  /** Without pings the pong window is not looked at. */
  lemma NoPingAcceptsAnyPongWait(co: ConnOptions, pongWait: int64)
    requires co.pingPeriod == 0 && co.asyncWriteSize > 0
    ensures CheckValid(co) == None
    ensures CheckValid(co.(pongWait := pongWait)) == None
  {
  }

  /** Only the queue depth, the ping period and the pong window decide the verdict. */
  lemma CheckValidReadsThreeFields(co: ConnOptions, other: ConnOptions)
    requires other.asyncWriteSize == co.asyncWriteSize
    requires other.pingPeriod == co.pingPeriod && other.pongWait == co.pongWait
    ensures CheckValid(other) == CheckValid(co)
  {
  }

  // The shipped defaults (def/conf.go)
  const DefaultMaxMsgSize: int64 := 8192
  const DefaultReadTimeout: int64 := 600
  const DefaultWriteTimeout: int64 := 10
  const DefaultAsyncWriteSize: int64 := 20
  const DefaultPongWait: int64 := 60
  const DefaultPingPeriod: int64 := (DefaultPongWait * 9) / 10
  const DefaultCloseGracePeriod: int64 := 1

  function Defaults(side: Side): ConnOptions
  {
    ConnOptions(DefaultMaxMsgSize, DefaultReadTimeout, DefaultWriteTimeout, DefaultAsyncWriteSize,
                side, DefaultPongWait, DefaultPingPeriod, DefaultCloseGracePeriod)
  }

  lemma DefaultsAreValid(side: Side)
    ensures DefaultPingPeriod == 54
    ensures CheckValid(Defaults(side)) == None
  {
  }
}
