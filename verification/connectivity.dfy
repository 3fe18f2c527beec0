/**
 * WiFi / Adafruit IO connection handling of the measurement cycle:
 * the reconnect check, the bounded wait loop of wifi_connect and the
 * status gates in front of io.run() and the feed saves.
 *
 * There is no connection-state variable: every decision re-reads a status
 * from the library, and each such answer is an input here.
 */
module Connectivity {
  import opened Trace

  // wl_status_t codes of the Arduino-ESP32 WiFi library
  const WL_IDLE_STATUS: int := 0
  const WL_CONNECTED: int := 3
  const WL_CONNECT_FAILED: int := 4
  const WL_CONNECTION_LOST: int := 5
  const WL_DISCONNECTED: int := 6

  // aio_status_t code of the Adafruit IO library
  const AIO_CONNECTED: int := 21

  const MAX_WAIT_STATES: nat := 10
  const POLL_DELAY_MS: nat := 1000

  /** The WiFi statuses on which aio_connectIfDisconnected calls wifi_connect. */
  predicate NeedsReconnect(wifiStatus: int)
  {
    wifiStatus == WL_CONNECT_FAILED || wifiStatus == WL_CONNECTION_LOST || wifiStatus == WL_DISCONNECTED
  }

  /** The isAdafruitIoConnected() macro. */
  predicate IsAioConnected(aioStatus: int)
  {
    aioStatus >= AIO_CONNECTED
  }

  /** The events of the reconnect: the connect request, a status poll, a one-second wait. */
  const LINK_KINDS: set<Kind> := {ConnectKind, PollKind, DelayKind(POLL_DELAY_MS)}

  /** One turn of the wait loop in wifi_connect: a status read, then one second. */
  const POLL_ROUND: seq<Event> := [Poll, Delay(POLL_DELAY_MS)]

  /**
   * The wait loop of wifi_connect, fed the answers `answer(0), answer(1), ...`
   * of its successive WiFi.status() calls, leaves after exactly `k` polls:
   * between 1 and 10 of them, none but possibly the last answered connected,
   * and fewer than 10 only because the last one did.
   */
  ghost predicate StopsAfter(answer: nat -> int, k: nat)
  {
    && 1 <= k <= MAX_WAIT_STATES
    && (forall i :: 0 <= i < k - 1 ==> answer(i) != WL_CONNECTED)
    && (k < MAX_WAIT_STATES ==> answer(k - 1) == WL_CONNECTED)
  }

  lemma StopsAfterUnique(answer: nat -> int, k1: nat, k2: nat)
    requires StopsAfter(answer, k1) && StopsAfter(answer, k2)
    ensures k1 == k2
  {
  }

  function PollsFrom(answer: nat -> int, i: nat): (k: nat)
    requires 1 <= i <= MAX_WAIT_STATES
    requires forall j :: 0 <= j < i - 1 ==> answer(j) != WL_CONNECTED
    ensures i <= k && StopsAfter(answer, k)
    decreases MAX_WAIT_STATES - i
  {
    if i == MAX_WAIT_STATES || answer(i - 1) == WL_CONNECTED then i
    else PollsFrom(answer, i + 1)
  }

  /** The number of status polls wifi_connect makes. */
  function PollsTaken(answer: nat -> int): (k: nat)
    ensures StopsAfter(answer, k)
  {
    PollsFrom(answer, 1)
  }

  /** Effects of wifi_connect: one connect request, then `PollsTaken` poll rounds. */
  function WifiConnect(answer: nat -> int): seq<Event>
  {
    [Connect] + Repeat(POLL_ROUND, PollsTaken(answer))
  }

  /** wifi_connect with its wait loop as written, starting from `status = 0`. */
  method WifiConnectLoop(answer: nat -> int) returns (t: seq<Event>)
    ensures t == WifiConnect(answer)
  {
    var status := WL_IDLE_STATUS;
    var waitStates: nat := 0;
    t := [Connect];
    while status != WL_CONNECTED && waitStates < MAX_WAIT_STATES
      invariant waitStates <= MAX_WAIT_STATES
      invariant t == [Connect] + Repeat(POLL_ROUND, waitStates)
      invariant waitStates == 0 ==> status == WL_IDLE_STATUS
      invariant waitStates > 0 ==> status == answer(waitStates - 1)
      invariant forall j :: 0 <= j < waitStates - 1 ==> answer(j) != WL_CONNECTED
      decreases MAX_WAIT_STATES - waitStates
    {
      waitStates := waitStates + 1;
      status := answer(waitStates - 1);
      t := t + POLL_ROUND;
    }
    StopsAfterUnique(answer, waitStates, PollsTaken(answer));
  }

  /** Every event of wifi_connect is the connect request, a poll or a one-second delay. */
  lemma WifiConnectEvents(answer: nat -> int)
    ensures AllOf(WifiConnect(answer), LINK_KINDS)
  {
    var rounds := Repeat(POLL_ROUND, PollsTaken(answer));
    RepeatMembers(POLL_ROUND, PollsTaken(answer));
    assert forall e :: e in rounds ==> e in POLL_ROUND;
  }

  lemma RoundFilters()
    ensures Filter(POLL_ROUND, CONNECTS) == []
    ensures Filter(POLL_ROUND, POLLS) == [Poll]
    ensures Filter([Connect], CONNECTS) == [Connect]
    ensures Filter([Connect], POLLS) == []
    ensures TotalDelay(POLL_ROUND) == POLL_DELAY_MS
  {
    FilterNoneOf(POLL_ROUND, ROUND_KINDS, CONNECTS);
    FilterAppend([Poll], [Delay(POLL_DELAY_MS)], POLLS);
    FilterSingle(Poll, POLLS);
    FilterSingle(Delay(POLL_DELAY_MS), POLLS);
    FilterSingle(Connect, CONNECTS);
    FilterSingle(Connect, POLLS);
    TotalDelayAppend([Poll], [Delay(POLL_DELAY_MS)]);
    assert TotalDelay([Poll]) == 0;
    assert TotalDelay([Delay(POLL_DELAY_MS)]) == POLL_DELAY_MS;
  }

  /** The kinds of event one poll round produces. */
  const ROUND_KINDS: set<Kind> := {PollKind, DelayKind(POLL_DELAY_MS)}

  lemma RoundsKinds(k: nat)
    ensures AllOf(Repeat(POLL_ROUND, k), ROUND_KINDS)
  {
    RepeatMembers(POLL_ROUND, k);
  }

  lemma RoundsConnects(k: nat)
    ensures Filter([Connect] + Repeat(POLL_ROUND, k), CONNECTS) == [Connect]
  {
    var rounds := Repeat(POLL_ROUND, k);
    RoundsKinds(k);
    FilterNoneOf(rounds, ROUND_KINDS, CONNECTS);
    FilterAppend([Connect], rounds, CONNECTS);
    FilterSingle(Connect, CONNECTS);
  }

  lemma RoundsPolls(k: nat)
    ensures Filter([Connect] + Repeat(POLL_ROUND, k), POLLS) == Repeat([Poll], k)
    ensures Count([Connect] + Repeat(POLL_ROUND, k), POLLS) == k
  {
    RoundFilters();
    FilterAppend([Connect], Repeat(POLL_ROUND, k), POLLS);
    RepeatFilter(POLL_ROUND, k, POLLS);
    RepeatLength([Poll], k);
  }

  lemma RoundsDelay(k: nat)
    ensures TotalDelay([Connect] + Repeat(POLL_ROUND, k)) == POLL_DELAY_MS * k
  {
    RoundFilters();
    TotalDelayAppend([Connect], Repeat(POLL_ROUND, k));
    RepeatTotalDelay(POLL_ROUND, k);
  }

  /**
   * wifi_connect requests the connection exactly once, polls between 1 and
   * 10 times, and sleeps one second after every poll, the successful one included.
   */
  lemma WifiConnectPolls(answer: nat -> int)
    ensures Filter(WifiConnect(answer), CONNECTS) == [Connect]
    ensures 1 <= Count(WifiConnect(answer), POLLS) == PollsTaken(answer) <= MAX_WAIT_STATES
    ensures TotalDelay(WifiConnect(answer)) == POLL_DELAY_MS * Count(WifiConnect(answer), POLLS)
  {
    var k := PollsTaken(answer);
    RoundsConnects(k);
    RoundsPolls(k);
    RoundsDelay(k);
  }

  /** Effects of aio_connectIfDisconnected for the WiFi status it reads. */
  function ConnectIfDisconnected(wifiStatus: int, answer: nat -> int): seq<Event>
  {
    if NeedsReconnect(wifiStatus) then WifiConnect(answer) else []
  }

  /**
   * The reconnect check calls io.connect() iff the status is a lost-link
   * code; otherwise it does nothing. It only connects, polls and waits.
   */
  lemma ConnectIfDisconnectedEvents(wifiStatus: int, answer: nat -> int)
    ensures var t := ConnectIfDisconnected(wifiStatus, answer);
      && (Connect in t <==> NeedsReconnect(wifiStatus))
      && (!NeedsReconnect(wifiStatus) ==> t == [])
      && AllOf(t, LINK_KINDS)
  {
    WifiConnectEvents(answer);
    if NeedsReconnect(wifiStatus) {
      assert WifiConnect(answer)[0] == Connect;
    }
  }

  /** Effects of aio_checkIoEventsIfConnected for the io.status() it reads. */
  function CheckIoEvents(aioStatus: int): (t: seq<Event>)
    ensures RunEvents in t <==> IsAioConnected(aioStatus)
    ensures |t| <= 1 && AllOf(t, IO_RUNS)
  {
    if IsAioConnected(aioStatus) then [RunEvents] else []
  }

  /** Effects of wifi_setup: the event handler is registered, then wifi_connect runs. */
  function WifiSetup(answer: nat -> int): (t: seq<Event>)
    ensures |t| >= 2 && t[0] == RegisterWifiHandler && t[1] == Connect
  {
    [RegisterWifiHandler] + WifiConnect(answer)
  }

  /** The events of wifi_setup: the handler registration, then those of the reconnect. */
  const WIFI_SETUP_KINDS: set<Kind> := LINK_KINDS + {RegisterWifiHandlerKind}

  /** Set-up only registers the handler, connects, polls and waits. */
  lemma WifiSetupEvents(answer: nat -> int)
    ensures AllOf(WifiSetup(answer), WIFI_SETUP_KINDS)
  {
    WifiConnectEvents(answer);
  }

  /** Set-up connects exactly once and waits as wifi_connect does. */
  lemma WifiSetupConnects(answer: nat -> int)
    ensures Filter(WifiSetup(answer), CONNECTS) == [Connect]
    ensures Count(WifiSetup(answer), POLLS) == PollsTaken(answer)
  {
    FilterAppend([RegisterWifiHandler], WifiConnect(answer), CONNECTS);
    FilterAppend([RegisterWifiHandler], WifiConnect(answer), POLLS);
    WifiConnectPolls(answer);
  }
}
