/**
 * The Go relay (main.go): one `QQBot` per accepted client socket, holding the
 * client connection, at most one upstream ("target") connection, and the
 * reconnect counter.  Sockets and goroutines are abstracted: every read,
 * write and dial outcome is an input, and each connection-level action the
 * bot takes (close, dial, sleep, start a reader goroutine) is appended to the
 * bot's `effects` log.  The per-message loops `readTarget` and `readSelf`
 * consume sequences of read outcomes; a sequence that runs out leaves the
 * loop blocked in its next read.
 */
module GoRelay {
  import opened Wrappers
  import opened Decimal
  import opened ConnectionRegistry

  type Message = seq<bv8>

  /** An upstream connection returned by the dialer. */
  type Handle = nat

  /** `maxRetries: 10` and `retryDelay: 5 * time.Second` in handleWebSocket. */
  const MaxRetries: int := 10
  const RetryDelaySeconds: nat := 5
  /** `http.StatusBadRequest`. */
  const BadRequest: int := 400

  datatype DialResult = Dialed(conn: Handle) | DialFailed

  /** A connection-level action of the bot, in the order the bot performs it. */
  datatype Effect =
    | CloseTarget(conn: Handle)   // bot.target.Close()
    | Dial(url: string)           // dialer.Dial(bot.url, nil)
    | StartReadTarget             // go bot.readTarget()
    | StartReadSelf               // go bot.readSelf()
    | Sleep(seconds: nat)         // time.Sleep(bot.retryDelay)
    | CloseSelf                   // bot.self.Close() / conn.Close()

  /** What closing the current target logs: nothing when there is none. */
  function CloseIfPresent(target: Option<Handle>): (r: seq<Effect>) {
    if target.Some? then [CloseTarget(target.value)] else []
  }

  /** One outcome of `bot.target.ReadMessage()`, with the outcome of relaying it to the client. */
  datatype TargetRead =
    | TargetMessage(data: Message, clientWriteOk: bool)
    | TargetReadError(dial: DialResult)   // with the outcome of the one reconnect dial

  datatype TargetExit = TargetBlocked | ClientWriteFailed | Reconnected | TornDown

  /** One outcome of `bot.self.ReadMessage()`, with the outcome of writing it upstream. */
  datatype ClientRead =
    | ClientMessage(data: Message, targetWriteOk: bool)
    | ClientReadError

  datatype SelfExit = SelfBlocked | ClientGone

  /** Position of the read that ends `readTarget`'s loop, or `|results|` when none does. */
  function TargetStop(results: seq<TargetRead>): (i: nat)
    ensures i <= |results|
    ensures forall j :: 0 <= j < i ==> results[j].TargetMessage? && results[j].clientWriteOk
    ensures i < |results| ==> !(results[i].TargetMessage? && results[i].clientWriteOk)
  {
    if results == [] || !(results[0].TargetMessage? && results[0].clientWriteOk) then 0
    else 1 + TargetStop(results[1..])
  }

  /** Position of the client read error that ends `readSelf`'s loop, or `|results|`. */
  function ClientStop(results: seq<ClientRead>): (i: nat)
    ensures i <= |results|
    ensures forall j :: 0 <= j < i ==> results[j].ClientMessage?
    ensures i < |results| ==> results[i].ClientReadError?
  {
    if results == [] || results[0].ClientReadError? then 0 else 1 + ClientStop(results[1..])
  }

  /** The client messages whose upstream write succeeds, in arrival order. */
  function Upstreamed(results: seq<ClientRead>): (r: seq<Message>)
    requires forall j :: 0 <= j < |results| ==> results[j].ClientMessage?
    ensures |r| <= |results|
  {
    if results == [] then []
    else
      var last := results[|results| - 1];
      Upstreamed(results[..|results| - 1]) + if last.targetWriteOk then [last.data] else []
  }

  /** When every upstream write succeeds, every client message goes upstream, in order, once. */
  lemma {:induction false} UpstreamedAllWhenWritesSucceed(results: seq<ClientRead>)
    requires forall j :: 0 <= j < |results| ==> results[j].ClientMessage? && results[j].targetWriteOk
    ensures |Upstreamed(results)| == |results|
    ensures forall j :: 0 <= j < |results| ==> Upstreamed(results)[j] == results[j].data
  {
    if results != [] {
      UpstreamedAllWhenWritesSucceed(results[..|results| - 1]);
    }
  }

  class QQBot {
    const appid: int
    const url: string
    const maxRetries: int
    const retryDelay: nat
    /** The registry this bot removes itself from (`userConnections`). */
    const registry: Registry<QQBot>
    var target: Option<Handle>
    var reconnectCount: int
    var effects: seq<Effect>
    /** Live `readTarget` goroutines: one is started per successful dial. */
    ghost var readers: nat

    ghost predicate Valid()
      reads this
    {
      && maxRetries == MaxRetries
      && 0 <= reconnectCount <= maxRetries
      && readers <= 1
      && (readers == 1 ==> reconnectCount == 0)
    }

    /** The `&QQBot{...}` literal of handleWebSocket. */
    constructor (appid: int, url: string, registry: Registry<QQBot>)
      ensures Valid()
      ensures this.appid == appid && this.url == url && this.registry == registry
      ensures retryDelay == RetryDelaySeconds
      ensures target == None && reconnectCount == 0 && effects == [] && readers == 0
    {
      this.appid := appid;
      this.url := url;
      this.registry := registry;
      maxRetries := MaxRetries;
      retryDelay := RetryDelaySeconds;
      target := None;
      reconnectCount := 0;
      effects := [];
      readers := 0;
    }

    /**
     * `connectTarget`: close and clear the old target, dial the fixed url;
     * on success install the connection, reset the counter and start a
     * reader; on failure leave the target nil and the counter as it was.
     */
    method ConnectTarget(dial: DialResult) returns (ok: bool)
      requires Valid() && readers == 0
      modifies this
      ensures Valid()
      ensures ok == dial.Dialed?
      ensures target == if ok then Some(dial.conn) else None
      ensures reconnectCount == if ok then 0 else old(reconnectCount)
      ensures readers == if ok then 1 else 0
      ensures effects == old(effects) + CloseIfPresent(old(target)) + [Dial(url)]
                         + if ok then [StartReadTarget] else []
    {
      if target.Some? {
        effects := effects + [CloseTarget(target.value)];
        target := None;
      }
      effects := effects + [Dial(url)];
      if dial.DialFailed? {
        return false;
      }
      target := Some(dial.conn);
      reconnectCount := 0;
      effects := effects + [StartReadTarget];
      readers := readers + 1;
      return true;
    }

    /**
     * `handleReconnect`: once the counter has reached `maxRetries`, fail
     * without counting, sleeping or dialing; otherwise count one attempt,
     * sleep the retry delay and connect.
     */
    method HandleReconnect(dial: DialResult) returns (ok: bool)
      requires Valid() && readers == 0
      modifies this
      ensures Valid()
      ensures old(reconnectCount) >= maxRetries ==>
        && !ok && target == old(target) && reconnectCount == old(reconnectCount)
        && effects == old(effects) && readers == 0
      ensures old(reconnectCount) < maxRetries ==>
        && ok == dial.Dialed?
        && target == (if ok then Some(dial.conn) else None)
        && reconnectCount == (if ok then 0 else old(reconnectCount) + 1)
        && readers == (if ok then 1 else 0)
        && effects == old(effects) + [Sleep(retryDelay)] + CloseIfPresent(old(target)) + [Dial(url)]
                      + (if ok then [StartReadTarget] else [])
    {
      if reconnectCount >= maxRetries {
        return false;
      }
      reconnectCount := reconnectCount + 1;
      effects := effects + [Sleep(retryDelay)];
      ok := ConnectTarget(dial);
    }

    /**
     * `cleanup`: close and clear the target, then remove every occurrence of
     * this bot under the key `FormatInt(appid)`, deleting the key if its list
     * becomes empty.
     */
    method Cleanup()
      requires Valid() && registry.Valid()
      modifies this, registry
      ensures Valid() && registry.Valid()
      ensures target == None && reconnectCount == old(reconnectCount) && readers == old(readers)
      ensures effects == old(effects) + CloseIfPresent(old(target))
      ensures registry.conns == WithoutAll(old(registry.conns), FormatInt(appid), this)
    {
      if target.Some? {
        effects := effects + [CloseTarget(target.value)];
        target := None;
      }
      var appidStr := FormatInt(appid);
      registry.RemoveAll(appidStr, this);
    }

    /**
     * `readTarget`, run by the one live reader: relay each upstream message
     * to the client until a read fails or a client write fails.  A read
     * failure makes exactly one reconnect attempt; if it fails the client is
     * closed and the bot cleaned up.  A failed client write just ends the
     * loop.  Because a reader only runs while the counter is 0, the
     * max-retries branch of `handleReconnect` is never taken here and one
     * failed dial tears the session down.  The read outcomes are inputs that
     * nothing ties to the target's state: once `cleanup` has closed the
     * target, the source's next read fails (or finds the target nil), so the
     * only faithful input for such a reader starts with a read error.
     */
    method ReadTarget(results: seq<TargetRead>) returns (toClient: seq<Message>, exit: TargetExit)
      requires Valid() && registry.Valid() && readers == 1
      modifies this, registry
      ensures Valid() && registry.Valid()
      ensures |toClient| == TargetStop(results)
      ensures forall j :: 0 <= j < |toClient| ==> toClient[j] == results[j].data
      ensures var i := TargetStop(results);
        exit == if i == |results| then TargetBlocked
                else if results[i].TargetMessage? then ClientWriteFailed
                else if results[i].dial.Dialed? then Reconnected
                else TornDown
      ensures exit == TargetBlocked || exit == ClientWriteFailed ==>
        && target == old(target) && reconnectCount == old(reconnectCount)
        && effects == old(effects) && registry.conns == old(registry.conns)
        && readers == (if exit == TargetBlocked then 1 else 0)
      ensures exit == Reconnected ==>
        && target == Some(results[TargetStop(results)].dial.conn) && reconnectCount == 0 && readers == 1
        && effects == old(effects) + [Sleep(retryDelay)] + CloseIfPresent(old(target)) + [Dial(url), StartReadTarget]
        && registry.conns == old(registry.conns)
      ensures exit == TornDown ==>
        && target == None && reconnectCount == 1 && readers == 0
        && effects == old(effects) + [Sleep(retryDelay)] + CloseIfPresent(old(target)) + [Dial(url), CloseSelf]
        && registry.conns == WithoutAll(old(registry.conns), FormatInt(appid), this)
    {
      toClient := [];
      var i := 0;
      while i < |results|
        invariant 0 <= i <= |results| && |toClient| == i
        invariant forall j :: 0 <= j < i ==>
          results[j].TargetMessage? && results[j].clientWriteOk && toClient[j] == results[j].data
        invariant target == old(target) && reconnectCount == old(reconnectCount) && readers == 1
        invariant effects == old(effects) && registry.conns == old(registry.conns)
      {
        match results[i]
        case TargetReadError(dial) =>
          readers := 0;
          var ok := HandleReconnect(dial);
          if !ok {
            effects := effects + [CloseSelf];
            Cleanup();
            exit := TornDown;
          } else {
            exit := Reconnected;
          }
          return;
        case TargetMessage(data, clientWriteOk) =>
          if !clientWriteOk {
            readers := 0;
            exit := ClientWriteFailed;
            return;
          }
          toClient := toClient + [data];
          i := i + 1;
      }
      exit := TargetBlocked;
    }

    /**
     * `readSelf`: write each client message upstream when a target is
     * present and drop it otherwise; a failed upstream write is skipped and
     * the loop goes on; a client read error cleans the bot up and ends it.
     */
    method ReadSelf(results: seq<ClientRead>) returns (toTarget: seq<Message>, exit: SelfExit)
      requires Valid() && registry.Valid()
      modifies this, registry
      ensures Valid() && registry.Valid()
      ensures toTarget == if old(target).Some? then Upstreamed(results[..ClientStop(results)]) else []
      ensures exit == if ClientStop(results) == |results| then SelfBlocked else ClientGone
      ensures reconnectCount == old(reconnectCount) && readers == old(readers)
      ensures exit == SelfBlocked ==>
        target == old(target) && effects == old(effects) && registry.conns == old(registry.conns)
      ensures exit == ClientGone ==>
        && target == None && effects == old(effects) + CloseIfPresent(old(target))
        && registry.conns == WithoutAll(old(registry.conns), FormatInt(appid), this)
    {
      toTarget := [];
      var i := 0;
      while i < |results|
        invariant 0 <= i <= |results|
        invariant forall j :: 0 <= j < i ==> results[j].ClientMessage?
        invariant toTarget == if target.Some? then Upstreamed(results[..i]) else []
        invariant target == old(target) && reconnectCount == old(reconnectCount) && readers == old(readers)
        invariant effects == old(effects) && registry.conns == old(registry.conns)
      {
        assert results[..i + 1][..i] == results[..i];
        match results[i]
        case ClientReadError =>
          Cleanup();
          exit := ClientGone;
          return;
        case ClientMessage(data, targetWriteOk) =>
          if target.Some? {
            if targetWriteOk {
              toTarget := toTarget + [data];
            }
          }
          i := i + 1;
      }
      assert results[..|results|] == results;
      exit := SelfBlocked;
    }
  }

  /** Why handleWebSocket answers 400, with the body it writes. */
  datatype Rejection = InvalidParameters | InvalidAppid | InvalidUrl {
    function Text(): (r: string) {
      match this
      case InvalidParameters => "Invalid parameters"
      case InvalidAppid => "Invalid appid"
      case InvalidUrl => "Invalid URL"
    }
  }

  datatype Outcome =
    | Rejected(status: int, reason: Rejection)
    | UpgradeFailed
    | UpstreamUnreachable
    | Serving

  /**
   * The parameter checks of handleWebSocket, in order: both query values
   * present, the appid a base-10 int64, the url parseable (`url.Parse`'s
   * verdict is the input `urlParses`).
   */
  function ValidateParams(appidStr: string, queryURL: string, urlParses: bool): (r: Result<int, Rejection>)
    ensures r.Ok? <==> appidStr != "" && queryURL != "" && ParseInt(appidStr).Some? && urlParses
    ensures r.Ok? ==> r.value == ParseInt(appidStr).value
    ensures r.Err? ==> (r.error == InvalidParameters <==> appidStr == "" || queryURL == "")
    ensures r.Err? ==> (r.error == InvalidAppid <==> appidStr != "" && queryURL != "" && ParseInt(appidStr).None?)
  {
    if appidStr == "" || queryURL == "" then Err(InvalidParameters)
    else match ParseInt(appidStr)
      case None => Err(InvalidAppid)
      case Some(appid) => if !urlParses then Err(InvalidUrl) else Ok(appid)
  }

  /**
   * `handleWebSocket`: reject bad parameters with 400 before anything is
   * created; after the upgrade, create the bot and connect it; if that first
   * dial fails close the client and register nothing; otherwise append the
   * bot under the RAW appid string and start the client reader.
   */
  method HandleWebSocket(registry: Registry<QQBot>, appidStr: string, queryURL: string,
                         urlParses: bool, upgradeOk: bool, dial: DialResult)
    returns (outcome: Outcome, bot: QQBot?)
    requires registry.Valid()
    modifies registry
    ensures registry.Valid()
    ensures ValidateParams(appidStr, queryURL, urlParses).Err? ==>
      && outcome == Rejected(BadRequest, ValidateParams(appidStr, queryURL, urlParses).error)
      && bot == null && registry.conns == old(registry.conns)
    ensures ValidateParams(appidStr, queryURL, urlParses).Ok? && !upgradeOk ==>
      outcome == UpgradeFailed && bot == null && registry.conns == old(registry.conns)
    ensures ValidateParams(appidStr, queryURL, urlParses).Ok? && upgradeOk ==>
      && bot != null && fresh(bot) && bot.Valid()
      && bot.appid == ParseInt(appidStr).value && bot.url == queryURL && bot.registry == registry
      && bot.reconnectCount == 0
      && (dial.DialFailed? ==>
            && outcome == UpstreamUnreachable && bot.target == None && bot.readers == 0
            && bot.effects == [Dial(queryURL), CloseSelf]
            && registry.conns == old(registry.conns))
      && (dial.Dialed? ==>
            && outcome == Serving && bot.target == Some(dial.conn) && bot.readers == 1
            && bot.effects == [Dial(queryURL), StartReadTarget, StartReadSelf]
            && registry.conns == WithAppended(old(registry.conns), appidStr, bot))
  {
    var checked := ValidateParams(appidStr, queryURL, urlParses);
    if checked.Err? {
      return Rejected(BadRequest, checked.error), null;
    }
    if !upgradeOk {
      return UpgradeFailed, null;
    }
    bot := new QQBot(checked.value, queryURL, registry);
    var ok := bot.ConnectTarget(dial);
    if !ok {
      bot.effects := bot.effects + [CloseSelf];
      return UpstreamUnreachable, bot;
    }
    registry.Register(appidStr, bot);
    bot.effects := bot.effects + [StartReadSelf];
    outcome := Serving;
  }

  /**
   * Registration keys by the raw query string, cleanup by the re-formatted
   * integer: a registration is undone by cleanup exactly when the appid text
   * is canonical; "042", "+42" or "-0" stay registered for good.
   */
  lemma CleanupUndoesRegistration(t: Table<QQBot>, appidStr: string, bot: QQBot)
    requires NoEmptyLists(t) && ParseInt(appidStr).Some? && bot !in Lookup(t, appidStr)
    ensures var after := WithoutAll(WithAppended(t, appidStr, bot), FormatInt(ParseInt(appidStr).value), bot);
      && (after == t <==> Canonical(appidStr))
      && (!Canonical(appidStr) ==> bot in Lookup(after, appidStr))
  {
    ParseThenFormat(appidStr);
    if Canonical(appidStr) {
      RegisterThenWithoutAll(t, appidStr, bot);
    } else {
      var after := WithoutAll(WithAppended(t, appidStr, bot), FormatInt(ParseInt(appidStr).value), bot);
      assert Lookup(after, appidStr) == Lookup(t, appidStr) + [bot];
      assert bot in Lookup(after, appidStr);
    }
  }

  // ---------------------------------------------------------------------
  // Whole-session scenarios

  const Ping: Message := [0x70, 0x69, 0x6E, 0x67]
  const UpstreamUrl: string := "wss://upstream.example/websocket"

  /** The identities the scenarios connect with: "42" and its non-canonical spelling "042". */
  lemma FortyTwoAccepted()
    ensures ValidateParams("42", UpstreamUrl, true) == Ok(42)
    ensures ValidateParams("042", UpstreamUrl, true) == Ok(42)
    ensures FormatInt(42) == "42"
  {
    assert DigitsValue("42") == 42 by { assert "42"[..1] == "4"; }
    assert DigitsValue("04") == 4 by { assert "04"[..1] == "0"; }
    assert DigitsValue("042") == 42 by { assert "042"[..2] == "04"; }
  }

  /**
   * Identity "42" with a reachable upstream: the registry holds the one bot;
   * the upstream sends "ping", which the client receives, then drops; the one
   * redial fails, and the session is torn down and leaves the registry empty.
   */
  method PingThenUpstreamLost() returns (registered: nat, delivered: seq<Message>, exit: TargetExit, remaining: nat)
    ensures registered == 1 && delivered == [Ping] && exit == TornDown && remaining == 0
  {
    var registry := new Registry<QQBot>();
    FortyTwoAccepted();
    ghost var empty := registry.conns;
    var outcome, bot := HandleWebSocket(registry, "42", UpstreamUrl, true, true, Dialed(1));
    ghost var serving := registry.conns;
    assert serving == WithAppended(empty, "42", bot);
    assert Lookup(serving, "42") == [bot];
    registered := |registry.conns["42"]|;
    var lost := [TargetMessage(Ping, true), TargetReadError(DialFailed)];
    assert TargetStop(lost) == 1 by { assert lost[1..] == [TargetReadError(DialFailed)]; }
    assert FormatInt(bot.appid) == "42";
    delivered, exit := bot.ReadTarget(lost);
    assert exit == TornDown;
    assert delivered == [Ping] by { assert |delivered| == 1 && delivered[0] == lost[0].data; }
    assert registry.conns == WithoutAll(serving, "42", bot);
    RegisterThenWithoutAll(empty, "42", bot);
    remaining := |registry.conns|;
  }

  /** Identity "042" is registered under "042" but cleanup looks under "42": the entry survives. */
  method NonCanonicalAppidOutlivesCleanup() returns (exit: SelfExit, left: nat)
    ensures exit == ClientGone && left == 1
  {
    var registry := new Registry<QQBot>();
    FortyTwoAccepted();
    ghost var empty := registry.conns;
    var outcome, bot := HandleWebSocket(registry, "042", UpstreamUrl, true, true, Dialed(1));
    ghost var serving := registry.conns;
    assert serving == WithAppended(empty, "042", bot);
    assert Lookup(serving, "042") == [bot];
    assert FormatInt(bot.appid) == "42";
    assert ClientStop([ClientReadError]) == 0;
    var sent;
    sent, exit := bot.ReadSelf([ClientReadError]);
    assert exit == ClientGone;
    assert registry.conns == WithoutAll(serving, "42", bot);
    assert Lookup(registry.conns, "042") == [bot];
    left := |registry.conns["042"]|;
  }

  /**
   * With no active flag, a bot whose client has gone still reconnects: the
   * cleanup closes the target, the live reader sees the read error and its
   * redial succeeds, leaving an upstream connection that no registry entry
   * and no client reader will ever close.
   */
  method ReconnectAfterClientLeft() returns (exit: TargetExit, upstream: Option<Handle>, registered: nat)
    ensures exit == Reconnected && upstream == Some(2) && registered == 0
  {
    var registry := new Registry<QQBot>();
    FortyTwoAccepted();
    ghost var empty := registry.conns;
    var outcome, bot := HandleWebSocket(registry, "42", UpstreamUrl, true, true, Dialed(1));
    ghost var serving := registry.conns;
    assert serving == WithAppended(empty, "42", bot);
    assert FormatInt(bot.appid) == "42";
    assert ClientStop([ClientReadError]) == 0;
    var sent, gone := bot.ReadSelf([ClientReadError]);
    assert gone == ClientGone;
    assert registry.conns == WithoutAll(serving, "42", bot);
    RegisterThenWithoutAll(empty, "42", bot);
    assert registry.conns == map[];
    assert TargetStop([TargetReadError(Dialed(2))]) == 0;
    var toClient;
    toClient, exit := bot.ReadTarget([TargetReadError(Dialed(2))]);
    upstream := bot.target;
    registered := |registry.conns|;
  }
}
