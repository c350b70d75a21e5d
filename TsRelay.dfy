/**
 * The TypeScript relay (src/index.ts): a `QQBot` per accepted client socket,
 * driven by socket events.  Each event handler is a method; the sockets are
 * reduced to their `readyState`, the target socket's constructor outcome is
 * an input, and a send is returned as the message it would put on the wire.
 * The reconnect delay is an abstract step inside the close handler.
 */
module TsRelay {
  import opened Wrappers
  import opened Decimal
  import opened ConnectionRegistry

  type Message = seq<bv8>

  const MaxReconnectAttempts: int := 10
  const ReconnectDelayMs: nat := 5000
  /** Close code for a rejected connection (missing parameter or invalid URL). */
  const UnsupportedData: int := 1003
  /** Close code when the target cannot be created or the retries are exhausted. */
  const InternalError: int := 1011

  datatype ReadyState = Connecting | Open | Closing | Closed

  /** A query value counts as given when it is present and not the empty string. */
  predicate Given(v: Option<string>) {
    v.Some? && v.value != ""
  }

  class QQBot {
    /** `this.appid.toString()`, the key `removeFromConnectionMap` looks under. */
    const appidKey: string
    const url: string
    const registry: Registry<QQBot>
    var selfState: ReadyState
    /** The code of the first `this.self.close(code, ...)` that took effect. */
    var selfCloseCode: Option<int>
    /** The readyState of `this.target`, `None` while it is null. */
    var target: Option<ReadyState>
    /** How many `new WebSocket(this.url)` calls have returned a socket. */
    var targetsCreated: nat
    var reconnectAttempts: int

    ghost predicate Valid()
      reads this
    {
      0 <= reconnectAttempts <= MaxReconnectAttempts
    }

    /** `new QQBot(socket, Number(appid), url)` on an open client socket: runs `initTarget`. */
    constructor (appidKey: string, url: string, registry: Registry<QQBot>, targetCreated: bool)
      ensures Valid()
      ensures this.appidKey == appidKey && this.url == url && this.registry == registry
      ensures reconnectAttempts == 0
      ensures targetCreated ==>
        target == Some(Connecting) && targetsCreated == 1 && selfState == Open && selfCloseCode == None
      ensures !targetCreated ==>
        target == None && targetsCreated == 0 && selfState == Closing && selfCloseCode == Some(InternalError)
    {
      this.appidKey := appidKey;
      this.url := url;
      this.registry := registry;
      selfState := Open;
      selfCloseCode := None;
      target := None;
      targetsCreated := 0;
      reconnectAttempts := 0;
      new;
      InitTarget(targetCreated);
    }

    /** `this.self.close(code, ...)`: only an open socket starts closing; otherwise nothing happens. */
    method CloseSelf(code: int)
      modifies this
      ensures selfState == if old(selfState) == Open then Closing else old(selfState)
      ensures selfCloseCode == if old(selfState) == Open then Some(code) else old(selfCloseCode)
      ensures target == old(target) && targetsCreated == old(targetsCreated)
      ensures reconnectAttempts == old(reconnectAttempts)
    {
      if selfState == Open {
        selfState := Closing;
        selfCloseCode := Some(code);
      }
    }

    /**
     * `initTarget`: a new target socket, still connecting, replaces the old
     * one; when the constructor throws, the old target stays and the client
     * is closed with 1011.
     */
    method InitTarget(created: bool)
      modifies this
      ensures reconnectAttempts == old(reconnectAttempts)
      ensures created ==>
        && target == Some(Connecting) && targetsCreated == old(targetsCreated) + 1
        && selfState == old(selfState) && selfCloseCode == old(selfCloseCode)
      ensures !created ==>
        && target == old(target) && targetsCreated == old(targetsCreated)
        && selfState == (if old(selfState) == Open then Closing else old(selfState))
        && selfCloseCode == (if old(selfState) == Open then Some(InternalError) else old(selfCloseCode))
    {
      if created {
        target := Some(Connecting);
        targetsCreated := targetsCreated + 1;
      } else {
        CloseSelf(InternalError);
      }
    }

    /** The target's `open` event: the attempt counter goes back to 0. */
    method OnTargetOpen()
      requires Valid() && target.Some?
      modifies this
      ensures Valid()
      ensures target == Some(Open) && reconnectAttempts == 0
      ensures selfState == old(selfState) && selfCloseCode == old(selfCloseCode)
      ensures targetsCreated == old(targetsCreated)
    {
      target := Some(Open);
      reconnectAttempts := 0;
    }

    /** The target's `message` event: relayed to the client only while the client is open. */
    method OnTargetMessage(data: Message) returns (toClient: Option<Message>)
      ensures toClient == if selfState == Open then Some(data) else None
    {
      if selfState == Open {
        return Some(data);
      }
      return None;
    }

    /** The client's `message` event: relayed upstream only while the target is open. */
    method OnClientMessage(data: Message) returns (toTarget: Option<Message>)
      ensures toTarget == if target == Some(Open) then Some(data) else None
    {
      if target.Some? && target.value == Open {
        return Some(data);
      }
      return None;
    }

    /**
     * The target's `close` event (`handleTargetClose`): once 10 attempts have
     * been counted, close the client with 1011 and stop; otherwise count one
     * more attempt and, after the delay, create a new target.  Attempts are
     * reset only by an `open` event, so failures accumulate.
     */
    method OnTargetClose(created: bool)
      requires Valid() && target.Some?
      modifies this
      ensures Valid()
      ensures old(reconnectAttempts) >= MaxReconnectAttempts ==>
        && reconnectAttempts == old(reconnectAttempts)
        && target == Some(Closed) && targetsCreated == old(targetsCreated)
        && selfState == (if old(selfState) == Open then Closing else old(selfState))
        && selfCloseCode == (if old(selfState) == Open then Some(InternalError) else old(selfCloseCode))
      ensures old(reconnectAttempts) < MaxReconnectAttempts ==>
        && reconnectAttempts == old(reconnectAttempts) + 1
        && (created ==>
              && target == Some(Connecting) && targetsCreated == old(targetsCreated) + 1
              && selfState == old(selfState) && selfCloseCode == old(selfCloseCode))
        && (!created ==>
              && target == Some(Closed) && targetsCreated == old(targetsCreated)
              && selfState == (if old(selfState) == Open then Closing else old(selfState))
              && selfCloseCode == (if old(selfState) == Open then Some(InternalError) else old(selfCloseCode)))
    {
      target := Some(Closed);
      if reconnectAttempts >= MaxReconnectAttempts {
        CloseSelf(InternalError);
        return;
      }
      reconnectAttempts := reconnectAttempts + 1;
      InitTarget(created);
    }

    /**
     * The client's `close` event: close the target if it is open, then
     * remove this bot's first occurrence under `appidKey`.
     */
    method OnClientClose()
      requires Valid() && registry.Valid()
      modifies this, registry
      ensures Valid() && registry.Valid()
      ensures selfState == Closed && selfCloseCode == old(selfCloseCode)
      ensures target == if old(target) == Some(Open) then Some(Closing) else old(target)
      ensures targetsCreated == old(targetsCreated) && reconnectAttempts == old(reconnectAttempts)
      ensures registry.conns == WithoutFirst(old(registry.conns), appidKey, this)
    {
      selfState := Closed;
      if target.Some? && target.value == Open {
        target := Some(Closing);
      }
      RemoveFromConnectionMap();
    }

    /** `removeFromConnectionMap`. */
    method RemoveFromConnectionMap()
      requires registry.Valid()
      modifies registry
      ensures registry.Valid()
      ensures registry.conns == WithoutFirst(old(registry.conns), appidKey, this)
    {
      registry.RemoveFirst(appidKey, this);
    }
  }

  /**
   * The websocket route handler: with a missing or empty `appid` or `url`, or
   * a url `new URL` rejects (`urlValid`), close the socket with 1003 and
   * create nothing; otherwise create the bot and append it under the RAW
   * appid string, even when its first target could not be created.
   * `numberKey` is `Number(appid).toString()`, fixed by the model wherever
   * it is modelled.
   */
  method HandleConnection(registry: Registry<QQBot>, appid: Option<string>, url: Option<string>,
                          urlValid: bool, numberKey: string, targetCreated: bool)
    returns (closeCode: Option<int>, bot: QQBot?)
    requires registry.Valid()
    requires appid.Some? && JsDecimalKey(appid.value).Some? ==> numberKey == JsDecimalKey(appid.value).value
    modifies registry
    ensures registry.Valid()
    ensures bot == null <==> !Given(appid) || !Given(url) || !urlValid
    ensures bot == null ==> closeCode == Some(UnsupportedData) && registry.conns == old(registry.conns)
    ensures bot != null ==>
      && closeCode == None && fresh(bot) && bot.Valid() && bot.registry == registry
      && bot.appidKey == numberKey && bot.url == url.value && bot.reconnectAttempts == 0
      && registry.conns == WithAppended(old(registry.conns), appid.value, bot)
      && (targetCreated ==>
            bot.target == Some(Connecting) && bot.targetsCreated == 1 && bot.selfState == Open)
      && (!targetCreated ==>
            && bot.target == None && bot.targetsCreated == 0
            && bot.selfState == Closing && bot.selfCloseCode == Some(InternalError))
  {
    if !Given(appid) || !Given(url) {
      return Some(UnsupportedData), null;
    }
    if !urlValid {
      return Some(UnsupportedData), null;
    }
    bot := new QQBot(numberKey, url.value, registry, targetCreated);
    registry.Register(appid.value, bot);
    closeCode := None;
  }

  /**
   * Registration keys by the raw string, removal by `Number(appid).toString()`:
   * a registration is undone by the client's close exactly when the appid
   * text is canonical; "042" or "+42" stay registered for good.
   */
  lemma CloseUndoesRegistration(t: Table<QQBot>, appid: string, bot: QQBot)
    requires NoEmptyLists(t) && bot !in Lookup(t, appid) && JsDecimalKey(appid).Some?
    ensures var after := WithoutFirst(WithAppended(t, appid, bot), JsDecimalKey(appid).value, bot);
      && (after == t <==> Canonical(appid))
      && (!Canonical(appid) ==> bot in Lookup(after, appid))
  {
    JsKeyIsRawExactlyWhenCanonical(appid);
    if Canonical(appid) {
      RegisterThenWithoutFirst(t, appid, bot);
    } else {
      var after := WithoutFirst(WithAppended(t, appid, bot), JsDecimalKey(appid).value, bot);
      assert Lookup(after, appid) == Lookup(t, appid) + [bot];
      assert bot in Lookup(after, appid);
    }
  }

  // ---------------------------------------------------------------------
  // Whole-session scenarios

  const UpstreamUrl: string := "wss://upstream.example/websocket"

  /** `Number(appid).toString()` for the identities the scenarios connect with. */
  lemma FortyTwoKeys()
    ensures JsDecimalKey("42") == Some("42")
    ensures JsDecimalKey("042") == Some("42")
  {
    assert DigitsValue("42") == 42 by { assert "42"[..1] == "4"; }
    assert DigitsValue("04") == 4 by { assert "04"[..1] == "0"; }
    assert DigitsValue("042") == 42 by { assert "042"[..2] == "04"; }
    assert FormatInt(42) == "42";
  }

  /**
   * A target that never opens: each close counts one attempt and creates a
   * new target, ten times; the eleventh close finds ten attempts counted,
   * closes the client with 1011 and creates nothing more.
   */
  method RetriesRunOut() returns (attempts: int, created: nat, code: Option<int>)
    ensures attempts == MaxReconnectAttempts && created == 11 && code == Some(InternalError)
  {
    var registry := new Registry<QQBot>();
    var bot := new QQBot("42", UpstreamUrl, registry, true);
    var i := 0;
    while i < MaxReconnectAttempts
      invariant 0 <= i <= MaxReconnectAttempts
      invariant bot.Valid() && bot.reconnectAttempts == i && bot.targetsCreated == i + 1
      invariant bot.target == Some(Connecting) && bot.selfState == Open && bot.selfCloseCode == None
    {
      bot.OnTargetClose(true);
      i := i + 1;
    }
    bot.OnTargetClose(true);
    attempts, created, code := bot.reconnectAttempts, bot.targetsCreated, bot.selfCloseCode;
  }

  /**
   * The client closes while the target is open: the target is closed and the
   * bot leaves the registry, but the target's close event then counts an
   * attempt and creates a new target for a client that is gone.
   */
  method ReconnectAfterClientLeft() returns (registered: nat, upstream: Option<ReadyState>, created: nat)
    ensures registered == 0 && upstream == Some(Connecting) && created == 2
  {
    var registry := new Registry<QQBot>();
    FortyTwoKeys();
    ghost var before := registry.conns;
    var closeCode, bot := HandleConnection(registry, Some("42"), Some(UpstreamUrl), true, "42", true);
    assert Given(Some("42")) && Given(Some(UpstreamUrl));
    assert bot != null;
    ghost var serving := registry.conns;
    assert serving == WithAppended(before, "42", bot);
    bot.OnTargetOpen();
    bot.OnClientClose();
    assert registry.conns == WithoutFirst(serving, "42", bot);
    RegisterThenWithoutFirst(before, "42", bot);
    assert registry.conns == map[];
    registered := |registry.conns|;
    bot.OnTargetClose(true);
    upstream, created := bot.target, bot.targetsCreated;
  }

  /** Identity "042" is registered under "042" but removed under "42": the entry survives. */
  method NonCanonicalAppidOutlivesClose() returns (left: nat)
    ensures left == 1
  {
    var registry := new Registry<QQBot>();
    FortyTwoKeys();
    ghost var before := registry.conns;
    var closeCode, bot := HandleConnection(registry, Some("042"), Some(UpstreamUrl), true, "42", true);
    assert Given(Some("042")) && Given(Some(UpstreamUrl));
    assert bot != null;
    ghost var serving := registry.conns;
    assert serving == WithAppended(before, "042", bot);
    assert Lookup(serving, "042") == [bot] && Lookup(serving, "42") == [];
    bot.OnClientClose();
    assert registry.conns == WithoutFirst(serving, "42", bot);
    assert Lookup(registry.conns, "042") == [bot];
    left := |Lookup(registry.conns, "042")|;
  }
}
