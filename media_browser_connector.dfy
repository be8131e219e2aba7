/**
 * The connection to a media source's browse service (MediaBrowserConnector.java). Each
 * connectTo creates a browser with a fresh connection callback numbered by a 32-bit counter;
 * only the callback whose number equals the counter's current value is acted on, so events from
 * the connections of earlier sources are ignored. Every status change is reported as a
 * BrowsingState to the listener.
 *
 * MediaBrowserCompat.isConnected() and the IllegalStateException of connect() are parameters.
 */
module SourceConnection {
  import opened MediaTypes

  datatype ConnectionStatus = CONNECTING | CONNECTED | REJECTED | SUSPENDED | DISCONNECTING

  /** A media source, named by its browse service's component. */
  datatype MediaSource = MediaSource(packageName: string, serviceName: string)

  /** A MediaBrowserCompat object; `serial` is its identity (the order it was created in). */
  datatype Browser = Browser(serial: nat, source: MediaSource)

  datatype BrowsingState = BrowsingState(source: MediaSource, browser: Browser, status: ConnectionStatus)

  /**
   * BrowsingState.equals: source, browser and status agree. That is the value equality of the
   * three fields, so it is an equivalence.
   */
  predicate BrowsingStateEquals(a: BrowsingState, b: BrowsingState): (r: bool)
    ensures r <==> a == b
  {
    a.source == b.source && a.browser == b.browser && a.status == b.status
  }

  /** The counter after k further connections: pre-increment k times in Java int arithmetic. */
  function CounterAfter(c: int, k: nat): int {
    if k == 0 then c else WrapInt(CounterAfter(c, k - 1) + 1)
  }

  lemma {:induction false} CounterAfterWraps(c: int, k: nat)
    requires IsInt(c)
    ensures CounterAfter(c, k) == WrapInt(c + k)
  {
    if k > 0 {
      CounterAfterWraps(c, k - 1);
      WrapIntSucc(c + k - 1);
    }
  }

  /**
   * A callback numbered s stays ignored through the next 2^32 - 1 connections: its number
   * equals the counter again only after exactly 2^32 of them.
   */
  lemma StaleCallbackIgnored(s: int, k: nat)
    requires IsInt(s) && 0 < k < 0x1_0000_0000
    ensures CounterAfter(s, k) != s
  {
    CounterAfterWraps(s, k);
  }

  class MediaBrowserConnector {
    /** mMediaSource. */
    var mediaSource: Option<MediaSource>
    /** mBrowser. */
    var browser: Option<Browser>
    /** mBrowserConnectionCallbackCounter. */
    var counter: int
    /** How many browsers were created so far (serial of the next one). */
    var created: nat
    /** Every state passed to Callback.onBrowserConnectionChanged, oldest first. */
    var emitted: seq<BrowsingState>
    /** Every browser disconnect() was called on, oldest first. */
    var disconnected: seq<Browser>

    ghost predicate Valid()
      reads this
    {
      && IsInt(counter)
      && (browser.Some? <==> mediaSource.Some?)
      && (browser.Some? ==> browser.value.source == mediaSource.value && browser.value.serial < created)
    }

    constructor ()
      ensures Valid()
      ensures mediaSource == None && browser == None && counter == 0 && created == 0
      ensures emitted == [] && disconnected == []
    {
      mediaSource := None;
      browser := None;
      counter := 0;
      created := 0;
      emitted := [];
      disconnected := [];
    }

    /**
     * isValidCall: the callback numbered seqNo is the latest one; in a valid connector only a
     * Java int can be.
     */
    predicate IsValidCall(seqNo: int): (r: bool)
      reads this
      ensures r <==> seqNo == counter
      ensures Valid() && r ==> IsInt(seqNo)
    {
      seqNo == counter
    }

    /** sendNewState: report the status for the current source and browser, if both exist. */
    method SendNewState(status: ConnectionStatus)
      modifies this`emitted
      ensures mediaSource.None? || browser.None? ==> emitted == old(emitted)
      ensures mediaSource.Some? && browser.Some? ==>
        emitted == old(emitted) + [BrowsingState(mediaSource.value, browser.value, status)]
    {
      if mediaSource.None? || browser.None? {
        return;
      }
      emitted := emitted + [BrowsingState(mediaSource.value, browser.value, status)];
    }

    /**
     * connectTo: disconnect the old browser if it is connected (reporting DISCONNECTING first);
     * then, for a source, create a browser with a newly numbered callback and report CONNECTING,
     * and SUSPENDED as well when connect() throws; for no source, drop the browser.
     */
    method ConnectTo(source: Option<MediaSource>, oldConnected: bool, connectThrows: bool)
      returns (callbackSeq: Option<int>)
      requires Valid()
      modifies this
      ensures Valid()
      ensures var disconnecting := old(browser).Some? && oldConnected;
        && disconnected == old(disconnected) + (if disconnecting then [old(browser).value] else [])
        && mediaSource == source
        && var first := if disconnecting then [BrowsingState(old(mediaSource).value, old(browser).value, DISCONNECTING)] else [];
           && (source.None? ==>
                 && browser.None? && callbackSeq.None? && counter == old(counter) && created == old(created)
                 && emitted == old(emitted) + first)
           && (source.Some? ==>
                 && counter == WrapInt(old(counter) + 1) && callbackSeq == Some(counter)
                 && browser == Some(Browser(old(created), source.value)) && created == old(created) + 1
                 && emitted == old(emitted) + first + [BrowsingState(source.value, browser.value, CONNECTING)]
                      + (if connectThrows then [BrowsingState(source.value, browser.value, SUSPENDED)] else []))
    {
      if browser.Some? && oldConnected {
        SendNewState(DISCONNECTING);
        disconnected := disconnected + [browser.value];
      }
      mediaSource := source;
      if source.Some? {
        counter := WrapInt(counter + 1);
        callbackSeq := Some(counter);
        browser := Some(Browser(created, source.value));
        created := created + 1;
        SendNewState(CONNECTING);
        if connectThrows {
          SendNewState(SUSPENDED);
        }
      } else {
        browser := None;
        callbackSeq := None;
      }
    }

    /** onConnected: CONNECTED when the browser reports itself connected, else REJECTED. */
    method OnConnected(seqNo: int, browserConnected: bool)
      requires Valid()
      modifies this`emitted
      ensures !IsValidCall(seqNo) || browser.None? ==> emitted == old(emitted)
      ensures IsValidCall(seqNo) && browser.Some? ==>
        emitted == old(emitted) + [BrowsingState(mediaSource.value, browser.value, if browserConnected then CONNECTED else REJECTED)]
    {
      if IsValidCall(seqNo) {
        if browser.Some? && browserConnected {
          SendNewState(CONNECTED);
        } else {
          SendNewState(REJECTED);
        }
      }
    }

    method OnConnectionFailed(seqNo: int)
      requires Valid()
      modifies this`emitted
      ensures !IsValidCall(seqNo) || browser.None? ==> emitted == old(emitted)
      ensures IsValidCall(seqNo) && browser.Some? ==>
        emitted == old(emitted) + [BrowsingState(mediaSource.value, browser.value, REJECTED)]
    {
      if IsValidCall(seqNo) {
        SendNewState(REJECTED);
      }
    }

    method OnConnectionSuspended(seqNo: int)
      requires Valid()
      modifies this`emitted
      ensures !IsValidCall(seqNo) || browser.None? ==> emitted == old(emitted)
      ensures IsValidCall(seqNo) && browser.Some? ==>
        emitted == old(emitted) + [BrowsingState(mediaSource.value, browser.value, SUSPENDED)]
    {
      if IsValidCall(seqNo) {
        SendNewState(SUSPENDED);
      }
    }
  }

  /**
   * After two connections in a row, whatever the connector's state before them, an onConnected
   * from the first connection's callback reports nothing, and one from the second reports the
   * new browser's status.
   */
  method ReconnectIgnoresOldCallback(connector: MediaBrowserConnector, a: MediaSource, b: MediaSource,
                                     oldConnected: bool, browserConnected: bool)
    returns (fromFirst: seq<BrowsingState>, fromSecond: seq<BrowsingState>)
    requires connector.Valid()
    modifies connector
    ensures fromFirst == []
    ensures connector.browser.Some? && connector.browser.value.source == b
    ensures fromSecond == [BrowsingState(b, connector.browser.value, if browserConnected then CONNECTED else REJECTED)]
  {
    var first := connector.ConnectTo(Some(a), oldConnected, false);
    var second := connector.ConnectTo(Some(b), oldConnected, false);
    StaleCallbackIgnored(first.value, 1);
    var before := connector.emitted;
    connector.OnConnected(first.value, browserConnected);
    fromFirst := connector.emitted[|before|..];
    var middle := connector.emitted;
    connector.OnConnected(second.value, browserConnected);
    fromSecond := connector.emitted[|middle|..];
  }
}
