/**
 * The transport service of the SSL plugin. Every request handler that is
 * registered on the node-to-node transport is wrapped in an Interceptor;
 * for each inbound message the Interceptor checks that the Netty channel
 * carries an `ssl_server` handler whose TLS session has an X.509 client
 * certificate chain, records the peer's identity in the request context,
 * and only then hands the message to the wrapped handler. Every failure
 * of that check is answered on the channel and thrown (fail-closed).
 *
 * The Netty channel, its pipeline, the TLS session and the certificates
 * are abstract values; the wrapped handler and the overridable hook
 * `addAdditionalContextValues` are function-valued inputs.
 */
module Transport {
  import opened Wrappers

  // ---------------------------------------------------------------------
  // The TLS layer as the interceptor sees it
  // ---------------------------------------------------------------------

  /**
   * A peer certificate. For an X.509 certificate, `subject` is the
   * string form of its subject principal (`getSubjectX500Principal()
   * .getName()`), or None when the certificate has no principal.
   */
  datatype Certificate =
    | X509Certificate(subject: Option<string>, serial: nat)
    | OtherCertificate(certType: string)

  /**
   * What `SSLSession.getPeerCertificates()` yields: an
   * SSLPeerUnverifiedException, or an array that may be null.
   */
  datatype PeerCertificates =
    | Unverified(reason: string)
    | Peer(certs: Option<seq<Certificate>>)

  datatype Session = Session(peerCertificates: PeerCertificates, protocol: string, cipherSuite: string)

  /** An entry of a Netty channel pipeline. */
  datatype ChannelHandler =
    | SslHandler(session: Session)
    | OtherHandler(name: string)

  /** A transport channel: a Netty channel with its pipeline, or any other kind. */
  datatype ChannelKind =
    | NonNetty
    | Netty(pipeline: map<string, ChannelHandler>)

  const SslServerHandlerName: string := "ssl_server"

  // ---------------------------------------------------------------------
  // Exceptions, responses and the request context
  // ---------------------------------------------------------------------

  datatype Exception =
    | ElasticsearchException(message: string)
    | SSLPeerUnverifiedException(message: string)
    | ClassCastException
    | ArrayStoreException
    /** the result of `ExceptionsHelper.convertToElastic`, kept opaque */
    | ConvertedToElastic(cause: Exception)
    /** any other exception thrown by a hook or a handler */
    | OtherException(message: string)

  function ConvertToElastic(e: Exception): Exception {
    ConvertedToElastic(e)
  }

  const NoSslHandlerMessage: string := "No ssl handler found (SG 11)"
  const NoX509Message: string := "No X509 transport client certificates found (SG 12)"

  /** What is sent back on a channel: an exception, or a handler's own reply. */
  datatype Response = ErrorResponse(error: Exception) | Reply(payload: string)

  /** A value stored in a request context. */
  datatype Value =
    | Text(text: string)
    | Null
    | Certificates(chain: seq<Certificate>)
    /** a value a hook derives from the chain, kept opaque */
    | Derived(tag: string)

  type Context = map<string, Value>

  const PrincipalKey: string := "_sg_ssl_transport_principal"
  const PeerCertificatesKey: string := "_sg_ssl_transport_peer_certificates"
  const ProtocolKey: string := "_sg_ssl_transport_protocol"
  const CipherKey: string := "_sg_ssl_transport_cipher"

  // ---------------------------------------------------------------------
  // Handlers and the hook
  // ---------------------------------------------------------------------

  /** What a handler's `messageReceived` does: replies it sends, and what it throws. */
  datatype HandlerResult = HandlerResult(responses: seq<Response>, thrown: Option<Exception>)

  /**
   * A transport request handler: the request type `newInstance` creates,
   * its executor, its force-execution flag, and its `messageReceived`
   * as a function of the request context and the channel it is given.
   */
  datatype Handler = Handler(
    requestType: string,
    executor: string,
    forceExecution: bool,
    messageReceived: (Context, ChannelKind) -> HandlerResult)

  /** What `addAdditionalContextValues` does: context entries it writes, and what it throws. */
  datatype HookResult = HookResult(writes: Context, thrown: Option<Exception>)

  /** `addAdditionalContextValues(action, request, certs)`, the request given by its context. */
  type Hook = (string, Context, seq<Certificate>) -> HookResult

  /** The service's own `addAdditionalContextValues`, which does nothing. */
  const NoOpHook: Hook := (action: string, context: Context, certs: seq<Certificate>) => HookResult(map[], None)

  /** A call out of the interceptor, with the request context at the moment of the call. */
  datatype Call =
    | HookCall(action: string, context: Context, chain: seq<Certificate>)
    | HandlerCall(context: Context, channel: ChannelKind)

  // ---------------------------------------------------------------------
  // The interceptor's decision, as a function
  // ---------------------------------------------------------------------

  /**
   * The effect of one inbound message: the final request context, the
   * responses sent on the channel, the calls made, and what is thrown.
   */
  datatype Outcome = Outcome(context: Context, responses: seq<Response>, calls: seq<Call>, thrown: Option<Exception>)

  /** The guard before the copy: a non-null, non-empty array whose first element is X.509. */
  predicate IsX509Chain(certs: Option<seq<Certificate>>) {
    certs.Some? && |certs.value| > 0 && certs.value[0].X509Certificate?
  }

  predicate AllX509(chain: seq<Certificate>) {
    forall i :: 0 <= i < |chain| ==> chain[i].X509Certificate?
  }

  /**
   * `Arrays.copyOf(certs, certs.length, X509Certificate[].class)`: the
   * elements are stored one by one into an X509Certificate array, and
   * storing one of another kind fails (None: an ArrayStoreException).
   */
  function CopyOfX509(certs: seq<Certificate>): (r: Option<seq<Certificate>>)
    ensures r.Some? <==> AllX509(certs)
    ensures r.Some? ==> r.value == certs
  {
    if certs == [] then Some([])
    else if !certs[0].X509Certificate? then None
    else
      match CopyOfX509(certs[1..])
      case None => None
      case Some(rest) => Some([certs[0]] + rest)
  }

  /** The principal entry: the leaf's subject name, or null when it has none. */
  function PrincipalValue(leaf: Certificate): Value
    requires leaf.X509Certificate?
  {
    match leaf.subject
    case None => Null
    case Some(name) => Text(name)
  }

  /** The four identity entries written into the context. */
  function Enriched(context: Context, chain: seq<Certificate>, session: Session): Context
    requires |chain| > 0 && chain[0].X509Certificate?
  {
    context[PrincipalKey := PrincipalValue(chain[0])]
           [PeerCertificatesKey := Certificates(chain)]
           [ProtocolKey := Text(session.protocol)]
           [CipherKey := Text(session.cipherSuite)]
  }

  /** The body of the try block on a Netty channel, with the exception it lets escape. */
  function TryBlock(action: string, hook: Hook, handler: Handler, context: Context,
                    pipeline: map<string, ChannelHandler>): Outcome
  {
    if SslServerHandlerName !in pipeline then
      var exception := ElasticsearchException(NoSslHandlerMessage);
      Outcome(context, [ErrorResponse(exception)], [], Some(exception))
    else
      match pipeline[SslServerHandlerName]
      case OtherHandler(_) => Outcome(context, [], [], Some(ClassCastException))
      case SslHandler(session) =>
        match session.peerCertificates
        case Unverified(reason) => Outcome(context, [], [], Some(SSLPeerUnverifiedException(reason)))
        case Peer(certs) =>
          if !IsX509Chain(certs) then
            var exception := ElasticsearchException(NoX509Message);
            Outcome(context, [ErrorResponse(exception)], [], Some(exception))
          else
            match CopyOfX509(certs.value)
            case None => Outcome(context, [], [], Some(ArrayStoreException))
            case Some(x509Certs) =>
              var h := hook(action, context, x509Certs);
              var afterHook := context + h.writes;
              var hookCall := HookCall(action, context, x509Certs);
              if h.thrown.Some? then Outcome(afterHook, [], [hookCall], h.thrown)
              else
                var enriched := Enriched(afterHook, x509Certs, session);
                var r := handler.messageReceived(enriched, Netty(pipeline));
                Outcome(enriched, r.responses, [hookCall, HandlerCall(enriched, Netty(pipeline))], r.thrown)
  }

  /**
   * The two catch clauses: an SSLPeerUnverifiedException is converted,
   * sent and thrown; any other exception is thrown again as it is.
   */
  function Catch(o: Outcome): Outcome {
    match o.thrown
    case Some(e) =>
      if e.SSLPeerUnverifiedException? then
        var exception := ConvertToElastic(e);
        o.(responses := o.responses + [ErrorResponse(exception)], thrown := Some(exception))
      else o
    case None => o
  }

  /** `Interceptor.messageReceived` for a request with context `context` arriving on `channel`. */
  function Intercept(action: string, hook: Hook, handler: Handler, context: Context, channel: ChannelKind): Outcome
  {
    match channel
    case NonNetty =>
      var r := handler.messageReceived(context, channel);
      Outcome(context, r.responses, [HandlerCall(context, channel)], r.thrown)
    case Netty(pipeline) => Catch(TryBlock(action, hook, handler, context, pipeline))
  }

  // ---------------------------------------------------------------------
  // What the decision guarantees
  // ---------------------------------------------------------------------

  function InvocationCount(calls: seq<Call>): (n: nat)
    ensures n <= |calls|
  {
    if calls == [] then 0
    else (if calls[0].HandlerCall? then 1 else 0) + InvocationCount(calls[1..])
  }

  /** The session of the `ssl_server` handler, when the pipeline has one. */
  predicate HasSslServer(pipeline: map<string, ChannelHandler>) {
    SslServerHandlerName in pipeline && pipeline[SslServerHandlerName].SslHandler?
  }

  /** The peer presented a chain that passes every check of the try block. */
  predicate AcceptedChain(pipeline: map<string, ChannelHandler>) {
    && HasSslServer(pipeline)
    && pipeline[SslServerHandlerName].session.peerCertificates.Peer?
    && var certs := pipeline[SslServerHandlerName].session.peerCertificates.certs;
       IsX509Chain(certs) && AllX509(certs.value)
  }

  predicate NoIdentityKeys(context: Context) {
    PrincipalKey !in context && PeerCertificatesKey !in context && ProtocolKey !in context && CipherKey !in context
  }

  /** All four identity entries are present, the chain among them non-empty. */
  predicate AllIdentityKeys(context: Context) {
    && PrincipalKey in context && PeerCertificatesKey in context && ProtocolKey in context && CipherKey in context
    && context[PeerCertificatesKey].Certificates? && |context[PeerCertificatesKey].chain| > 0
  }

  /** A non-Netty channel is passed straight to the handler, and nothing else happens. */
  lemma NonNettyPassesThrough(action: string, hook: Hook, handler: Handler, context: Context)
    ensures var o := Intercept(action, hook, handler, context, NonNetty);
            var r := handler.messageReceived(context, NonNetty);
            && o.calls == [HandlerCall(context, NonNetty)]
            && InvocationCount(o.calls) == 1
            && o.context == context
            && o.responses == r.responses
            && o.thrown == r.thrown
  {
  }

  /** A Netty channel without an `ssl_server` handler is rejected with SG 11. */
  lemma MissingSslHandlerRejected(action: string, hook: Hook, handler: Handler, context: Context,
                                  pipeline: map<string, ChannelHandler>)
    requires SslServerHandlerName !in pipeline
    ensures var o := Intercept(action, hook, handler, context, Netty(pipeline));
            var exception := ElasticsearchException(NoSslHandlerMessage);
            && o.calls == []
            && o.context == context
            && o.responses == [ErrorResponse(exception)]
            && o.thrown == Some(exception)
  {
  }

  /** A session whose peer chain is null, empty or not led by an X.509 certificate is rejected with SG 12. */
  lemma NoX509ChainRejected(action: string, hook: Hook, handler: Handler, context: Context,
                            pipeline: map<string, ChannelHandler>)
    requires HasSslServer(pipeline)
    requires pipeline[SslServerHandlerName].session.peerCertificates.Peer?
    requires !IsX509Chain(pipeline[SslServerHandlerName].session.peerCertificates.certs)
    ensures var o := Intercept(action, hook, handler, context, Netty(pipeline));
            var exception := ElasticsearchException(NoX509Message);
            && o.calls == []
            && o.context == context
            && o.responses == [ErrorResponse(exception)]
            && o.thrown == Some(exception)
  {
  }

  /** An unverified peer gets exactly one response, the converted exception, which is also thrown. */
  lemma PeerUnverifiedReported(action: string, hook: Hook, handler: Handler, context: Context,
                               pipeline: map<string, ChannelHandler>)
    requires HasSslServer(pipeline)
    requires pipeline[SslServerHandlerName].session.peerCertificates.Unverified?
    ensures var o := Intercept(action, hook, handler, context, Netty(pipeline));
            var reason := pipeline[SslServerHandlerName].session.peerCertificates.reason;
            var exception := ConvertToElastic(SSLPeerUnverifiedException(reason));
            && o.calls == []
            && o.context == context
            && o.responses == [ErrorResponse(exception)]
            && o.thrown == Some(exception)
  {
  }

  /**
   * On an accepted chain the hook runs first, on the untouched context,
   * with the action and the whole chain; then the four identity entries
   * are written; then the handler runs once on the Netty channel. What
   * the handler throws comes out as the catch clauses make it.
   */
  lemma AcceptedChainEnriched(action: string, hook: Hook, handler: Handler, context: Context,
                              pipeline: map<string, ChannelHandler>)
    requires AcceptedChain(pipeline)
    requires hook(action, context, pipeline[SslServerHandlerName].session.peerCertificates.certs.value).thrown.None?
    ensures var session := pipeline[SslServerHandlerName].session;
            var chain := session.peerCertificates.certs.value;
            var enriched := context + hook(action, context, chain).writes;
            var o := Intercept(action, hook, handler, context, Netty(pipeline));
            var r := handler.messageReceived(o.context, Netty(pipeline));
            && o.calls == [HookCall(action, context, chain), HandlerCall(o.context, Netty(pipeline))]
            && InvocationCount(o.calls) == 1
            && o.context.Keys == enriched.Keys + {PrincipalKey, PeerCertificatesKey, ProtocolKey, CipherKey}
            && (forall k :: k in enriched && k !in {PrincipalKey, PeerCertificatesKey, ProtocolKey, CipherKey} ==> o.context[k] == enriched[k])
            && o.context[PrincipalKey] == (if chain[0].subject.Some? then Text(chain[0].subject.value) else Null)
            && o.context[PeerCertificatesKey] == Certificates(chain)
            && o.context[ProtocolKey] == Text(session.protocol)
            && o.context[CipherKey] == Text(session.cipherSuite)
            && (r.thrown.Some? && r.thrown.value.SSLPeerUnverifiedException? ==>
                  o.responses == r.responses + [ErrorResponse(ConvertToElastic(r.thrown.value))]
                  && o.thrown == Some(ConvertToElastic(r.thrown.value)))
            && (!(r.thrown.Some? && r.thrown.value.SSLPeerUnverifiedException?) ==>
                  o.responses == r.responses && o.thrown == r.thrown)
  {
    var chain := pipeline[SslServerHandlerName].session.peerCertificates.certs.value;
    assert CopyOfX509(chain) == Some(chain);
  }

  /** An `ssl_server` entry that is not an SslHandler fails the cast: thrown as it is, nothing sent. */
  lemma NonSslServerHandlerRethrown(action: string, hook: Hook, handler: Handler, context: Context,
                                    pipeline: map<string, ChannelHandler>)
    requires SslServerHandlerName in pipeline && pipeline[SslServerHandlerName].OtherHandler?
    ensures Intercept(action, hook, handler, context, Netty(pipeline)) == Outcome(context, [], [], Some(ClassCastException))
  {
  }

  /**
   * A chain led by an X.509 certificate but holding one of another kind
   * fails the array copy: thrown as it is, nothing sent, no hook, no handler.
   */
  lemma MixedChainRethrown(action: string, hook: Hook, handler: Handler, context: Context,
                           pipeline: map<string, ChannelHandler>)
    requires HasSslServer(pipeline)
    requires pipeline[SslServerHandlerName].session.peerCertificates.Peer?
    requires IsX509Chain(pipeline[SslServerHandlerName].session.peerCertificates.certs)
    requires !AllX509(pipeline[SslServerHandlerName].session.peerCertificates.certs.value)
    ensures Intercept(action, hook, handler, context, Netty(pipeline)) == Outcome(context, [], [], Some(ArrayStoreException))
  {
  }

  /**
   * A hook that throws stops the message before any identity entry is
   * written and before the handler: its exception is thrown as it is,
   * with no response, unless it is an SSLPeerUnverifiedException, which
   * is converted, sent once and thrown.
   */
  lemma HookFailureStops(action: string, hook: Hook, handler: Handler, context: Context,
                         pipeline: map<string, ChannelHandler>)
    requires AcceptedChain(pipeline)
    requires hook(action, context, pipeline[SslServerHandlerName].session.peerCertificates.certs.value).thrown.Some?
    ensures var chain := pipeline[SslServerHandlerName].session.peerCertificates.certs.value;
            var h := hook(action, context, chain);
            var o := Intercept(action, hook, handler, context, Netty(pipeline));
            && o.calls == [HookCall(action, context, chain)]
            && InvocationCount(o.calls) == 0
            && o.context == context + h.writes
            && (h.thrown.value.SSLPeerUnverifiedException? ==>
                  o.responses == [ErrorResponse(ConvertToElastic(h.thrown.value))]
                  && o.thrown == Some(ConvertToElastic(h.thrown.value)))
            && (!h.thrown.value.SSLPeerUnverifiedException? ==> o.responses == [] && o.thrown == h.thrown)
  {
    var chain := pipeline[SslServerHandlerName].session.peerCertificates.certs.value;
    assert CopyOfX509(chain) == Some(chain);
  }

  ghost predicate HookWritesNoIdentityKeys(hook: Hook) {
    forall action, context, chain :: NoIdentityKeys(hook(action, context, chain).writes)
  }

  /**
   * Fail-closed: the handler runs (once) exactly when the channel is not
   * a Netty channel, or when the chain is accepted and the hook succeeds.
   */
  lemma {:induction false} HandlerRunsOnlyWhenAuthenticated(action: string, hook: Hook, handler: Handler,
                                                            context: Context, channel: ChannelKind)
    ensures var o := Intercept(action, hook, handler, context, channel);
            && InvocationCount(o.calls) <= 1
            && (InvocationCount(o.calls) == 1 <==>
                 || channel.NonNetty?
                 || (&& AcceptedChain(channel.pipeline)
                     && hook(action, context, channel.pipeline[SslServerHandlerName].session.peerCertificates.certs.value).thrown.None?))
  {
    match channel
    case NonNetty =>
    case Netty(pipeline) =>
      if AcceptedChain(pipeline) {
        var chain := pipeline[SslServerHandlerName].session.peerCertificates.certs.value;
        assert CopyOfX509(chain) == Some(chain);
        var o := Intercept(action, hook, handler, context, channel);
        if hook(action, context, chain).thrown.None? {
          assert o.calls[1..][1..] == [];
        } else {
          assert o.calls[1..] == [];
        }
      } else if HasSslServer(pipeline) && pipeline[SslServerHandlerName].session.peerCertificates.Peer? {
        var certs := pipeline[SslServerHandlerName].session.peerCertificates.certs;
        if IsX509Chain(certs) {
          assert CopyOfX509(certs.value).None?;
        }
      }
  }

  /**
   * The identity entries are all absent or all present together: a
   * request that had none of them has, afterwards, either none or all
   * four with a non-empty chain, provided the hook writes none of them.
   */
  lemma IdentityKeysAllOrNothing(action: string, hook: Hook, handler: Handler, context: Context, channel: ChannelKind)
    requires NoIdentityKeys(context)
    requires HookWritesNoIdentityKeys(hook)
    ensures var o := Intercept(action, hook, handler, context, channel);
            NoIdentityKeys(o.context) || AllIdentityKeys(o.context)
    ensures var o := Intercept(action, hook, handler, context, channel);
            forall i :: 0 <= i < |o.calls| && o.calls[i].HandlerCall? && channel.Netty? ==> AllIdentityKeys(o.calls[i].context)
  {
    if channel.Netty? && AcceptedChain(channel.pipeline) {
      var chain := channel.pipeline[SslServerHandlerName].session.peerCertificates.certs.value;
      assert CopyOfX509(chain) == Some(chain);
      assert NoIdentityKeys(hook(action, context, chain).writes);
    }
  }

  /** The base service's hook writes no identity entry, so the lemma above applies to it. */
  lemma NoOpHookWritesNoIdentityKeys()
    ensures HookWritesNoIdentityKeys(NoOpHook)
  {
  }

  /**
   * With the base service's hook, an accepted chain leaves the request
   * context with exactly the four identity entries added, and the
   * handler runs once on that context.
   */
  lemma NoOpHookAcceptedChainEnriched(action: string, handler: Handler, context: Context,
                                      pipeline: map<string, ChannelHandler>)
    requires AcceptedChain(pipeline)
    ensures var session := pipeline[SslServerHandlerName].session;
            var chain := session.peerCertificates.certs.value;
            var o := Intercept(action, NoOpHook, handler, context, Netty(pipeline));
            && o.context == Enriched(context, chain, session)
            && o.calls == [HookCall(action, context, chain), HandlerCall(Enriched(context, chain, session), Netty(pipeline))]
  {
    var chain := pipeline[SslServerHandlerName].session.peerCertificates.certs.value;
    assert CopyOfX509(chain) == Some(chain);
    assert context + NoOpHook(action, context, chain).writes == context;
  }

  /**
   * The interceptor adds at most one response of its own: everything
   * sent is the handler's replies (when it ran) followed by at most one
   * error response, and an interceptor error is never sent twice.
   */
  lemma AtMostOneInterceptorResponse(action: string, hook: Hook, handler: Handler, context: Context, channel: ChannelKind)
    ensures var o := Intercept(action, hook, handler, context, channel);
            var own := if |o.calls| > 0 && o.calls[|o.calls| - 1].HandlerCall?
                       then handler.messageReceived(o.calls[|o.calls| - 1].context, channel).responses
                       else [];
            && |own| <= |o.responses| <= |own| + 1
            && o.responses[..|own|] == own
            && (|o.responses| == |own| + 1 ==> o.thrown.Some? && o.responses[|own|] == ErrorResponse(o.thrown.value))
  {
    if channel.Netty? && AcceptedChain(channel.pipeline) {
      var chain := channel.pipeline[SslServerHandlerName].session.peerCertificates.certs.value;
      assert CopyOfX509(chain) == Some(chain);
    }
  }

  // ---------------------------------------------------------------------
  // The objects: request, channel, interceptor, service
  // ---------------------------------------------------------------------

  /** A transport request with its mutable context. */
  class TransportRequest {
    var context: Context

    constructor(context: Context)
      ensures this.context == context
    {
      this.context := context;
    }

    method PutInContext(key: string, value: Value)
      modifies this
      ensures context == old(context)[key := value]
    {
      context := context[key := value];
    }
  }

  /** A transport channel and the responses sent on it so far. */
  class TransportChannel {
    const kind: ChannelKind
    var responses: seq<Response>

    constructor(kind: ChannelKind)
      ensures this.kind == kind && responses == []
    {
      this.kind := kind;
      responses := [];
    }

    method SendResponse(response: Response)
      modifies this
      ensures responses == old(responses) + [response]
    {
      responses := responses + [response];
    }
  }

  /** The wrapper installed for every registered handler. */
  class Interceptor {
    const handler: Handler
    const action: string
    const outer: SearchGuardSSLTransportService

    constructor(outer: SearchGuardSSLTransportService, handler: Handler, action: string)
      ensures this.outer == outer && this.handler == handler && this.action == action
    {
      this.outer := outer;
      this.handler := handler;
      this.action := action;
    }

    function NewInstance(): string {
      handler.requestType
    }

    function Executor(): string {
      handler.executor
    }

    function IsForceExecution(): bool {
      handler.forceExecution
    }

    /**
     * Handles one inbound message. `thrown` is the exception the Java
     * method throws, `calls` the hook and handler invocations in order.
     */
    method MessageReceived(request: TransportRequest, transportChannel: TransportChannel)
      returns (thrown: Option<Exception>, calls: seq<Call>)
      modifies request, transportChannel
      ensures var o := Intercept(action, outer.addAdditionalContextValues, handler, old(request.context), transportChannel.kind);
              && request.context == o.context
              && transportChannel.responses == old(transportChannel.responses) + o.responses
              && calls == o.calls
              && thrown == o.thrown
    {
      if !transportChannel.kind.Netty? {
        var call;
        thrown, call := outer.MessageReceivedDecorate(request, handler, transportChannel);
        calls := [call];
        return;
      }
      var pipeline := transportChannel.kind.pipeline;
      // the exception leaving the try block, if any
      var raised: Option<Exception> := None;
      calls := [];
      if SslServerHandlerName !in pipeline {
        var exception := ElasticsearchException(NoSslHandlerMessage);
        transportChannel.SendResponse(ErrorResponse(exception));
        raised := Some(exception);
      } else if pipeline[SslServerHandlerName].OtherHandler? {
        raised := Some(ClassCastException);
      } else {
        var session := pipeline[SslServerHandlerName].session;
        match session.peerCertificates
        case Unverified(reason) =>
          raised := Some(SSLPeerUnverifiedException(reason));
        case Peer(certs) =>
          if IsX509Chain(certs) {
            var copy := CopyOfX509(certs.value);
            if copy.None? {
              raised := Some(ArrayStoreException);
            } else {
              var x509Certs := copy.value;
              calls := [HookCall(action, request.context, x509Certs)];
              raised := outer.AddAdditionalContextValues(action, request, x509Certs);
              if raised.None? {
                request.PutInContext(PrincipalKey, PrincipalValue(x509Certs[0]));
                request.PutInContext(PeerCertificatesKey, Certificates(x509Certs));
                request.PutInContext(ProtocolKey, Text(session.protocol));
                request.PutInContext(CipherKey, Text(session.cipherSuite));
                var call;
                raised, call := outer.MessageReceivedDecorate(request, handler, transportChannel);
                calls := calls + [call];
              }
            }
          } else {
            var exception := ElasticsearchException(NoX509Message);
            transportChannel.SendResponse(ErrorResponse(exception));
            raised := Some(exception);
          }
      }
      if raised.Some? && raised.value.SSLPeerUnverifiedException? {
        var exception := ConvertToElastic(raised.value);
        transportChannel.SendResponse(ErrorResponse(exception));
        thrown := Some(exception);
      } else {
        thrown := raised;
      }
    }
  }

  /**
   * The transport service: its handler registry (the framework's, here an
   * abstract map) and its two overridable hooks.
   */
  class SearchGuardSSLTransportService {
    /** The service's `addAdditionalContextValues`: NoOpHook, or a subclass's override. */
    const addAdditionalContextValues: Hook
    var handlers: map<string, Interceptor>

    constructor(hook: Hook)
      ensures addAdditionalContextValues == hook && handlers == map[]
    {
      addAdditionalContextValues := hook;
      handlers := map[];
    }

    /** Installs, under `action`, an interceptor wrapping `handler`; a later registration wins. */
    method RegisterHandler(action: string, handler: Handler)
      modifies this
      ensures handlers.Keys == old(handlers).Keys + {action}
      ensures fresh(handlers[action])
      ensures handlers[action].handler == handler && handlers[action].action == action
      ensures handlers[action].outer == this
      ensures handlers[action].NewInstance() == handler.requestType
      ensures handlers[action].Executor() == handler.executor
      ensures handlers[action].IsForceExecution() == handler.forceExecution
      ensures forall a :: a in old(handlers) && a != action ==> handlers[a] == old(handlers)[a]
    {
      var interceptor := new Interceptor(this, handler, action);
      handlers := handlers[action := interceptor];
    }

    /** Runs the hook on the request and the chain; its entries go into the request context. */
    method AddAdditionalContextValues(action: string, request: TransportRequest, certs: seq<Certificate>)
      returns (thrown: Option<Exception>)
      modifies request
      ensures var h := addAdditionalContextValues(action, old(request.context), certs);
              request.context == old(request.context) + h.writes && thrown == h.thrown
    {
      var h := addAdditionalContextValues(action, request.context, certs);
      request.context := request.context + h.writes;
      thrown := h.thrown;
    }

    /** Hands the request and the channel to the wrapped handler. */
    method MessageReceivedDecorate(request: TransportRequest, handler: Handler, transportChannel: TransportChannel)
      returns (thrown: Option<Exception>, call: Call)
      modifies transportChannel
      ensures var r := handler.messageReceived(request.context, transportChannel.kind);
              && transportChannel.responses == old(transportChannel.responses) + r.responses
              && thrown == r.thrown
              && call == HandlerCall(request.context, transportChannel.kind)
    {
      var r := handler.messageReceived(request.context, transportChannel.kind);
      transportChannel.responses := transportChannel.responses + r.responses;
      thrown := r.thrown;
      call := HandlerCall(request.context, transportChannel.kind);
    }
  }
}
