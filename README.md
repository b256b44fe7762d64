# Search Guard SSL: transport interceptor and settings filter

This project models two parts of the Search Guard SSL plugin for
Elasticsearch, and proves properties of the models in Dafny.

**The transport interceptor** (`transport.dfy`, module `Transport`).
`SearchGuardSSLTransportService` registers every transport request handler
wrapped in an `Interceptor`. For each inbound message the Interceptor acts
as a fail-closed gate:

- a channel that is not a Netty channel goes straight to the handler;
- a Netty channel whose pipeline has no `ssl_server` handler is answered,
  and the message rejected, with "No ssl handler found (SG 11)";
- a TLS session whose peer chain is null, empty, or not led by an X.509
  certificate is answered and rejected with "No X509 transport client
  certificates found (SG 12)";
- an `SSLPeerUnverifiedException` is converted, sent and thrown (SG 13);
- any other exception is thrown again without a response (SG 14);
- otherwise the hook `addAdditionalContextValues` runs, four identity
  entries (principal, peer certificates, protocol, cipher) are written
  into the request context, and the wrapped handler runs.

The decision is the function `Intercept`, built from `TryBlock` (the try
body) and `Catch` (the two catch clauses). The lemmas beside it state each
outcome: what was sent on the channel, what the context holds, which calls
were made and with which context, and what was thrown.
`Interceptor.MessageReceived` is the imperative method. It updates a
`TransportRequest` context and a `TransportChannel`'s sent responses, and
it is proved to produce exactly the outcome `Intercept` describes. The
Netty pipeline, the TLS session and the certificates are abstract
datatypes. The wrapped handler's `messageReceived` and the hook are
function-valued inputs: each gives the replies or context entries it
produces and the exception it throws.

**The settings filter** (`settings_filter.dfy`, module `SettingsFilter`).
`SearchGuardSSLSettingsFilter` removes, in place, every setting whose key
fully matches the regular expression `searchguard.ssl.*`. The pattern is
modelled as its compiled token sequence plus a backtracking whole-string
matcher (`FullMatch`). A lemma proves it equal to a direct reading:
"searchguard", one wildcard character, "ssl", any rest. `Filter` walks the
keys in an arbitrary order, as a hash map iterator does, and is proved to
leave exactly `Redacted` of the original map.

Four points of the code are easy to misread, and the model follows the
code on each:

- Non-Netty channels. Every non-Netty channel passes straight to the
  handler; there is no allow-list of exempt channels. The only errors are
  the SG 11 and SG 12 messages and the converted exception.
- Hook order. `addAdditionalContextValues` runs before any identity entry
  is written, so the hook sees the context without them.
- Handler exceptions. The call to the wrapped handler
  (SearchGuardSSLTransportService.java:115) is inside the try, so an
  `SSLPeerUnverifiedException` thrown by the handler is converted, sent
  and thrown like the interceptor's own.
- Java's `.`. It does not match a line terminator (`\n`, `\r`, U+0085,
  U+2028, U+2029), so a key such as `searchguard\nssl` is kept.

## Model

| member | source | states |
|---|---|---|
| `Transport.SearchGuardSSLTransportService.RegisterHandler` | src/main/java/com/floragunn/searchguard/ssl/transport/SearchGuardSSLTransportService.java:45-75 | registering installs, under the unchanged action key, a fresh interceptor of this service holding the original handler and that action. Later registrations win and other entries are untouched. The interceptor's `newInstance`, `executor` and `isForceExecution` equal the handler's. |
| `Transport.Interceptor.constructor` | src/main/java/com/floragunn/searchguard/ssl/transport/SearchGuardSSLTransportService.java:56-60 | the interceptor stores exactly the handler and the action it is given |
| `Transport.Interceptor.MessageReceived` | src/main/java/com/floragunn/searchguard/ssl/transport/SearchGuardSSLTransportService.java:77-135 | the request context, the responses appended on the channel, the calls made and the exception thrown are exactly those of `Intercept` on the old context and the channel |
| `Transport.SearchGuardSSLTransportService.AddAdditionalContextValues` | src/main/java/com/floragunn/searchguard/ssl/transport/SearchGuardSSLTransportService.java:139-142 | the hook's entries are added to the request context and its exception is passed on |
| `Transport.SearchGuardSSLTransportService.MessageReceivedDecorate` | src/main/java/com/floragunn/searchguard/ssl/transport/SearchGuardSSLTransportService.java:144-146 | the wrapped handler receives the request's context and the channel; its replies go on the channel and its exception is passed on |
| `Transport.CopyOfX509` | src/main/java/com/floragunn/searchguard/ssl/transport/SearchGuardSSLTransportService.java:108 | the copy into an X509Certificate array succeeds exactly when every certificate is X.509, and then it is the same chain |
| `Transport.NonNettyPassesThrough` | src/main/java/com/floragunn/searchguard/ssl/transport/SearchGuardSSLTransportService.java:80-89 | on a non-Netty channel the handler is invoked once, with the request's context and the same channel; no context entry is written and nothing but the handler's own replies and exception comes out |
| `Transport.MissingSslHandlerRejected` | src/main/java/com/floragunn/searchguard/ssl/transport/SearchGuardSSLTransportService.java:93-101 | without an `ssl_server` handler nothing is called and no entry is written; exactly one "No ssl handler found (SG 11)" response is sent and the same exception is thrown |
| `Transport.NonSslServerHandlerRethrown` | src/main/java/com/floragunn/searchguard/ssl/transport/SearchGuardSSLTransportService.java:93 | an `ssl_server` entry of another kind fails the cast. The ClassCastException is thrown, nothing is sent and nothing is called. |
| `Transport.NoX509ChainRejected` | src/main/java/com/floragunn/searchguard/ssl/transport/SearchGuardSSLTransportService.java:105-122 | a null, empty or non-X.509-led chain gets no calls and no entries; exactly one "No X509 transport client certificates found (SG 12)" response is sent and that exception is thrown |
| `Transport.PeerUnverifiedReported` | src/main/java/com/floragunn/searchguard/ssl/transport/SearchGuardSSLTransportService.java:124-128 | an unverified peer gets no calls and no entries; exactly one response carrying the converted exception is sent and that converted exception is thrown |
| `Transport.MixedChainRethrown` | src/main/java/com/floragunn/searchguard/ssl/transport/SearchGuardSSLTransportService.java:107-108 | an X.509 leaf followed by a certificate of another kind fails the array copy. The ArrayStoreException is thrown unchanged, with no response, no hook and no handler. |
| `Transport.AcceptedChainEnriched` | src/main/java/com/floragunn/searchguard/ssl/transport/SearchGuardSSLTransportService.java:107-115 | on an accepted chain the calls are: first the hook, on the untouched context with the action and the whole chain; then the handler, once, on the Netty channel. The context the handler sees holds the hook's entries, the principal (the leaf's subject name, or null), the chain, the protocol and the cipher. The handler's replies are sent. Its SSLPeerUnverifiedException is converted, sent once and thrown; any other exception it throws comes out unchanged with no extra response. |
| `Transport.HookFailureStops` | src/main/java/com/floragunn/searchguard/ssl/transport/SearchGuardSSLTransportService.java:109 | a throwing hook stops the message: no identity entry is written and the handler does not run. Its exception is thrown unchanged with no response; an SSLPeerUnverifiedException is instead converted, sent once and thrown. |
| `Transport.HandlerRunsOnlyWhenAuthenticated` | src/main/java/com/floragunn/searchguard/ssl/transport/SearchGuardSSLTransportService.java:78-135 | fail-closed, in both directions: the handler runs at most once. It runs if and only if the channel is not Netty, or the chain is accepted and the hook succeeds. |
| `Transport.IdentityKeysAllOrNothing` | src/main/java/com/floragunn/searchguard/ssl/transport/SearchGuardSSLTransportService.java:107-115 | starting from a context without identity entries, and with a hook that writes none, the final context holds none of the four entries or all four with a non-empty chain. A handler invoked on a Netty channel always sees all four. |
| `Transport.NoOpHookWritesNoIdentityKeys` | src/main/java/com/floragunn/searchguard/ssl/transport/SearchGuardSSLTransportService.java:139-142 | the base service's hook, which does nothing, writes no identity entry, so the all-or-nothing guarantee holds for the base service |
| `Transport.NoOpHookAcceptedChainEnriched` | src/main/java/com/floragunn/searchguard/ssl/transport/SearchGuardSSLTransportService.java:107-115 | with the base service's hook, an accepted chain leaves exactly the request's context plus the four identity entries, and the calls are the hook on the untouched context, then the handler once on the enriched context |
| `Transport.AtMostOneInterceptorResponse` | src/main/java/com/floragunn/searchguard/ssl/transport/SearchGuardSSLTransportService.java:91-134 | everything sent is the handler's own replies (if it ran) followed by at most one error response of the interceptor's, which carries the thrown exception: an interceptor error is never sent twice |
| `SettingsFilter.MatchesIffFilteredKey` | src/main/java/com/floragunn/searchguard/ssl/SearchGuardSSLSettingsFilter.java:30-40 | a whole-key match of `searchguard.ssl.*` holds exactly for keys made of "searchguard", one character other than a line terminator, "ssl", and a rest free of line terminators |
| `SettingsFilter.KeystorePathIsRemoved` | src/main/java/com/floragunn/searchguard/ssl/SearchGuardSSLSettingsFilter.java:30 | `searchguard.ssl.transport.keystore_filepath` matches |
| `SettingsFilter.WildcardSeparatorIsRemoved` | src/main/java/com/floragunn/searchguard/ssl/SearchGuardSSLSettingsFilter.java:30 | `searchguardXssl` matches: the `.` is a wildcard |
| `SettingsFilter.PrefixedKeyIsKept` | src/main/java/com/floragunn/searchguard/ssl/SearchGuardSSLSettingsFilter.java:30 | `xsearchguard.ssl` does not match: the match covers the whole key |
| `SettingsFilter.MisspelledKeyIsKept` | src/main/java/com/floragunn/searchguard/ssl/SearchGuardSSLSettingsFilter.java:30 | `searchguard.sl` does not match |
| `SettingsFilter.LineTerminatorSeparatorIsKept` | src/main/java/com/floragunn/searchguard/ssl/SearchGuardSSLSettingsFilter.java:30 | `searchguard\nssl` does not match: `.` excludes line terminators |
| `SettingsFilter.Redacted` | src/main/java/com/floragunn/searchguard/ssl/SearchGuardSSLSettingsFilter.java:38-43 | the filtered map is a sub-map of the input with the same values; no remaining key matches; every non-matching entry is kept |
| `SettingsFilter.RedactedIdempotent` | src/main/java/com/floragunn/searchguard/ssl/SearchGuardSSLSettingsFilter.java:38-43 | filtering twice gives the same map as filtering once |
| `SettingsFilter.Filter` | src/main/java/com/floragunn/searchguard/ssl/SearchGuardSSLSettingsFilter.java:37-44 | removing matching entries in place, visiting the keys in any order, leaves exactly `Redacted` of the original map |

## Left out

- SearchGuardSSLPlugin.java is not part of this model. It is module wiring: security-manager checks, native OpenSSL initialisation, a reflective plugin lookup and console output.
- The constructor of `SearchGuardSSLSettingsFilter` registers the filter with `SettingsFilter.addFilter`. That framework registry is not modelled; `Filter` is the registered filter's body.
- The framework's own `TransportService.registerHandler` is modelled only as an assignment into the `handlers` map. The transport service's constructor arguments (settings, transport, thread pool) are not modelled.
- Netty pipeline internals, `SSLEngine`/`SSLSession` internals, the TLS handshake and certificate validation are out of scope. The pipeline is a map from names to handlers, and the session is an abstract value.
- `X500Principal.getName()` is an opaque string paired with each X.509 certificate. `ExceptionsHelper.convertToElastic` is an opaque constructor, `ConvertedToElastic`.
- Log output and its severities (SG 13 at error, SG 14 at debug) have no effect on the outcome and are not modelled.
- `sendResponse` is modelled as always succeeding. An I/O error while sending is not modelled.
- Null elements inside the peer certificate array are not modelled; certificates are always present values.
- The wrapped handler writing into the request context is not modelled. Its effect is limited to the replies it sends and the exception it throws.
- `newInstance` is modelled by the name of the request type it creates, not by allocating a request object.
- Subclass overrides of `messageReceivedDecorate` are not modelled; the base behaviour, calling the wrapped handler, is. An override of `addAdditionalContextValues` is the service's `Hook` input, and the base no-op is `NoOpHook`.
- Concurrency: each message is handled on its own, and the service's thread-pool executors are represented only by the executor name.
- AcceptedChainEnriched: assumes the hook leaves the certificate array it receives unchanged. In the code the hook gets `x509Certs` by reference (SearchGuardSSLTransportService.java:109), and lines 110 and 112 read it afterwards. A hook that overwrote its elements would change the principal and the stored chain, and a null written at index 0 would make line 110 throw a NullPointerException, rethrown with no response. The model's `Hook` receives the chain as a value, so it cannot capture this aliasing.
- FullMatch: keys are sequences of Unicode scalar values. Java keys are UTF-16 strings and may hold unpaired surrogates, which Java's `.` matches; the model cannot represent such keys.
