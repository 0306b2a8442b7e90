# rust-ssl-proxy: certificate resolution and request routing in Dafny

This project models the two decision-making parts of a dynamic TLS-terminating
proxy.

- **Certificate cache and SNI resolver** (`src/lib.rs`). `CertCache` maps the
  exact hostname received in the Server Name Indication extension (section 3
  of RFC 6066) to a certified key. Nothing is ever deleted from it.
  `ResolveSSL::resolve` runs at handshake time. With no hostname it gives no
  identity. On a cache hit it returns the cached identity. On a miss it calls
  the loader, then stores and returns the identity if the load succeeded.
  In the model, `Resolver.CertCache` is a class with a `map` field that
  `Set` updates in place. `Resolver.ResolveSsl` owns one cache and keeps a
  ghost trace, `loads`, of the hostnames passed to the loader. The resolver
  gets the loader as a parameter `string -> LoadOutcome`.
- **Loader** (`load_certified_key`). `Loader.LoadCertifiedKey` models its
  control flow over an abstract `Store`. The store gives, per bundle path, what
  the PEM certificate reader, the rewind and the PKCS#8 key reader yield, and
  it gives the key-algorithm check. The bundle path is
  `certs/ssl/<host>.both.pem`. The loader panics when the file cannot be
  opened, when the rewind fails and when the key list is empty. These panics
  are the `Aborted` outcome and are never reported as "no identity". A
  resolve that reaches such a panic ends in `Resolution.Panicked`.
- **Request routing** (`proxy` and `host_addr` in `src/bin/ssl-proxy.rs`).
  `SslProxy.Proxy` is a pure function from a request's method and URI to a
  `Route`:
  - a CONNECT (section 9.3.6 of RFC 9110) whose URI has an authority gets an
    empty 200 response and a tunnel to `0.0.0.0:8080`;
  - a CONNECT without an authority gets 400 with the body
    `CONNECT must be to a socket address`;
  - every other method is forwarded to `0.0.0.0:<port>`, where the port is the
    URI's explicit port or 8080.

  `host_addr` ignores what the authority says and always yields
  `0.0.0.0:8080`. The model keeps that, and it keeps the hard-coded forward
  host. `empty()` and `full(chunk)` are the two constructors of `Body`.

Not every loader failure is a quiet "no identity". The code panics on an
unopenable bundle, a failed rewind and an empty key list, and the model keeps
those panics. `set` overwrites (last writer wins). Through `resolve` an
existing entry is never replaced, because `resolve` stores only on a miss.

## Model

| member | source | states |
|---|---|---|
| `Loader.BundlePath` | src/lib.rs:131 | the bundle path is `certs/ssl/` + host + `.both.pem`, and the hostname can be read back from it |
| `Loader.BundlePathInjective` | src/lib.rs:131 | two hostnames share a bundle path exactly when they are equal |
| `Loader.DomainOfBundlePathSound` | src/lib.rs:131 | every path of the bundle shape is the bundle path of the hostname read from it |
| `Loader.LoadCertifiedKey` | src/lib.rs:129-167 | the loader panics exactly when the file cannot be opened, the rewind fails, or the key list is empty; it loads exactly when the file opens, both lists are readable, the key list is non-empty and its first key is supported, and the identity is then the file's certificate chain with that first key's signing key |
| `Loader.LoadReadsOnlyOwnBundle` | src/lib.rs:131-166 | the load for a hostname depends only on that hostname's own bundle file |
| `Resolver.CertCache.constructor` | src/lib.rs:20-22 | a new cache is empty |
| `Resolver.CertCache.Set` | src/lib.rs:28-31 | after `set(k, v)` the key `k` maps to `v` (last writer wins), and every other key keeps its entry or absence |
| `Resolver.CertCache.Get` | src/lib.rs:34-49 | `get` changes nothing, gives `None` exactly when the key is absent, and otherwise gives the stored identity |
| `Resolver.ResolveStep` | src/lib.rs:78-112 | one resolve only grows the cache and never replaces an entry; it adds at most the requested hostname; it loads exactly on a miss, and only that hostname; a returned identity is the one now cached for that hostname; a panic comes from the loader and leaves the cache unchanged |
| `Resolver.ResolveSsl.constructor` | src/lib.rs:58-62 | a new resolver has a fresh, empty cache and has loaded nothing |
| `Resolver.ResolveSsl.Resolve` | src/lib.rs:78-112 | the result, the new cache and the extended loader trace are those of `ResolveStep` on the old cache |
| `Resolver.ResolveWithoutName` | src/lib.rs:78-111 | with no SNI hostname, resolve returns no identity, does not load and leaves the cache unchanged |
| `Resolver.ResolveHit` | src/lib.rs:84-88 | on a hit, resolve returns the cached identity, does not load and leaves the cache unchanged |
| `Resolver.ResolveMiss` | src/lib.rs:95-108 | on a miss, resolve loads once; a success is stored under exactly that hostname and returned; a failure returns no identity and leaves the cache unchanged; a loader panic leaves the cache unchanged |
| `Resolver.ResolveAgainHits` | src/lib.rs:95-104 | after a successful resolve, resolving the same hostname again returns the same identity without loading |
| `Resolver.ResolveIsolated` | src/lib.rs:81-104 | if every cached entry is the loader's identity for its own hostname, resolve keeps that so, and any identity it returns is the loader's identity for the requested hostname |
| `Resolver.ReplayOnlyGrows` | src/lib.rs:28-104 | across any sequence of `set` and `resolve` calls the cache's key set only grows |
| `Resolver.ReplayKeepsConsistent` | src/lib.rs:84-104 | across any sequence of resolves, every cached entry stays the loader's identity for its own hostname |
| `Resolver.LoadedAtMostOnce` | src/lib.rs:84-104 | across any sequence of calls, a hostname whose load succeeds is passed to the loader at most once, and never once it is cached |
| `Resolver.MissingBundlePanics` | src/lib.rs:131-133 | with the file-backed loader, a miss on a hostname whose bundle cannot be opened panics instead of answering no identity |
| `SslProxy.DecimalString` | src/bin/ssl-proxy.rs:141 | a port is written as a non-empty digit string with no leading zero |
| `SslProxy.DecimalStringValue` | src/bin/ssl-proxy.rs:141 | the written digit string reads back as the number |
| `SslProxy.ParsePort` | src/bin/ssl-proxy.rs:140 | a port text gives a port exactly when it is a non-empty digit string whose value is below 65536, and a port parsed from text without a leading zero is written back as that same text |
| `SslProxy.CanonicalDigitsRoundTrip` | src/bin/ssl-proxy.rs:140-141 | a digit string without a leading zero is exactly how its own value is written |
| `SslProxy.PortRoundTrip` | src/bin/ssl-proxy.rs:140-141 | every 16-bit port, written out, parses back to itself |
| `SslProxy.PortU16` | src/bin/ssl-proxy.rs:140 | a URI has a port only if it has an authority with a port part, and then the port is what that port text parses to |
| `SslProxy.HostAddr` | src/bin/ssl-proxy.rs:164-167 | `host_addr` is `None` exactly when the URI has no authority, and otherwise is `0.0.0.0:8080` |
| `SslProxy.HostAddrIgnoresAuthority` | src/bin/ssl-proxy.rs:166 | any two URIs with an authority get the same tunnel target |
| `SslProxy.ForwardPort` | src/bin/ssl-proxy.rs:140 | the forward port is the URI's explicit port if it has one, and 8080 otherwise |
| `SslProxy.Proxy` | src/bin/ssl-proxy.rs:101-141 | routing is exclusive: a request is forwarded exactly when it is not CONNECT, tunnelled exactly when it is CONNECT with an authority, and rejected exactly when it is CONNECT without one |
| `SslProxy.ConnectWithAuthorityTunnels` | src/bin/ssl-proxy.rs:115-127 | a CONNECT with an authority gets status 200 with an empty body and a tunnel to `0.0.0.0:8080` |
| `SslProxy.ConnectWithoutAuthorityRejected` | src/bin/ssl-proxy.rs:128-133 | a CONNECT without an authority gets status 400 with body `CONNECT must be to a socket address` and no tunnel |
| `SslProxy.NonConnectForwarded` | src/bin/ssl-proxy.rs:139-141 | any other method is forwarded to `0.0.0.0:` + the port; the port is the explicit one or 8080, its type keeps it in 0..65535, and it reads back from the address |
| `SslProxy.DefaultForwardIsTunnelTarget` | src/bin/ssl-proxy.rs:139-141 | without an explicit port, the forward address is `0.0.0.0:8080` |
| `SslProxy.ExplicitPortForwarded` | src/bin/ssl-proxy.rs:140-141 | a well-formed explicit port in the authority is the port in the forward address |

## Left out

- TLS handshake and rustls types (`ClientHello`, `ServerConfig`, `TlsAcceptor`): they are foreign library code. The client hello becomes an optional hostname. Certificates, private keys and signing keys are opaque types.
- PEM parsing, file reading and `any_supported_type` (src/lib.rs:116-127 and the calls in 133-166): these are file I/O and library parsing. A `Store` supplies their results per bundle path.
- The store is fixed during a run. The model does not capture files changing on disk between two loads.
- `RwLock` locking and poisoning (src/lib.rs:29, src/lib.rs:36-41): these are concurrency. The cache is a single-threaded map.
- `Resolver.CertCache.Get`: does not model `get` returning `None` on a poisoned lock, because the model is single-threaded. For the same reason `set` never panics on a poisoned lock.
- Concurrent resolves of the same uncached hostname and their repeated loads are out of scope. `Resolver.LoadedAtMostOnce` holds for sequential calls only.
- Log lines (`eprintln!`) are output only and are left out.
- The accept loop, task spawning, hyper connection serving and header-case options (src/bin/ssl-proxy.rs:61-90, 147-151): network I/O and async runtime.
- `tunnel` and `copy_bidirectional` (src/bin/ssl-proxy.rs:181-197), the upgrade, backend dialing, the `unwrap` on `TcpStream::connect` and `send_request` (src/bin/ssl-proxy.rs:143-160): network I/O. `Route.Forward` names only the address dialled. The backend's response and any dial error are not modelled.
- `SslProxy.PortU16`: the http crate's URI parser is not modelled. A URI arrives already split into authority and port text. The port text is read as a decimal digit string, and text the crate might also accept (such as a leading `+`) gives no port here.
- CLI parsing and socket-address resolution in `main` (src/bin/ssl-proxy.rs:25-43): bootstrap code.
- `locust/get.py` is a load-generation script, not product logic.
- The commented-out `parse_incoming` (src/lib.rs:169-198) is dead code.
