/**
 * The certificate store loader of `src/lib.rs` (`load_certified_key`).
 *
 * For a hostname it opens the combined bundle `certs/ssl/<host>.both.pem`,
 * reads the certificate chain, rewinds, reads the PKCS#8 private keys and
 * turns the first key into a signing key.  PEM parsing, file reading and
 * the key-algorithm check are foreign code: a `Store` gives, per path, what
 * each of those steps yields, and the loader's own control flow (which step
 * gives up quietly, which one panics) is modelled exactly.
 */
module Loader {
  import opened Wrappers

  /** A DER certificate, as produced by the PEM reader. */
  type Certificate
  /** A PKCS#8 private key, as produced by the PEM reader. */
  type PrivateKey
  /** A key usable for TLS signatures (rustls' `any_supported_type`). */
  type SigningKey

  /** The signed identity presented in the handshake: chain plus signing key. */
  datatype CertifiedKey = CertifiedKey(cert: seq<Certificate>, key: SigningKey)

  /** The ways the loader gives up and returns no identity. */
  datatype LoadError = CertsUnreadable | KeysUnreadable | KeyUnsupported

  /** The ways the loader panics instead of returning. */
  datatype Panic = OpenFailed | RewindFailed | NoPrivateKey

  datatype LoadOutcome =
    | Loaded(identity: CertifiedKey)
    | Failed(error: LoadError)
    | Aborted(panic: Panic)

  /**
   * What the foreign steps yield on one bundle file: the certificate list
   * (`None` when `certs` reports an error), whether the rewind succeeds,
   * and the private-key list (`None` when `pkcs8_private_keys` reports an error).
   */
  datatype BundleFile = BundleFile(
    certs: Option<seq<Certificate>>,
    rewinds: bool,
    keys: Option<seq<PrivateKey>>)

  /** The files that can be opened, by path, and the key-algorithm check. */
  datatype Store = Store(
    files: map<string, BundleFile>,
    supported: PrivateKey -> Option<SigningKey>)

  const BundleDir: string := "certs/ssl/"
  const BundleSuffix: string := ".both.pem"

  /** The bundle file name for `domain`: `certs/ssl/<domain>.both.pem`. */
  function BundlePath(domain: string): (path: string)
    ensures |path| == |BundleDir| + |domain| + |BundleSuffix|
    ensures DomainOfBundlePath(path) == Some(domain)
  {
    var path := BundleDir + domain + BundleSuffix;
    assert path[..|BundleDir|] == BundleDir;
    assert path[|path| - |BundleSuffix|..] == BundleSuffix;
    assert path[|BundleDir|..|path| - |BundleSuffix|] == domain;
    path
  }

  /** The hostname a bundle path belongs to, if it has the bundle shape. */
  function DomainOfBundlePath(path: string): Option<string> {
    if |path| >= |BundleDir| + |BundleSuffix|
       && path[..|BundleDir|] == BundleDir
       && path[|path| - |BundleSuffix|..] == BundleSuffix
    then Some(path[|BundleDir|..|path| - |BundleSuffix|])
    else None
  }

  /** Distinct hostnames never share a bundle file. */
  lemma BundlePathInjective(a: string, b: string)
    ensures BundlePath(a) == BundlePath(b) <==> a == b
  {
  }

  /** Every path of the bundle shape is the bundle path of its hostname. */
  lemma DomainOfBundlePathSound(path: string)
    requires DomainOfBundlePath(path).Some?
    ensures BundlePath(DomainOfBundlePath(path).value) == path
  {
  }

  /**
   * `load_certified_key`: opening the bundle panics when it cannot be
   * opened, an unreadable certificate list gives up, the rewind panics when
   * it fails, an unreadable key list gives up, an empty key list panics,
   * and an unsupported first key gives up.
   */
  function LoadCertifiedKey(store: Store, domain: string): (r: LoadOutcome)
    ensures r.Aborted? <==>
      var path := BundlePath(domain);
      path !in store.files ||
      (store.files[path].certs.Some? && !store.files[path].rewinds) ||
      (store.files[path].certs.Some? && store.files[path].rewinds &&
       store.files[path].keys == Some([]))
    ensures r.Loaded? <==>
      var path := BundlePath(domain);
      path in store.files &&
      store.files[path].certs.Some? && store.files[path].rewinds &&
      store.files[path].keys.Some? && |store.files[path].keys.value| > 0 &&
      store.supported(store.files[path].keys.value[0]).Some?
    ensures r.Loaded? ==>
      var file := store.files[BundlePath(domain)];
      r.identity == CertifiedKey(file.certs.value, store.supported(file.keys.value[0]).value)
  {
    var path := BundlePath(domain);
    if path !in store.files then Aborted(OpenFailed)
    else
      var file := store.files[path];
      match file.certs
      case None => Failed(CertsUnreadable)
      case Some(certs) =>
        if !file.rewinds then Aborted(RewindFailed)
        else
          match file.keys
          case None => Failed(KeysUnreadable)
          case Some(keys) =>
            if |keys| == 0 then Aborted(NoPrivateKey)
            else
              match store.supported(keys[0])
              case None => Failed(KeyUnsupported)
              case Some(signing) => Loaded(CertifiedKey(certs, signing))
  }

  /**
   * The load for `domain` depends on nothing but that hostname's own bundle
   * (and the key-algorithm check): other files cannot influence it.
   */
  lemma LoadReadsOnlyOwnBundle(s1: Store, s2: Store, domain: string)
    requires s1.supported == s2.supported
    requires BundlePath(domain) in s1.files <==> BundlePath(domain) in s2.files
    requires BundlePath(domain) in s1.files ==>
      s1.files[BundlePath(domain)] == s2.files[BundlePath(domain)]
    ensures LoadCertifiedKey(s1, domain) == LoadCertifiedKey(s2, domain)
  {
  }
}
