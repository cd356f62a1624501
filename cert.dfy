/**
 * `CertManager.EnsureCert` of internal/cert/cert.go: reuse the certificate on
 * disk when it is there and loads, otherwise generate a self-signed one and
 * write both PEM files. The filesystem is a map from paths to bytes; key
 * generation, signing, PEM encoding and key-pair loading are oracles.
 */
module Cert {
  import opened Wrappers
  import opened Text

  /** A calendar date and the time of day (`clock`, in any fixed unit) of a `time.Time`. */
  datatype Time = Time(year: int, month: int, day: int, clock: int)

  predicate IsLeap(year: int) {
    year % 4 == 0 && (year % 100 != 0 || year % 400 == 0)
  }

  function DaysIn(month: int, year: int): int {
    if month == 2 then (if IsLeap(year) then 29 else 28)
    else if month == 4 || month == 6 || month == 9 || month == 11 then 30
    else 31
  }

  predicate ValidTime(t: Time) {
    1 <= t.month <= 12 && 1 <= t.day <= DaysIn(t.month, t.year)
  }

  /** Chronological order of two times. */
  predicate Before(a: Time, b: Time) {
    a.year < b.year
    || (a.year == b.year && (a.month < b.month
        || (a.month == b.month && (a.day < b.day || (a.day == b.day && a.clock < b.clock)))))
  }

  /** `t.AddDate(1, 0, 0)`: the same date a year later, 29 February normalised to 1 March. */
  function AddOneYear(t: Time): (r: Time)
    requires ValidTime(t)
    ensures ValidTime(r) && Before(t, r)
    ensures r.year == t.year + 1 && r.clock == t.clock
    ensures (t.month, t.day) != (2, 29) || IsLeap(t.year + 1) ==> r.month == t.month && r.day == t.day
  {
    if t.month == 2 && t.day == 29 && !IsLeap(t.year + 1) then Time(t.year + 1, 3, 1, t.clock)
    else t.(year := t.year + 1)
  }

  datatype KeyUsage = KeyEncipherment | DigitalSignature
  datatype ExtKeyUsage = ServerAuth

  /** The fields of the `x509.Certificate` template that `EnsureCert` fills in. */
  datatype Template = Template(
    serialNumber: int, commonName: string, notBefore: Time, notAfter: Time,
    keyUsage: set<KeyUsage>, extKeyUsage: seq<ExtKeyUsage>,
    basicConstraintsValid: bool, dnsNames: seq<string>)

  /** The self-signed template for `domain`, issued at `now`. */
  function TemplateFor(domain: string, now: Time): (t: Template)
    requires ValidTime(now)
    ensures t.serialNumber == 1 && t.commonName == domain && t.dnsNames == [domain]
    ensures t.notBefore == now && t.notAfter == AddOneYear(now) && Before(t.notBefore, t.notAfter)
    ensures t.keyUsage == {KeyEncipherment, DigitalSignature} && t.extKeyUsage == [ServerAuth]
    ensures t.basicConstraintsValid
  {
    Template(1, domain, now, AddOneYear(now), {KeyEncipherment, DigitalSignature}, [ServerAuth], true, [domain])
  }

  /** An RSA private key, known only by identity. */
  datatype PrivateKey = PrivateKey(id: int)

  /** A loaded `tls.Certificate`, identified by the two PEM files it was loaded from. */
  datatype TlsCert = TlsCert(certPem: seq<bv8>, keyPem: seq<bv8>)

  /**
   * The cryptographic calls: `rsa.GenerateKey` (its outcome), `x509.CreateCertificate`
   * of a self-signed template, `pem.EncodeToMemory` of a block type and bytes,
   * `x509.MarshalPKCS1PrivateKey`, and whether `tls.LoadX509KeyPair` accepts a pair.
   */
  datatype Crypto = Crypto(
    generateKey: Option<PrivateKey>,
    createCertificate: (Template, PrivateKey) -> Option<seq<bv8>>,
    pemEncode: (string, seq<bv8>) -> seq<bv8>,
    marshalKey: PrivateKey -> seq<bv8>,
    loadsPair: (seq<bv8>, seq<bv8>) -> bool)

  /** `filepath.Join` of a directory and a file name (path cleaning is not modelled). */
  function JoinPath(dir: string, name: string): string {
    if dir == "" then name else dir + "/" + name
  }

  function CertPath(certsDir: string, domain: string): string {
    JoinPath(certsDir, domain + ".crt")
  }

  function KeyPath(certsDir: string, domain: string): string {
    JoinPath(certsDir, domain + ".key")
  }

  /** The certificate and the key of a domain never share a file. */
  lemma CertAndKeyPathsDiffer(certsDir: string, domain: string)
    ensures CertPath(certsDir, domain) != KeyPath(certsDir, domain)
    ensures HasSuffix(CertPath(certsDir, domain), ".crt") && HasSuffix(KeyPath(certsDir, domain), ".key")
  {
    var c, k := CertPath(certsDir, domain), KeyPath(certsDir, domain);
    assert c[|c| - 1] == 't' && k[|k| - 1] == 'y';
    assert c[|c| - 4..] == ".crt" && k[|k| - 4..] == ".key";
  }

  /** `tls.LoadX509KeyPair(certPath, keyPath)` over the files: both must exist and be accepted. */
  function LoadPair(files: map<string, seq<bv8>>, certPath: string, keyPath: string, crypto: Crypto): Option<TlsCert> {
    if certPath in files && keyPath in files && crypto.loadsPair(files[certPath], files[keyPath])
    then Some(TlsCert(files[certPath], files[keyPath]))
    else None
  }

  /** What `EnsureCert` returns and the files and directories it leaves. */
  datatype Outcome = Outcome(result: Result<TlsCert>, files: map<string, seq<bv8>>, dirs: set<string>)

  /**
   * The specification of `EnsureCert`. `failing` holds the paths `os.Create` cannot
   * create and `mkdirOk` says whether `os.MkdirAll` succeeds.
   */
  function Ensure(
    certsDir: string, domain: string, now: Time, crypto: Crypto,
    files: map<string, seq<bv8>>, dirs: set<string>, failing: set<string>, mkdirOk: bool): Outcome
    requires ValidTime(now)
  {
    var certPath := CertPath(certsDir, domain);
    var keyPath := KeyPath(certsDir, domain);
    if certPath in files && LoadPair(files, certPath, keyPath, crypto).Some? then
      Outcome(Ok(LoadPair(files, certPath, keyPath, crypto).value), files, dirs)
    else if crypto.generateKey.None? then
      Outcome(Err("failed to generate private key"), files, dirs)
    else
      var key := crypto.generateKey.value;
      var der := crypto.createCertificate(TemplateFor(domain, now), key);
      if der.None? then Outcome(Err("failed to create certificate"), files, dirs)
      else if !mkdirOk then Outcome(Err("failed to create certs directory"), files, dirs)
      else if certPath in failing then Outcome(Err("failed to create cert file"), files, dirs + {certsDir})
      else
        var certPem := crypto.pemEncode("CERTIFICATE", der.value);
        var withCert := files[certPath := certPem];
        if keyPath in failing then Outcome(Err("failed to create key file"), withCert, dirs + {certsDir})
        else
          var keyPem := crypto.pemEncode("RSA PRIVATE KEY", crypto.marshalKey(key));
          var written := withCert[keyPath := keyPem];
          match LoadPair(written, certPath, keyPath, crypto)
          case Some(c) => Outcome(Ok(c), written, dirs + {certsDir})
          case None => Outcome(Err("failed to load generated cert"), written, dirs + {certsDir})
  }

  /** A certificate that exists and loads is returned as it is, with no write. */
  lemma EnsureReuses(
    certsDir: string, domain: string, now: Time, crypto: Crypto,
    files: map<string, seq<bv8>>, dirs: set<string>, failing: set<string>, mkdirOk: bool)
    requires ValidTime(now)
    requires CertPath(certsDir, domain) in files && KeyPath(certsDir, domain) in files
    requires crypto.loadsPair(files[CertPath(certsDir, domain)], files[KeyPath(certsDir, domain)])
    ensures var o := Ensure(certsDir, domain, now, crypto, files, dirs, failing, mkdirOk);
      o.files == files && o.dirs == dirs
      && o.result == Ok(TlsCert(files[CertPath(certsDir, domain)], files[KeyPath(certsDir, domain)]))
  {
  }

  /** Whatever is written, a success returns the pair as reloaded from the two files now on disk. */
  lemma EnsureSuccessIsOnDisk(
    certsDir: string, domain: string, now: Time, crypto: Crypto,
    files: map<string, seq<bv8>>, dirs: set<string>, failing: set<string>, mkdirOk: bool)
    requires ValidTime(now)
    ensures var o := Ensure(certsDir, domain, now, crypto, files, dirs, failing, mkdirOk);
      o.result.Ok? ==> LoadPair(o.files, CertPath(certsDir, domain), KeyPath(certsDir, domain), crypto) == Some(o.result.value)
  {
    CertAndKeyPathsDiffer(certsDir, domain);
  }

  /** A second call after a successful one returns the same certificate and writes nothing. */
  lemma EnsureTwice(
    certsDir: string, domain: string, now: Time, later: Time, crypto: Crypto,
    files: map<string, seq<bv8>>, dirs: set<string>, failing: set<string>, mkdirOk: bool)
    requires ValidTime(now) && ValidTime(later)
    requires Ensure(certsDir, domain, now, crypto, files, dirs, failing, mkdirOk).result.Ok?
    ensures var o := Ensure(certsDir, domain, now, crypto, files, dirs, failing, mkdirOk);
      var o2 := Ensure(certsDir, domain, later, crypto, o.files, o.dirs, failing, mkdirOk);
      o2 == o
  {
    EnsureSuccessIsOnDisk(certsDir, domain, now, crypto, files, dirs, failing, mkdirOk);
  }

  /** A failure to generate the key or sign the certificate touches neither files nor directories. */
  lemma EnsureCryptoFailureWritesNothing(
    certsDir: string, domain: string, now: Time, crypto: Crypto,
    files: map<string, seq<bv8>>, dirs: set<string>, failing: set<string>, mkdirOk: bool)
    requires ValidTime(now)
    requires !(CertPath(certsDir, domain) in files && LoadPair(files, CertPath(certsDir, domain), KeyPath(certsDir, domain), crypto).Some?)
    requires crypto.generateKey.None? || crypto.createCertificate(TemplateFor(domain, now), crypto.generateKey.value).None?
    ensures var o := Ensure(certsDir, domain, now, crypto, files, dirs, failing, mkdirOk);
      o.result.Err? && o.files == files && o.dirs == dirs
  {
  }

  /** A certificate that exists but does not load is replaced: both files are rewritten. */
  lemma EnsureRegenerates(
    certsDir: string, domain: string, now: Time, crypto: Crypto,
    files: map<string, seq<bv8>>, dirs: set<string>, failing: set<string>)
    requires ValidTime(now)
    requires LoadPair(files, CertPath(certsDir, domain), KeyPath(certsDir, domain), crypto).None?
    requires crypto.generateKey.Some?
    requires crypto.createCertificate(TemplateFor(domain, now), crypto.generateKey.value).Some?
    requires CertPath(certsDir, domain) !in failing && KeyPath(certsDir, domain) !in failing
    ensures var o := Ensure(certsDir, domain, now, crypto, files, dirs, failing, true);
      var der := crypto.createCertificate(TemplateFor(domain, now), crypto.generateKey.value).value;
      o.files == files[CertPath(certsDir, domain) := crypto.pemEncode("CERTIFICATE", der)]
                      [KeyPath(certsDir, domain) := crypto.pemEncode("RSA PRIVATE KEY", crypto.marshalKey(crypto.generateKey.value))]
      && certsDir in o.dirs
  {
  }

  /** A key file that cannot be created fails the call after the new certificate file is written. */
  lemma EnsureKeyFileFailureKeepsCert(
    certsDir: string, domain: string, now: Time, crypto: Crypto,
    files: map<string, seq<bv8>>, dirs: set<string>, failing: set<string>)
    requires ValidTime(now)
    requires LoadPair(files, CertPath(certsDir, domain), KeyPath(certsDir, domain), crypto).None?
    requires crypto.generateKey.Some?
    requires crypto.createCertificate(TemplateFor(domain, now), crypto.generateKey.value).Some?
    requires CertPath(certsDir, domain) !in failing && KeyPath(certsDir, domain) in failing
    ensures var o := Ensure(certsDir, domain, now, crypto, files, dirs, failing, true);
      var der := crypto.createCertificate(TemplateFor(domain, now), crypto.generateKey.value).value;
      o.result == Err("failed to create key file")
      && o.files == files[CertPath(certsDir, domain) := crypto.pemEncode("CERTIFICATE", der)]
      && o.dirs == dirs + {certsDir}
  {
  }

  /** The filesystem `EnsureCert` works on. */
  class FileSystem {
    var files: map<string, seq<bv8>>
    var dirs: set<string>
    /** Paths `os.Create` fails on. */
    const failing: set<string>
    /** Whether `os.MkdirAll` succeeds. */
    const mkdirOk: bool

    constructor (files: map<string, seq<bv8>>, dirs: set<string>, failing: set<string>, mkdirOk: bool)
      ensures this.files == files && this.dirs == dirs && this.failing == failing && this.mkdirOk == mkdirOk
    {
      this.files := files;
      this.dirs := dirs;
      this.failing := failing;
      this.mkdirOk := mkdirOk;
    }

    /** `os.Create` followed by writing `data`: the file is truncated and filled. */
    method Create(path: string, data: seq<bv8>) returns (ok: bool)
      modifies this
      ensures ok <==> path !in failing
      ensures files == if ok then old(files)[path := data] else old(files)
      ensures dirs == old(dirs)
    {
      if path in failing {
        return false;
      }
      files := files[path := data];
      ok := true;
    }

    /** `os.MkdirAll`. */
    method MkdirAll(dir: string) returns (ok: bool)
      modifies this
      ensures ok == mkdirOk
      ensures dirs == if ok then old(dirs) + {dir} else old(dirs)
      ensures files == old(files)
    {
      ok := mkdirOk;
      if ok {
        dirs := dirs + {dir};
      }
    }
  }

  class CertManager {
    const certsDir: string

    /** `New`. */
    constructor (certsDir: string)
      ensures this.certsDir == certsDir
    {
      this.certsDir := certsDir;
    }

    /** `EnsureCert`, step by step over the filesystem `fs`, at clock reading `now`. */
    method EnsureCert(domain: string, now: Time, crypto: Crypto, fs: FileSystem) returns (r: Result<TlsCert>)
      requires ValidTime(now)
      modifies fs
      ensures var o := Ensure(certsDir, domain, now, crypto, old(fs.files), old(fs.dirs), fs.failing, fs.mkdirOk);
        r == o.result && fs.files == o.files && fs.dirs == o.dirs
    {
      var certPath := CertPath(certsDir, domain);
      var keyPath := KeyPath(certsDir, domain);
      if certPath in fs.files {
        var existing := LoadPair(fs.files, certPath, keyPath, crypto);
        if existing.Some? {
          return Ok(existing.value);
        }
      }
      if crypto.generateKey.None? {
        return Err("failed to generate private key");
      }
      var key := crypto.generateKey.value;
      var template := TemplateFor(domain, now);
      var der := crypto.createCertificate(template, key);
      if der.None? {
        return Err("failed to create certificate");
      }
      var ok := fs.MkdirAll(certsDir);
      if !ok {
        return Err("failed to create certs directory");
      }
      ok := fs.Create(certPath, crypto.pemEncode("CERTIFICATE", der.value));
      if !ok {
        return Err("failed to create cert file");
      }
      ok := fs.Create(keyPath, crypto.pemEncode("RSA PRIVATE KEY", crypto.marshalKey(key)));
      if !ok {
        return Err("failed to create key file");
      }
      var loaded := LoadPair(fs.files, certPath, keyPath, crypto);
      if loaded.None? {
        return Err("failed to load generated cert");
      }
      r := Ok(loaded.value);
    }
  }
}
