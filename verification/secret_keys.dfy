/**
 * `SecretKeyConfig`: where the RSA key pair comes from and how the four key
 * fields are assigned.
 *
 * At start-up the pair is taken from the first usable source in the order
 * environment variables, external PEM files, static configuration; a reload
 * reads the external files only. The environment and the file system are maps,
 * and parsing a Base64 key is a partial function (`KeyCodec`).
 *
 * `populateKeys` assigns the two strings before it parses them, so a parse
 * failure leaves new strings beside stale key objects: the update is not atomic.
 */
module SecretKeys {
  import opened Common

  /** A parsed RSA private key (PKCS#8); its internals are not modelled. */
  datatype PrivateKey = PrivateKey(handle: string)
  /** A parsed RSA public key (X.509); its internals are not modelled. */
  datatype PublicKey = PublicKey(handle: string)

  datatype KeyParse<K> = ParsedKey(key: K) | KeyParseError(msg: string)

  /** `RsaUtil.getPrivateKey` and `RsaUtil.getPublicKey`, as partial functions. */
  datatype KeyCodec = KeyCodec(parsePrivate: string -> KeyParse<PrivateKey>,
                               parsePublic: string -> KeyParse<PublicKey>)

  /** The injected configuration properties. */
  datatype KeyConfig = KeyConfig(configPrivateKey: string, configPublicKey: string,
                                 keyFilePath: string, useExternalFile: bool)

  /** The four fields `populateKeys` assigns (null until the first assignment). */
  datatype KeyFields = KeyFields(privateKeyStr: Option<string>, publicKeyStr: Option<string>,
                                 privateKey: Option<PrivateKey>, publicKey: Option<PublicKey>)

  const NoKeys: KeyFields := KeyFields(None, None, None, None)

  const EnvPrivateKey: string := "SECRET_PRIVATE_KEY"
  const EnvPublicKey: string := "SECRET_PUBLIC_KEY"

  const LoadFailurePrefix: string := "密钥加载失败: "
  const NoSourceMessage: string := "❌ 无法加载RSA密钥对，请检查配置！"
  const ReloadFailurePrefix: string := "密钥热更新失败: "
  const ReloadDisabledMessage: string := "未启用外部文件模式，无法热更新"

  function PrivateKeyPath(cfg: KeyConfig): string { cfg.keyFilePath + "/private_key.pem" }
  function PublicKeyPath(cfg: KeyConfig): string { cfg.keyFilePath + "/public_key.pem" }

  /** `getMessage()` of the exceptions that reach the catch blocks of `init` and `reloadKeys`. */
  function MessageOf(f: Fault): string
  {
    match f
    case InnerCommon(m) => m
    case IOFailure(m) => m
    case _ => ""
  }

  /** The fields hold a pair whose key objects are the parses of the key strings. */
  predicate Consistent(f: KeyFields, codec: KeyCodec)
  {
    && f.privateKeyStr.Some? && f.publicKeyStr.Some?
    && codec.parsePrivate(f.privateKeyStr.value).ParsedKey?
    && codec.parsePublic(f.publicKeyStr.value).ParsedKey?
    && f.privateKey == Some(codec.parsePrivate(f.privateKeyStr.value).key)
    && f.publicKey == Some(codec.parsePublic(f.publicKeyStr.value).key)
  }

  /** `loadKeyFromFile(path)`: IOException for a missing file, otherwise its contents trimmed. */
  function LoadKeyFromFile(files: map<string, string>, path: string): (r: Outcome<string>)
    ensures r.Ok? <==> path in files
    ensures r.Ok? ==> r.value == Trim(files[path])
    ensures r.Thrown? ==> r.fault.IOFailure?
  {
    if path !in files then Thrown(IOFailure("密钥文件不存在: " + path))
    else Ok(Trim(files[path]))
  }

  /**
   * `populateKeys(priv, pub)`: both strings are assigned first, then the
   * private key is parsed and assigned, then the public key. The first parse
   * failure stops the sequence with InnerCommonException.
   */
  function Populate(f: KeyFields, priv: string, pub: string, codec: KeyCodec): (r: (KeyFields, Outcome<()>))
    ensures r.0.privateKeyStr == Some(priv) && r.0.publicKeyStr == Some(pub)
    ensures r.1.Ok? <==> codec.parsePrivate(priv).ParsedKey? && codec.parsePublic(pub).ParsedKey?
    ensures r.1.Ok? ==> Consistent(r.0, codec)
    ensures r.1.Thrown? ==> r.1.fault.InnerCommon?
    ensures codec.parsePrivate(priv).KeyParseError? ==> r.0.privateKey == f.privateKey && r.0.publicKey == f.publicKey
    ensures codec.parsePrivate(priv).ParsedKey? && codec.parsePublic(pub).KeyParseError?
            ==> r.0.privateKey == Some(codec.parsePrivate(priv).key) && r.0.publicKey == f.publicKey
  {
    var withStrings := f.(privateKeyStr := Some(priv), publicKeyStr := Some(pub));
    match codec.parsePrivate(priv)
    case KeyParseError(m) => (withStrings, Thrown(InnerCommon("私钥解析失败: " + m)))
    case ParsedKey(k) =>
      var withPrivate := withStrings.(privateKey := Some(k));
      match codec.parsePublic(pub)
      case KeyParseError(m) => (withPrivate, Thrown(InnerCommon("公钥解析失败: " + m)))
      case ParsedKey(q) => (withPrivate.(publicKey := Some(q)), Ok(()))
  }

  /** The outer `catch (Exception e)` of `init`: rethrow as InnerCommonException. */
  function InitFailure(f: KeyFields, fault: Fault): (KeyFields, Outcome<()>)
  {
    (f, Thrown(InnerCommon(LoadFailurePrefix + MessageOf(fault))))
  }

  /** Step 3 of `init`: the configured pair, used only when `configPrivateKey` is non-empty. */
  function InitFromConfig(f: KeyFields, cfg: KeyConfig, codec: KeyCodec): (r: (KeyFields, Outcome<()>))
    ensures cfg.configPrivateKey == "" ==> r == (f, Thrown(InnerCommon(LoadFailurePrefix + NoSourceMessage)))
    ensures cfg.configPrivateKey != "" ==>
              r.0.privateKeyStr == Some(cfg.configPrivateKey) && r.0.publicKeyStr == Some(cfg.configPublicKey)
    ensures r.1.Ok? <==> && cfg.configPrivateKey != ""
                         && codec.parsePrivate(cfg.configPrivateKey).ParsedKey?
                         && codec.parsePublic(cfg.configPublicKey).ParsedKey?
    ensures r.1.Ok? ==> Consistent(r.0, codec)
    ensures r.1.Thrown? ==> r.1.fault.InnerCommon? && StartsWith(r.1.fault.msg, LoadFailurePrefix)
  {
    if cfg.configPrivateKey != "" then
      var (f', o) := Populate(f, cfg.configPrivateKey, cfg.configPublicKey, codec);
      if o.Ok? then (f', o) else InitFailure(f', o.fault)
    else
      InitFailure(f, InnerCommon(NoSourceMessage))
  }

  /** `init()`: the new fields and whether start-up succeeded. */
  function Initialize(f: KeyFields, cfg: KeyConfig, env: map<string, string>, files: map<string, string>,
                codec: KeyCodec): (r: (KeyFields, Outcome<()>))
    ensures r.1.Thrown? ==> r.1.fault.InnerCommon? && StartsWith(r.1.fault.msg, LoadFailurePrefix)
    ensures r.1.Ok? ==> Consistent(r.0, codec)
    // step 1: the environment pair is installed, whether or not it parses
    ensures EnvPrivateKey in env && EnvPublicKey in env ==>
              && r.0.privateKeyStr == Some(env[EnvPrivateKey]) && r.0.publicKeyStr == Some(env[EnvPublicKey])
              && (r.1.Ok? <==> codec.parsePrivate(env[EnvPrivateKey]).ParsedKey?
                               && codec.parsePublic(env[EnvPublicKey]).ParsedKey?)
    // step 2: two readable files whose keys parse install the trimmed file contents
    ensures && !(EnvPrivateKey in env && EnvPublicKey in env) && cfg.useExternalFile
            && PrivateKeyPath(cfg) in files && PublicKeyPath(cfg) in files
            && codec.parsePrivate(Trim(files[PrivateKeyPath(cfg)])).ParsedKey?
            && codec.parsePublic(Trim(files[PublicKeyPath(cfg)])).ParsedKey?
            ==> && r.1.Ok?
                && r.0.privateKeyStr == Some(Trim(files[PrivateKeyPath(cfg)]))
                && r.0.publicKeyStr == Some(Trim(files[PublicKeyPath(cfg)]))
    // step 3: otherwise a non-empty configured private key installs the configured pair
    ensures && !(EnvPrivateKey in env && EnvPublicKey in env)
            && !(&& cfg.useExternalFile && PrivateKeyPath(cfg) in files && PublicKeyPath(cfg) in files
                 && codec.parsePrivate(Trim(files[PrivateKeyPath(cfg)])).ParsedKey?
                 && codec.parsePublic(Trim(files[PublicKeyPath(cfg)])).ParsedKey?)
            && cfg.configPrivateKey != ""
            ==> && r.0.privateKeyStr == Some(cfg.configPrivateKey) && r.0.publicKeyStr == Some(cfg.configPublicKey)
                && (r.1.Ok? <==> codec.parsePrivate(cfg.configPrivateKey).ParsedKey?
                                 && codec.parsePublic(cfg.configPublicKey).ParsedKey?)
  {
    if EnvPrivateKey in env && EnvPublicKey in env then
      var (f', o) := Populate(f, env[EnvPrivateKey], env[EnvPublicKey], codec);
      if o.Ok? then (f', o) else InitFailure(f', o.fault)
    else if cfg.useExternalFile then
      var priv := LoadKeyFromFile(files, PrivateKeyPath(cfg));
      var pub := LoadKeyFromFile(files, PublicKeyPath(cfg));
      if priv.Thrown? || pub.Thrown? then InitFromConfig(f, cfg, codec)
      else
        var (f', o) := Populate(f, priv.value, pub.value, codec);
        if o.Ok? then (f', o) else InitFromConfig(f', cfg, codec)
    else
      InitFromConfig(f, cfg, codec)
  }

  /** `reloadKeys()`: re-read the two files when external files are enabled. */
  function Reload(f: KeyFields, cfg: KeyConfig, files: map<string, string>, codec: KeyCodec): (r: (KeyFields, Outcome<()>))
    ensures !cfg.useExternalFile ==> r == (f, Thrown(InnerCommon(ReloadDisabledMessage)))
    ensures r.1.Ok? ==> Consistent(r.0, codec)
    ensures r.1.Thrown? ==> r.1.fault.InnerCommon?
    ensures cfg.useExternalFile && (PrivateKeyPath(cfg) !in files || PublicKeyPath(cfg) !in files)
            ==> r.0 == f && r.1.Thrown? && StartsWith(r.1.fault.msg, ReloadFailurePrefix)
    ensures cfg.useExternalFile && PrivateKeyPath(cfg) in files && PublicKeyPath(cfg) in files ==>
              && r.0.privateKeyStr == Some(Trim(files[PrivateKeyPath(cfg)]))
              && r.0.publicKeyStr == Some(Trim(files[PublicKeyPath(cfg)]))
              && (r.1.Ok? <==> codec.parsePrivate(Trim(files[PrivateKeyPath(cfg)])).ParsedKey?
                               && codec.parsePublic(Trim(files[PublicKeyPath(cfg)])).ParsedKey?)
  {
    if !cfg.useExternalFile then (f, Thrown(InnerCommon(ReloadDisabledMessage)))
    else
      var priv := LoadKeyFromFile(files, PrivateKeyPath(cfg));
      if priv.Thrown? then (f, Thrown(InnerCommon(ReloadFailurePrefix + MessageOf(priv.fault))))
      else
        var pub := LoadKeyFromFile(files, PublicKeyPath(cfg));
        if pub.Thrown? then (f, Thrown(InnerCommon(ReloadFailurePrefix + MessageOf(pub.fault))))
        else
          var (f', o) := Populate(f, priv.value, pub.value, codec);
          if o.Ok? then (f', o) else (f', Thrown(InnerCommon(ReloadFailurePrefix + MessageOf(o.fault))))
  }

  /** With both environment variables set, neither the files nor the configuration matter. */
  lemma EnvironmentTakesPrecedence(f: KeyFields, cfg1: KeyConfig, cfg2: KeyConfig, env: map<string, string>,
                                   files1: map<string, string>, files2: map<string, string>, codec: KeyCodec)
    requires EnvPrivateKey in env && EnvPublicKey in env
    ensures Initialize(f, cfg1, env, files1, codec) == Initialize(f, cfg2, env, files2, codec)
    ensures Initialize(f, cfg1, env, files1, codec).1.Ok?
            <==> Populate(f, env[EnvPrivateKey], env[EnvPublicKey], codec).1.Ok?
  {
  }

  /** With only one of the two variables set, the environment is ignored altogether. */
  lemma HalfEnvironmentIgnored(f: KeyFields, cfg: KeyConfig, env: map<string, string>,
                               files: map<string, string>, codec: KeyCodec)
    requires !(EnvPrivateKey in env && EnvPublicKey in env)
    ensures Initialize(f, cfg, env, files, codec) == Initialize(f, cfg, map[], files, codec)
  {
  }

  /** The key files are consulted only when external files are enabled. */
  lemma FilesOnlyWhenEnabled(f: KeyFields, cfg: KeyConfig, env: map<string, string>,
                             files1: map<string, string>, files2: map<string, string>, codec: KeyCodec)
    requires !cfg.useExternalFile
    ensures Initialize(f, cfg, env, files1, codec) == Initialize(f, cfg, env, files2, codec)
  {
  }

  /** A missing key file falls through to the configured pair, on the untouched fields. */
  lemma FileFailureFallsBackToConfig(f: KeyFields, cfg: KeyConfig, env: map<string, string>,
                                     files: map<string, string>, codec: KeyCodec)
    requires !(EnvPrivateKey in env && EnvPublicKey in env)
    requires cfg.useExternalFile
    requires PrivateKeyPath(cfg) !in files || PublicKeyPath(cfg) !in files
    ensures Initialize(f, cfg, env, files, codec) == InitFromConfig(f, cfg, codec)
  {
  }

  /**
   * Two readable key files whose keys do not both parse also fall through to
   * the configured pair, but on the fields `populateKeys` has already changed:
   * the file strings (and possibly the file private key) are in place when the
   * configuration is consulted.
   */
  lemma BadFileKeyFallsBackToConfig(f: KeyFields, cfg: KeyConfig, env: map<string, string>,
                                    files: map<string, string>, codec: KeyCodec)
    requires !(EnvPrivateKey in env && EnvPublicKey in env)
    requires cfg.useExternalFile && PrivateKeyPath(cfg) in files && PublicKeyPath(cfg) in files
    requires !(codec.parsePrivate(Trim(files[PrivateKeyPath(cfg)])).ParsedKey?
               && codec.parsePublic(Trim(files[PublicKeyPath(cfg)])).ParsedKey?)
    ensures var torn := Populate(f, Trim(files[PrivateKeyPath(cfg)]), Trim(files[PublicKeyPath(cfg)]), codec).0;
            Initialize(f, cfg, env, files, codec) == InitFromConfig(torn, cfg, codec)
    ensures cfg.configPrivateKey == "" ==>
              Initialize(f, cfg, env, files, codec).0.privateKeyStr == Some(Trim(files[PrivateKeyPath(cfg)]))
  {
  }

  /** With no usable source at all, start-up fails. */
  lemma NoSourceIsFatal(f: KeyFields, cfg: KeyConfig, env: map<string, string>,
                        files: map<string, string>, codec: KeyCodec)
    requires !(EnvPrivateKey in env && EnvPublicKey in env)
    requires !cfg.useExternalFile || PrivateKeyPath(cfg) !in files || PublicKeyPath(cfg) !in files
    requires cfg.configPrivateKey == ""
    ensures Initialize(f, cfg, env, files, codec).1 == Thrown(InnerCommon(LoadFailurePrefix + NoSourceMessage))
  {
  }

  /** A reload never looks at the environment or at the configured pair. */
  lemma ReloadReadsFilesOnly(f: KeyFields, cfg: KeyConfig, priv: string, pub: string,
                             files: map<string, string>, codec: KeyCodec)
    ensures Reload(f, cfg, files, codec)
            == Reload(f, cfg.(configPrivateKey := priv, configPublicKey := pub), files, codec)
  {
  }

  /**
   * The update is not atomic: a reload whose private key parses but whose
   * public key does not fails, yet it leaves both new strings and the new
   * private key in place beside the old public key object.
   */
  lemma FailedReloadTearsKeyPair(f: KeyFields, cfg: KeyConfig, files: map<string, string>, codec: KeyCodec)
    requires cfg.useExternalFile && PrivateKeyPath(cfg) in files && PublicKeyPath(cfg) in files
    requires codec.parsePrivate(Trim(files[PrivateKeyPath(cfg)])).ParsedKey?
    requires codec.parsePublic(Trim(files[PublicKeyPath(cfg)])).KeyParseError?
    ensures var priv, pub := Trim(files[PrivateKeyPath(cfg)]), Trim(files[PublicKeyPath(cfg)]);
            var r := Reload(f, cfg, files, codec);
            && r.1.Thrown?
            && r.0 == KeyFields(Some(priv), Some(pub), Some(codec.parsePrivate(priv).key), f.publicKey)
            && !Consistent(r.0, codec)
  {
  }

  /** The configuration bean: injected settings plus the four key fields. */
  class SecretKeyConfig {
    const config: KeyConfig
    var privateKeyStr: Option<string>
    var publicKeyStr: Option<string>
    var privateKey: Option<PrivateKey>
    var publicKey: Option<PublicKey>

    function Fields(): KeyFields
      reads this
    {
      KeyFields(privateKeyStr, publicKeyStr, privateKey, publicKey)
    }

    constructor (config: KeyConfig)
      ensures this.config == config && Fields() == NoKeys
    {
      this.config := config;
      privateKeyStr, publicKeyStr, privateKey, publicKey := None, None, None, None;
    }

    method PopulateKeys(priv: string, pub: string, codec: KeyCodec) returns (r: Outcome<()>)
      modifies this
      ensures (Fields(), r) == Populate(old(Fields()), priv, pub, codec)
    {
      privateKeyStr := Some(priv);
      publicKeyStr := Some(pub);
      match codec.parsePrivate(priv)
      case KeyParseError(m) => return Thrown(InnerCommon("私钥解析失败: " + m));
      case ParsedKey(k) => privateKey := Some(k);
      match codec.parsePublic(pub)
      case KeyParseError(m) => return Thrown(InnerCommon("公钥解析失败: " + m));
      case ParsedKey(q) => publicKey := Some(q);
      r := Ok(());
    }

    /** `init()`, run once after injection; a thrown outcome aborts start-up. */
    method Init(env: map<string, string>, files: map<string, string>, codec: KeyCodec) returns (r: Outcome<()>)
      modifies this
      ensures (Fields(), r) == Initialize(old(Fields()), config, env, files, codec)
    {
      if EnvPrivateKey in env && EnvPublicKey in env {
        r := PopulateKeys(env[EnvPrivateKey], env[EnvPublicKey], codec);
        if r.Thrown? {
          r := Thrown(InnerCommon(LoadFailurePrefix + MessageOf(r.fault)));
        }
        return;
      }
      if config.useExternalFile {
        var priv := LoadKeyFromFile(files, PrivateKeyPath(config));
        var pub := LoadKeyFromFile(files, PublicKeyPath(config));
        if priv.Ok? && pub.Ok? {
          r := PopulateKeys(priv.value, pub.value, codec);
          if r.Ok? {
            return;
          }
        }
      }
      if config.configPrivateKey != "" {
        r := PopulateKeys(config.configPrivateKey, config.configPublicKey, codec);
        if r.Thrown? {
          r := Thrown(InnerCommon(LoadFailurePrefix + MessageOf(r.fault)));
        }
        return;
      }
      r := Thrown(InnerCommon(LoadFailurePrefix + NoSourceMessage));
    }

    method ReloadKeys(files: map<string, string>, codec: KeyCodec) returns (r: Outcome<()>)
      modifies this
      ensures (Fields(), r) == Reload(old(Fields()), config, files, codec)
    {
      if !config.useExternalFile {
        return Thrown(InnerCommon(ReloadDisabledMessage));
      }
      var priv := LoadKeyFromFile(files, PrivateKeyPath(config));
      if priv.Thrown? {
        return Thrown(InnerCommon(ReloadFailurePrefix + MessageOf(priv.fault)));
      }
      var pub := LoadKeyFromFile(files, PublicKeyPath(config));
      if pub.Thrown? {
        return Thrown(InnerCommon(ReloadFailurePrefix + MessageOf(pub.fault)));
      }
      r := PopulateKeys(priv.value, pub.value, codec);
      if r.Thrown? {
        r := Thrown(InnerCommon(ReloadFailurePrefix + MessageOf(r.fault)));
      }
    }
  }
}
