/**
 * The exporter settings that `otelProvider.init(conf)` builds before it hands
 * them to the trace exporter: the header object, the collector URL and the
 * timeout.
 */
module Otel {
  import opened Wrappers
  import opened JsObject
  import Base64

  const DefaultUrl: string := "http://localhost:5080/api/default/v1/traces"
  const DefaultStreamName: string := "default"
  const DefaultTimeoutMillis: int := 10000
  const StreamNameHeader: string := "stream-name"
  const AuthorizationHeader: string := "Authorization"

  /**
   * The `conf` argument. A field that is absent (`undefined`) is `None`;
   * `headers` is an object of string-valued properties, `timeout` a whole
   * number of milliseconds.
   */
  datatype Config = Config(
    url: Option<string>,
    streamName: Option<string>,
    username: Option<string>,
    password: Option<string>,
    headers: Option<Object>,
    timeout: Option<int>)

  /** The settings passed to the exporter. */
  datatype CollectorOptions = CollectorOptions(url: string, headers: seq<Prop>, timeout: int)

  /** What `init` catches instead of building an exporter. */
  type InitError = Base64.DomException

  /** JavaScript truthiness of a string field: present and not empty. */
  predicate Truthy(s: Option<string>)
  {
    s.Some? && s.value != ""
  }

  /** `a || b` on a string field. */
  function OrElse(s: Option<string>, default: string): string
  {
    if Truthy(s) then s.value else default
  }

  /** `conf && conf.username && conf.password` */
  predicate HasCredentials(conf: Option<Config>)
  {
    conf.Some? && Truthy(conf.value.username) && Truthy(conf.value.password)
  }

  /** The template `${conf.username}:${conf.password}`. */
  function Credentials(conf: Option<Config>): string
    requires HasCredentials(conf)
  {
    conf.value.username.value + ":" + conf.value.password.value
  }

  /** `conf && conf.headers`: the caller's headers, if any. */
  function CustomHeaders(conf: Option<Config>): Object
  {
    if conf.Some? && conf.value.headers.Some? then conf.value.headers.value else []
  }

  /** `conf?.streamName || 'default'` */
  function StreamNameOf(conf: Option<Config>): string
  {
    OrElse(if conf.Some? then conf.value.streamName else None, DefaultStreamName)
  }

  /** `conf?.url || 'http://localhost:5080/api/default/v1/traces'` */
  function UrlOf(conf: Option<Config>): string
  {
    OrElse(if conf.Some? then conf.value.url else None, DefaultUrl)
  }

  /** `conf?.timeout || 10000`: a timeout of 0 is falsy too. */
  function TimeoutOf(conf: Option<Config>): int
  {
    if conf.Some? && conf.value.timeout.Some? && conf.value.timeout.value != 0 then conf.value.timeout.value
    else DefaultTimeoutMillis
  }

  /**
   * The collector options as a function of `conf`, or the error that `btoa`
   * throws on credentials outside Latin-1 (which `init` then catches).
   */
  function CollectorOptionsOf(conf: Option<Config>): Result<CollectorOptions, InitError>
  {
    var withStream := SetProp([], StreamNameHeader, StreamNameOf(conf));
    var encoded := if HasCredentials(conf) then Base64.Btoa(Credentials(conf)) else Success("");
    if encoded.Failure? then Failure(encoded.error)
    else
      var withAuth := if HasCredentials(conf) then SetProp(withStream, AuthorizationHeader, "Basic " + encoded.value) else withStream;
      var headers := if conf.Some? && conf.value.headers.Some? then AssignAll(withAuth, conf.value.headers.value) else withAuth;
      Success(CollectorOptions(UrlOf(conf), headers, TimeoutOf(conf)))
  }

  /**
   * `otelProvider.init(conf)`, up to the construction of the exporter: the
   * header object is filled in place, then the URL and the timeout are
   * resolved. A `btoa` error ends it with `Failure`, as the `catch` does.
   */
  method Init(conf: Option<Config>) returns (r: Result<CollectorOptions, InitError>)
    ensures r == CollectorOptionsOf(conf)
    ensures r.Success? ==> DistinctKeys(r.value.headers)
  {
    var headers := new Dict();
    headers.Put(StreamNameHeader, StreamNameOf(conf));
    if HasCredentials(conf) {
      var credentials := Base64.Btoa(Credentials(conf));
      if credentials.Failure? {
        return Failure(credentials.error);
      }
      headers.Put(AuthorizationHeader, "Basic " + credentials.value);
    }
    if conf.Some? && conf.value.headers.Some? {
      headers.Assign(conf.value.headers.value);
    }
    r := Success(CollectorOptions(UrlOf(conf), headers.props, TimeoutOf(conf)));
  }

  /** The value of `Authorization` that `init` computes: `Basic ` and the base-64 Latin-1 code of `username:password`. */
  function BasicAuthorization(conf: Option<Config>): string
    requires HasCredentials(conf) && Base64.IsLatin1(Credentials(conf))
  {
    "Basic " + Base64.Encode(Base64.Latin1(Credentials(conf)))
  }

  /**
   * Two configurations whose `Authorization` values agree carry the same
   * `username:password`: no two different credential strings share a header.
   */
  lemma AuthorizationIdentifiesCredentials(c1: Option<Config>, c2: Option<Config>)
    requires HasCredentials(c1) && Base64.IsLatin1(Credentials(c1))
    requires HasCredentials(c2) && Base64.IsLatin1(Credentials(c2))
    requires BasicAuthorization(c1) == BasicAuthorization(c2)
    ensures Credentials(c1) == Credentials(c2)
  {
    var e1, e2 := Base64.Btoa(Credentials(c1)), Base64.Btoa(Credentials(c2));
    assert BasicAuthorization(c1)[6..] == e1.value;
    assert BasicAuthorization(c2)[6..] == e2.value;
    Base64.BtoaInjective(Credentials(c1), Credentials(c2));
  }

  /**
   * The reference reading of the header object, key by key: the caller's
   * header wins, except `__proto__`, which never becomes a header; otherwise
   * `stream-name` is always there and `Authorization` is there exactly when
   * both credentials are given; nothing else is.
   */
  function ExpectedHeader(conf: Option<Config>, k: string): Option<string>
    requires HasCredentials(conf) ==> Base64.IsLatin1(Credentials(conf))
  {
    if k in Keys(CustomHeaders(conf)) && k != ProtoKey then Get(CustomHeaders(conf), k)
    else if k == StreamNameHeader then Some(StreamNameOf(conf))
    else if k == AuthorizationHeader && HasCredentials(conf) then Some(BasicAuthorization(conf))
    else None
  }

  /** `init` fails exactly when both credentials are given and one of them is not Latin-1. */
  lemma InitFailsOnlyOnNonLatin1(conf: Option<Config>)
    ensures CollectorOptionsOf(conf).Failure? <==> HasCredentials(conf) && !Base64.IsLatin1(Credentials(conf))
    ensures CollectorOptionsOf(conf).Failure? ==> CollectorOptionsOf(conf).error == Base64.InvalidCharacterError
  {
  }

  /** Every header reads as `ExpectedHeader` says. */
  lemma {:induction false} HeadersAsExpected(conf: Option<Config>, k: string)
    requires CollectorOptionsOf(conf).Success?
    ensures HasCredentials(conf) ==> Base64.IsLatin1(Credentials(conf))
    ensures Get(CollectorOptionsOf(conf).value.headers, k) == ExpectedHeader(conf, k)
  {
    var withStream := SetProp([], StreamNameHeader, StreamNameOf(conf));
    GetSetProp([], StreamNameHeader, StreamNameOf(conf), k);
    var withAuth := withStream;
    if HasCredentials(conf) {
      withAuth := SetProp(withStream, AuthorizationHeader, BasicAuthorization(conf));
      GetSetProp(withStream, AuthorizationHeader, BasicAuthorization(conf), k);
    }
    GetAssignAll(withAuth, CustomHeaders(conf), k);
    assert AssignAll(withAuth, []) == withAuth;
  }

  /** `stream-name` is the truthy `conf.streamName`, else `default`, unless the caller's headers set it. */
  lemma StreamNameHeaderValue(conf: Option<Config>)
    requires CollectorOptionsOf(conf).Success?
    ensures var v := Get(CollectorOptionsOf(conf).value.headers, StreamNameHeader);
      if StreamNameHeader in Keys(CustomHeaders(conf)) then v == Get(CustomHeaders(conf), StreamNameHeader)
      else if conf.Some? && Truthy(conf.value.streamName) then v == conf.value.streamName
      else v == Some(DefaultStreamName)
  {
    HeadersAsExpected(conf, StreamNameHeader);
  }

  /**
   * Unless the caller's headers set it, `Authorization` is present exactly
   * when both credentials are given, and it then carries them: decoding what
   * follows `Basic ` gives back the Latin-1 code of `username:password`.
   */
  lemma AuthorizationHeaderValue(conf: Option<Config>)
    requires CollectorOptionsOf(conf).Success?
    requires AuthorizationHeader !in Keys(CustomHeaders(conf))
    ensures var v := Get(CollectorOptionsOf(conf).value.headers, AuthorizationHeader);
      && (v.Some? <==> HasCredentials(conf))
      && (v.Some? ==> |v.value| >= 6 && v.value[..6] == "Basic "
                      && Base64.Decode(v.value[6..]) == Some(Base64.Latin1(Credentials(conf))))
  {
    HeadersAsExpected(conf, AuthorizationHeader);
    if HasCredentials(conf) {
      var v := BasicAuthorization(conf);
      Base64.DecodeEncode(Base64.Latin1(Credentials(conf)));
      assert v[6..] == Base64.Encode(Base64.Latin1(Credentials(conf)));
    }
  }

  /**
   * The caller's headers win on every key they name, `stream-name` and
   * `Authorization` included; a caller's `__proto__` is dropped.
   */
  lemma CustomHeadersWin(conf: Option<Config>, k: string)
    requires CollectorOptionsOf(conf).Success?
    requires k in Keys(CustomHeaders(conf))
    ensures k != ProtoKey ==> Get(CollectorOptionsOf(conf).value.headers, k) == Get(CustomHeaders(conf), k)
    ensures k == ProtoKey ==> Get(CollectorOptionsOf(conf).value.headers, k) == None
  {
    HeadersAsExpected(conf, k);
  }

  /**
   * The header keys are `stream-name`, then `Authorization` when both
   * credentials are given, then the caller's new keys other than
   * `__proto__`: no key twice and no other key.
   */
  lemma {:induction false} HeaderKeys(conf: Option<Config>)
    requires CollectorOptionsOf(conf).Success?
    ensures var ks := Keys(CollectorOptionsOf(conf).value.headers);
      && DistinctKeys(CollectorOptionsOf(conf).value.headers)
      && |ks| > 0 && ks[0] == StreamNameHeader
      && (HasCredentials(conf) ==> |ks| > 1 && ks[1] == AuthorizationHeader)
      && ProtoKey !in ks
      && forall k :: k in ks <==> k == StreamNameHeader || (k == AuthorizationHeader && HasCredentials(conf))
                                  || (k in Keys(CustomHeaders(conf)) && k != ProtoKey)
  {
    var withStream := SetProp([], StreamNameHeader, StreamNameOf(conf));
    var withAuth := withStream;
    assert Keys(withStream) == [StreamNameHeader];
    if HasCredentials(conf) {
      withAuth := SetProp(withStream, AuthorizationHeader, BasicAuthorization(conf));
      KeysSetProp(withStream, AuthorizationHeader, BasicAuthorization(conf));
      assert Keys(withAuth) == [StreamNameHeader, AuthorizationHeader];
    }
    KeysAssignAll(withAuth, CustomHeaders(conf));
    assert AssignAll(withAuth, []) == withAuth;
    assert CollectorOptionsOf(conf).value.headers == AssignAll(withAuth, CustomHeaders(conf));
  }

  /** Without caller headers, the header keys are `stream-name` and, with credentials, `Authorization`. */
  lemma HeaderKeysWithoutCustom(conf: Option<Config>)
    requires CollectorOptionsOf(conf).Success?
    requires CustomHeaders(conf) == []
    ensures Keys(CollectorOptionsOf(conf).value.headers)
      == if HasCredentials(conf) then [StreamNameHeader, AuthorizationHeader] else [StreamNameHeader]
  {
    var withStream := [Prop(StreamNameHeader, StreamNameOf(conf))];
    var h := CollectorOptionsOf(conf).value.headers;
    assert AssignAll(withStream, []) == withStream;
    if HasCredentials(conf) {
      var withAuth := [Prop(StreamNameHeader, StreamNameOf(conf)), Prop(AuthorizationHeader, BasicAuthorization(conf))];
      assert AssignAll(withAuth, []) == withAuth;
      assert Base64.Btoa(Credentials(conf)) == Success(Base64.Encode(Base64.Latin1(Credentials(conf))));
      assert withStream[1..] == [];
      assert SetOwn(withStream, AuthorizationHeader, BasicAuthorization(conf)) == withAuth;
      assert h == withAuth;
    } else {
      assert h == withStream;
    }
  }

  /** `url` is the truthy `conf.url`, else the default collector endpoint. */
  lemma UrlResolution(conf: Option<Config>)
    requires CollectorOptionsOf(conf).Success?
    ensures var url := CollectorOptionsOf(conf).value.url;
      && (conf.Some? && Truthy(conf.value.url) ==> url == conf.value.url.value)
      && (!(conf.Some? && Truthy(conf.value.url)) ==> url == DefaultUrl)
      && url != ""
  {
  }

  /** `timeout` is a non-zero `conf.timeout`, else 10000: an absent timeout and a timeout of 0 both give 10000. */
  lemma TimeoutResolution(conf: Option<Config>)
    requires CollectorOptionsOf(conf).Success?
    ensures var t := CollectorOptionsOf(conf).value.timeout;
      && t != 0
      && (conf.Some? && conf.value.timeout.Some? && conf.value.timeout.value != 0 ==> t == conf.value.timeout.value)
      && (conf.Some? && conf.value.timeout == Some(0) ==> t == DefaultTimeoutMillis)
      && (!(conf.Some? && conf.value.timeout.Some? && conf.value.timeout.value != 0) ==> t == DefaultTimeoutMillis)
  {
  }

  /** With `conf` null or undefined, only the defaults remain. */
  lemma NoConfig()
    ensures CollectorOptionsOf(None) == Success(CollectorOptions(DefaultUrl, [Prop(StreamNameHeader, DefaultStreamName)], DefaultTimeoutMillis))
  {
  }
}
