/**
 * `window.initializeOtel`: the configuration the page derives from its four
 * input fields and hands to `otelProvider.init`, and what the page reports
 * afterwards.
 */
module App {
  import opened Wrappers
  import opened JsObject
  import opened JsText
  import Base64
  import Otel

  /** The literal fallbacks the page itself uses, independent of those in `init`. */
  const DefaultCollectorUrl: string := "http://localhost:5080/api/default/v1/traces"
  const DefaultStreamName: string := "default"

  /** The `value` of each input field; a DOM input value is always a string. */
  datatype Form = Form(username: string, password: string, collectorUrl: string, streamName: string)

  /** `field.trim() || fallback` */
  function TrimOr(field: string, fallback: string): string
  {
    var t := Trim(field);
    if t != "" then t else fallback
  }

  /** The `config` object, as a function of the form. */
  function ConfigOf(form: Form): Otel.Config
  {
    var username := Trim(form.username);
    var password := form.password;
    var config := Otel.Config(
      Some(TrimOr(form.collectorUrl, DefaultCollectorUrl)),
      Some(TrimOr(form.streamName, DefaultStreamName)),
      None, None, None, None);
    if username != "" && password != "" then
      config.(username := Some(username), password := Some(password))
    else config
  }

  /**
   * `window.initializeOtel()`: reads and normalises the fields, builds
   * `config`, adds the credentials only when both are non-empty, and calls
   * `init` with it.
   */
  method InitializeOtel(form: Form) returns (config: Otel.Config, options: Result<Otel.CollectorOptions, Otel.InitError>)
    ensures config == ConfigOf(form)
    ensures options == Otel.CollectorOptionsOf(Some(config))
  {
    var username := Trim(form.username);
    var password := form.password;
    var url := TrimOr(form.collectorUrl, DefaultCollectorUrl);
    var streamName := TrimOr(form.streamName, DefaultStreamName);
    config := Otel.Config(Some(url), Some(streamName), None, None, None, None);
    if username != "" && password != "" {
      config := config.(username := Some(username));
      config := config.(password := Some(password));
    }
    options := Otel.Init(Some(config));
  }

  /**
   * The URL is the collector-URL field without its surrounding white space,
   * or the default endpoint when the field is blank; either way it is a
   * non-empty string with no white space at its ends.
   */
  lemma ConfigUrl(form: Form)
    ensures var url := ConfigOf(form).url;
      && url.Some? && url.value != ""
      && (IsBlank(form.collectorUrl) ==> url.value == DefaultCollectorUrl)
      && (!IsBlank(form.collectorUrl) ==> url.value == Trim(form.collectorUrl))
      && (!IsBlank(form.collectorUrl) ==> !IsWhiteSpace(url.value[0]) && !IsWhiteSpace(url.value[|url.value| - 1]))
  {
    TrimEmptyIffBlank(form.collectorUrl);
    TrimEnds(form.collectorUrl);
  }

  /** The stream name is the trimmed field, or `default` when the field is blank. */
  lemma ConfigStreamName(form: Form)
    ensures var sn := ConfigOf(form).streamName;
      && sn.Some? && sn.value != ""
      && (IsBlank(form.streamName) ==> sn.value == DefaultStreamName)
      && (!IsBlank(form.streamName) ==> sn.value == Trim(form.streamName))
  {
    TrimEmptyIffBlank(form.streamName);
  }

  /**
   * The credentials go into the config exactly when the username is not
   * blank and the password is not empty: the username trimmed, the password
   * as typed, so a password of spaces counts. The config never carries
   * custom headers or a timeout.
   */
  lemma ConfigCredentials(form: Form)
    ensures var c := ConfigOf(form);
      && (c.username.Some? <==> !IsBlank(form.username) && form.password != "")
      && c.password.Some? == c.username.Some?
      && (c.username.Some? ==> c.username.value == Trim(form.username) && c.password.value == form.password)
      && c.headers.None? && c.timeout.None?
  {
    TrimEmptyIffBlank(form.username);
  }

  /**
   * A password of white space only, with a username, is not trimmed away:
   * it is sent as it is, and `init` counts it as given.
   */
  lemma BlankPasswordCounts(form: Form)
    requires !IsBlank(form.username) && form.password != "" && IsBlank(form.password)
    ensures ConfigOf(form).username == Some(Trim(form.username))
    ensures ConfigOf(form).password == Some(form.password)
    ensures Otel.HasCredentials(Some(ConfigOf(form)))
  {
    ConfigCredentials(form);
  }

  /**
   * On the page's path the fallbacks of `init` for the URL and the stream
   * name never apply, since the page always passes non-empty values.
   */
  lemma InitFallbacksUnused(form: Form)
    ensures Otel.Truthy(ConfigOf(form).url) && Otel.Truthy(ConfigOf(form).streamName)
    ensures Otel.UrlOf(Some(ConfigOf(form))) == ConfigOf(form).url.value
    ensures Otel.StreamNameOf(Some(ConfigOf(form))) == ConfigOf(form).streamName.value
  {
    ConfigUrl(form);
    ConfigStreamName(form);
  }

  /** On the page's path, `init` sees credentials exactly when the form gives both. */
  lemma PageCredentials(form: Form)
    ensures Otel.HasCredentials(Some(ConfigOf(form))) <==> !IsBlank(form.username) && form.password != ""
    ensures Otel.HasCredentials(Some(ConfigOf(form))) ==>
      Otel.Credentials(Some(ConfigOf(form))) == Trim(form.username) + ":" + form.password
    ensures Otel.CustomHeaders(Some(ConfigOf(form))) == []
  {
    ConfigCredentials(form);
  }

  /** On the page's path, `init` fails only on credentials outside Latin-1. */
  lemma PageFailure(form: Form)
    ensures Otel.CollectorOptionsOf(Some(ConfigOf(form))).Failure?
      <==> !IsBlank(form.username) && form.password != "" && !Base64.IsLatin1(Trim(form.username) + ":" + form.password)
  {
    PageCredentials(form);
    Otel.InitFailsOnlyOnNonLatin1(Some(ConfigOf(form)));
  }

  /**
   * On the page's path the timeout is always 10000, with no custom headers,
   * and the URL is the normalised collector-URL field.
   */
  lemma PageUrlAndTimeout(form: Form)
    requires Otel.CollectorOptionsOf(Some(ConfigOf(form))).Success?
    ensures var r := Otel.CollectorOptionsOf(Some(ConfigOf(form))).value;
      && r.timeout == Otel.DefaultTimeoutMillis
      && r.url == TrimOr(form.collectorUrl, DefaultCollectorUrl)
  {
    InitFallbacksUnused(form);
  }

  /**
   * On the page's path the header keys are `stream-name`, followed by
   * `Authorization` exactly when the trimmed username and the raw password
   * are both non-empty, and nothing else.
   */
  lemma PageHeaderKeys(form: Form)
    requires Otel.CollectorOptionsOf(Some(ConfigOf(form))).Success?
    ensures Keys(Otel.CollectorOptionsOf(Some(ConfigOf(form))).value.headers)
      == if !IsBlank(form.username) && form.password != ""
         then [Otel.StreamNameHeader, Otel.AuthorizationHeader]
         else [Otel.StreamNameHeader]
  {
    PageCredentials(form);
    Otel.HeaderKeysWithoutCustom(Some(ConfigOf(form)));
  }

  /**
   * On the page's path `stream-name` is the normalised stream-name field, and
   * `Authorization`, when there are credentials, is `Basic ` and the base-64
   * Latin-1 code of the trimmed username, a colon and the raw password.
   */
  lemma PageHeaderValues(form: Form)
    requires Otel.CollectorOptionsOf(Some(ConfigOf(form))).Success?
    ensures var h := Otel.CollectorOptionsOf(Some(ConfigOf(form))).value.headers;
      && Get(h, Otel.StreamNameHeader) == Some(TrimOr(form.streamName, DefaultStreamName))
      && (!IsBlank(form.username) && form.password != "" ==>
            Base64.IsLatin1(Trim(form.username) + ":" + form.password)
            && Get(h, Otel.AuthorizationHeader)
               == Some("Basic " + Base64.Encode(Base64.Latin1(Trim(form.username) + ":" + form.password))))
  {
    var conf := Some(ConfigOf(form));
    PageCredentials(form);
    InitFallbacksUnused(form);
    Otel.HeadersAsExpected(conf, Otel.StreamNameHeader);
    Otel.HeadersAsExpected(conf, Otel.AuthorizationHeader);
  }

  /** What the page reports after the init button. */
  datatype Status = Initialized | InitFailed(error: Otel.InitError)

  /**
   * The report as the page computes it: `init` catches its own errors and
   * returns normally, so the page's `catch` never runs and it always reports
   * success.
   */
  function StatusAsWritten(form: Form): Status
  {
    Initialized
  }

  /** Credentials outside Latin-1 make `init` fail, yet the page reports success. */
  lemma AsWrittenReportsFailedInit()
    ensures var form := Form("\U{20AC}", "secret", "", "");
      && Otel.CollectorOptionsOf(Some(ConfigOf(form))).Failure?
      && StatusAsWritten(form) == Initialized
  {
    var form := Form("\U{20AC}", "secret", "", "");
    assert !IsWhiteSpace(form.username[0]);
    TrimKeepsUnpadded(form.username);
    var creds := Trim(form.username) + ":" + form.password;
    assert creds[0] as int >= 256;
    PageFailure(form);
  }

  /** The report when the outcome of `init` reaches the page. */
  function StatusReported(form: Form): (r: Status)
    ensures r == Initialized <==> Otel.CollectorOptionsOf(Some(ConfigOf(form))).Success?
    ensures r.InitFailed? ==> r.error == Base64.InvalidCharacterError
  {
    match Otel.CollectorOptionsOf(Some(ConfigOf(form)))
    case Success(_) => Initialized
    case Failure(e) => InitFailed(e)
  }

  /** The page reports a failure exactly for credentials outside Latin-1. */
  lemma StatusIsTruthful(form: Form)
    ensures StatusReported(form).InitFailed?
      <==> !IsBlank(form.username) && form.password != "" && !Base64.IsLatin1(Trim(form.username) + ":" + form.password)
  {
    PageFailure(form);
  }
}
