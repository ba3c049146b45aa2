/**
 * The startup rules of main.go that decide how the broker is reached:
 * plain `amqp` or mutual-TLS `amqps`, the TLS server name derived from the
 * broker host, and the connection URI with the credentials embedded.
 */
module Startup {
  import opened Wrappers

  /** The environment variables main reads for the broker connection. */
  datatype Environment = Environment(
    amqpUser: string,        // AMQP_USER
    amqpPass: string,        // AMQP_PASS
    amqpHost: string,        // AMQP_HOST, "host" or "host:port"
    clientCert: string,      // AMQP_CLIENCERTFILE
    clientKey: string,       // AMQP_CLIENTKEYFILE
    caCertFilePath: string)  // AMQP_CACERT

  /**
   * The TLS client configuration: the client identity comes from the
   * certificate and key files, the trusted roots from the CA file, and the
   * expected server identity is `serverName`. The files are named, not read.
   */
  datatype TlsConfig = TlsConfig(certFile: string, keyFile: string, caFile: string, serverName: string)

  /** Which dial main makes; `NoDial` is the fall-through of its if/else-if. */
  datatype Dial = PlainDial(uri: string) | TlsDial(uri: string, config: Option<TlsConfig>) | NoDial

  /** The parts a connection URI carries. */
  datatype ConnectionParts = ConnectionParts(scheme: string, user: string, pass: string, host: string)

  /** TLS is used exactly when all three certificate paths are given. */
  predicate TlsRequested(env: Environment)
  {
    env.clientCert != "" && env.clientKey != "" && env.caCertFilePath != ""
  }

  // ---------------------------------------------------------------------------
  // strings.Split with a one-character separator, and a reference reading of it

  /**
   * Go's `strings.Split(s, string([sep]))`: the pieces of `s` between the
   * occurrences of `sep`, always at least one (`[""]` for the empty string).
   */
  function Split(s: string, sep: char): (pieces: seq<string>)
    ensures |pieces| >= 1
    ensures forall i :: 0 <= i < |pieces| ==> sep !in pieces[i]
    decreases |s|
  {
    if s == [] then [""]
    else if s[0] == sep then [""] + Split(s[1..], sep)
    else
      var rest := Split(s[1..], sep);
      [[s[0]] + rest[0]] + rest[1..]
  }

  /** The pieces glued back together with the separator. */
  function Join(pieces: seq<string>, sep: char): string
    decreases |pieces|
  {
    if |pieces| <= 1 then (if pieces == [] then "" else pieces[0])
    else pieces[0] + [sep] + Join(pieces[1..], sep)
  }

  /** Splitting loses nothing: joining the pieces gives back the original string. */
  lemma {:induction false} JoinSplit(s: string, sep: char)
    ensures Join(Split(s, sep), sep) == s
    decreases |s|
  {
    if s == [] {
    } else if s[0] == sep {
      JoinSplit(s[1..], sep);
      assert s == [sep] + s[1..];
    } else {
      JoinSplit(s[1..], sep);
      var rest := Split(s[1..], sep);
      if |rest| == 1 {
        assert s == [s[0]] + s[1..];
      } else {
        assert Join(rest, sep) == rest[0] + [sep] + Join(rest[1..], sep);
        assert Split(s, sep)[1..] == rest[1..];
        assert s == [s[0]] + s[1..];
      }
    }
  }

  /** The text before and after the first `sep`, or None when `sep` does not occur. */
  function SplitFirst(s: string, sep: char): (r: Option<(string, string)>)
    ensures r.None? <==> sep !in s
    ensures r.Some? ==> s == r.value.0 + [sep] + r.value.1 && sep !in r.value.0
    decreases |s|
  {
    if s == [] then None
    else if s[0] == sep then Some(([], s[1..]))
    else
      match SplitFirst(s[1..], sep)
      case None => None
      case Some((before, after)) => Some(([s[0]] + before, after))
  }

  /** The text before and after the last `sep`, or None when `sep` does not occur. */
  function SplitLast(s: string, sep: char): (r: Option<(string, string)>)
    ensures r.None? <==> sep !in s
    ensures r.Some? ==> s == r.value.0 + [sep] + r.value.1 && sep !in r.value.1
    decreases |s|
  {
    if s == [] then None
    else if s[|s| - 1] == sep then Some((s[..|s| - 1], []))
    else
      match SplitLast(s[..|s| - 1], sep)
      case None => None
      case Some((before, after)) => Some((before, after + [s[|s| - 1]]))
  }

  /** A separator-free prefix followed by the separator is exactly what SplitFirst finds. */
  lemma {:induction false} SplitFirstAt(a: string, sep: char, b: string)
    requires sep !in a
    ensures SplitFirst(a + [sep] + b, sep) == Some((a, b))
    decreases |a|
  {
    if a != [] {
      assert (a + [sep] + b)[1..] == a[1..] + [sep] + b;
      SplitFirstAt(a[1..], sep, b);
      assert [a[0]] + a[1..] == a;
    }
  }

  /** The separator followed by a separator-free suffix is exactly what SplitLast finds. */
  lemma {:induction false} SplitLastAt(a: string, sep: char, b: string)
    requires sep !in b
    ensures SplitLast(a + [sep] + b, sep) == Some((a, b))
    decreases |b|
  {
    var s := a + [sep] + b;
    if b == [] {
      assert s[..|s| - 1] == a;
    } else {
      var b' := b[..|b| - 1];
      assert s[..|s| - 1] == a + [sep] + b';
      SplitLastAt(a, sep, b');
      assert b' + [b[|b| - 1]] == b;
    }
  }

  /** Go's `strings.Split(...)[0]` is the text before the first separator, or all of it. */
  lemma {:induction false} SplitHead(s: string, sep: char)
    ensures Split(s, sep)[0] == (match SplitFirst(s, sep) case None => s case Some((before, _)) => before)
    decreases |s|
  {
    if s != [] && s[0] != sep {
      SplitHead(s[1..], sep);
    }
  }

  // ---------------------------------------------------------------------------
  // ServerName and the connection URI

  /** `strings.Split(amqpHost, ":")[0]`: the host with any `:port` removed. */
  function HostPart(amqpHost: string): (hostname: string)
    ensures hostname <= amqpHost
    ensures ':' !in hostname
    ensures |hostname| < |amqpHost| ==> amqpHost[|hostname|] == ':'
    ensures ':' !in amqpHost ==> hostname == amqpHost
  {
    SplitHead(amqpHost, ':');
    Split(amqpHost, ':')[0]
  }

  /** The TLS server name: "AMQP/" followed by the host before its first ':'. */
  function ServerName(amqpHost: string): (name: string)
    ensures |name| >= 5 && name[..5] == "AMQP/"
    ensures name[5..] <= amqpHost && ':' !in name[5..]
    ensures |name| - 5 < |amqpHost| ==> amqpHost[|name| - 5] == ':'
    ensures ':' !in amqpHost ==> name == "AMQP/" + amqpHost
  {
    "AMQP/" + HostPart(amqpHost)
  }

  /** `fmt.Sprintf("%s://%s:%s@%s/", scheme, user, pass, host)`. */
  function ConnectionString(scheme: string, user: string, pass: string, host: string): (uri: string)
    ensures |uri| == |scheme| + |user| + |pass| + |host| + 6
    ensures uri[..|scheme|] == scheme && uri[|scheme|..|scheme| + 3] == "://"
    ensures uri[|scheme| + 3 + |user|] == ':' && uri[|uri| - 2 - |host|] == '@' && uri[|uri| - 1] == '/'
    ensures uri[|scheme| + 3..|scheme| + 3 + |user|] == user
    ensures uri[|scheme| + 4 + |user|..|uri| - 2 - |host|] == pass
    ensures uri[|uri| - 1 - |host|..|uri| - 1] == host
  {
    scheme + "://" + user + ":" + pass + "@" + host + "/"
  }

  /**
   * A reader of the URI shape main builds, independent of how it is built:
   * the scheme ends at the first ':', "//" follows, the authority runs to the
   * first '/', which must end the string.
   */
  function ParseConnectionString(uri: string): Option<ConnectionParts>
  {
    match SplitFirst(uri, ':')
    case None => None
    case Some((scheme, rest)) =>
      if |rest| < 2 || rest[..2] != "//" then None
      else
        match SplitFirst(rest[2..], '/')
        case None => None
        case Some((authority, path)) =>
          if path != "" then None else ParseAuthority(scheme, authority)
  }

  /** The credentials end at the last '@' of the authority, the user name at their first ':'. */
  function ParseAuthority(scheme: string, authority: string): Option<ConnectionParts>
  {
    match SplitLast(authority, '@')
    case None => None
    case Some((userInfo, host)) =>
      match SplitFirst(userInfo, ':')
      case None => None
      case Some((user, pass)) => Some(ConnectionParts(scheme, user, pass, host))
  }

  /** Credentials and host that the unescaped URI can carry without ambiguity. */
  predicate UriSafe(scheme: string, user: string, pass: string, host: string)
  {
    && ':' !in scheme
    && ':' !in user && '/' !in user
    && '/' !in pass
    && '@' !in host && '/' !in host
  }

  /** The authority main builds reads back as its user, password and host. */
  lemma ParseAuthorityAt(scheme: string, user: string, pass: string, host: string)
    requires ':' !in user && '@' !in host
    ensures ParseAuthority(scheme, user + ":" + pass + "@" + host) == Some(ConnectionParts(scheme, user, pass, host))
  {
    var userInfo := user + ":" + pass;
    assert user + ":" + pass + "@" + host == userInfo + ['@'] + host;
    SplitLastAt(userInfo, '@', host);
    assert userInfo == user + [':'] + pass;
    SplitFirstAt(user, ':', pass);
  }

  /**
   * The URI is exactly scheme, "://", user, ":", pass, "@", host and "/":
   * reading it back yields the same four parts whenever they hold no
   * character that would end a part early.
   */
  lemma ConnectionStringRoundTrip(scheme: string, user: string, pass: string, host: string)
    requires UriSafe(scheme, user, pass, host)
    ensures ParseConnectionString(ConnectionString(scheme, user, pass, host))
         == Some(ConnectionParts(scheme, user, pass, host))
  {
    ParseBuiltUri(scheme, user, pass, host);
  }

  /** The reading of the concatenated URI, step by step. */
  lemma ParseBuiltUri(scheme: string, user: string, pass: string, host: string)
    requires UriSafe(scheme, user, pass, host)
    ensures ParseConnectionString(scheme + "://" + user + ":" + pass + "@" + host + "/")
         == Some(ConnectionParts(scheme, user, pass, host))
  {
    var authority := user + ":" + pass + "@" + host;
    var rest := "//" + authority + "/";
    assert scheme + "://" + user + ":" + pass + "@" + host + "/" == scheme + [':'] + rest;
    SplitFirstAt(scheme, ':', rest);
    assert rest[..2] == "//";
    assert rest[2..] == authority + ['/'] + [];
    SplitFirstAt(authority, '/', []);
    ParseAuthorityAt(scheme, user, pass, host);
  }

  // ---------------------------------------------------------------------------
  // main, lines 28-63: scheme, TLS configuration, URI and dial

  /**
   * The connection decisions main takes before dialling: the scheme starts as
   * "amqp" and becomes "amqps", with a TLS configuration, only when all three
   * certificate paths are set; the dial follows the scheme.
   */
  method PlanConnection(env: Environment) returns (scheme: string, tlsConfig: Option<TlsConfig>, uri: string, dial: Dial)
    ensures scheme == "amqps" <==> TlsRequested(env)
    ensures scheme == "amqp" <==> !TlsRequested(env)
    ensures tlsConfig.Some? <==> TlsRequested(env)
    ensures tlsConfig.Some? ==>
      tlsConfig.value == TlsConfig(env.clientCert, env.clientKey, env.caCertFilePath, ServerName(env.amqpHost))
    ensures uri == ConnectionString(scheme, env.amqpUser, env.amqpPass, env.amqpHost)
    ensures dial.TlsDial? <==> TlsRequested(env)
    ensures dial.PlainDial? <==> !TlsRequested(env)
    ensures !dial.NoDial? && dial.uri == uri
    ensures dial.TlsDial? ==> dial.config == tlsConfig
  {
    scheme := "amqp";
    tlsConfig := None;
    if env.clientCert != "" && env.clientKey != "" && env.caCertFilePath != "" {
      scheme := "amqps";
      tlsConfig := Some(TlsConfig(env.clientCert, env.clientKey, env.caCertFilePath,
                                  "AMQP/" + Split(env.amqpHost, ':')[0]));
    }
    uri := scheme + "://" + env.amqpUser + ":" + env.amqpPass + "@" + env.amqpHost + "/";
    if scheme == "amqp" {
      dial := PlainDial(uri);
    } else if scheme == "amqps" {
      dial := TlsDial(uri, tlsConfig);
    } else {
      dial := NoDial;
    }
  }
}
