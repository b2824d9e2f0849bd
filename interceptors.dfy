/** src/transport/validator/validations.go: the length rules. Go's len
    counts the bytes of the UTF-8 encoding. */
module Validator {
  import opened GoStrings

  const MaxClientNameLength: nat := 100
  const MaxAddressLength: nat := 255

  /** validateServiceName */
  function ValidServiceName(s: string): (ok: bool)
    ensures ok <==> s != ""
  {
    ByteLen(s) != 0
  }

  /** validateClientName: fewer than 100 bytes. */
  function ValidClientName(s: string): (ok: bool)
    ensures ok ==> |s| < MaxClientNameLength
    ensures 4 * |s| < MaxClientNameLength ==> ok
  {
    ByteLen(s) < MaxClientNameLength
  }

  /** validateAddress: at most 255 bytes. */
  function ValidAddress(s: string): (ok: bool)
    ensures ok ==> |s| <= MaxAddressLength
    ensures 4 * |s| <= MaxAddressLength ==> ok
  {
    ByteLen(s) <= MaxAddressLength
  }

  /** For ASCII text the bounds are exact: a 99-character name passes and a
      100-character one fails; a 255-character address passes and a
      256-character one fails; empty names and addresses pass. */
  lemma AsciiBounds(s: string)
    requires IsAscii(s)
    ensures ValidClientName(s) <==> |s| < 100
    ensures ValidAddress(s) <==> |s| <= 255
  {
    AsciiByteLen(s);
  }

  /** Non-ASCII characters count several bytes: 50 copies of 'é' (two bytes
      each) are 100 bytes, one too many for a client name. */
  lemma WideCharactersCountTwice()
    ensures !ValidClientName(seq(50, _ => 'é'))
  {
    var s := seq(50, _ => 'é');
    TwoByteLen(s);
  }

  lemma {:induction false} TwoByteLen(s: string)
    requires forall i :: 0 <= i < |s| ==> s[i] == 'é'
    ensures ByteLen(s) == 2 * |s|
  {
    if |s| > 0 {
      TwoByteLen(s[1..]);
    }
  }
}

/** src/infra/interceptors/auth.go: the bearer-token check in front of
    every unary call. */
module AuthInterceptor {
  import opened Wrappers
  import opened Errors
  import opened GoStrings

  /** Incoming gRPC metadata: lower-case keys to their values. */
  type Metadata = map<string, seq<string>>

  /** md.Get(key) */
  function Get(md: Metadata, key: string): (vs: seq<string>)
    ensures key !in md ==> vs == []
  {
    if key in md then md[key] else []
  }

  const AuthKey: string := "authorization"
  const BearerPrefix: string := "Bearer "

  function NoAuthTokenProvided(): Error {
    Status(Unauthenticated, "no auth token provided", [])
  }

  function InvalidAuthToken(): Error {
    Status(Unauthenticated, "invalid auth token", [])
  }

  /** The four guards in order: metadata present, exactly one
      authorization value, the case-sensitive "Bearer " prefix, and a
      configured token after it. None means the call may proceed. */
  function Check(validTokens: seq<string>, md: Option<Metadata>): (denied: Option<Error>)
    ensures denied.None? <==>
      md.Some? && |Get(md.value, AuthKey)| == 1 && HasPrefix(Get(md.value, AuthKey)[0], BearerPrefix)
      && Get(md.value, AuthKey)[0][|BearerPrefix|..] in validTokens
    ensures denied.Some? ==> denied == Some(NoAuthTokenProvided()) || denied == Some(InvalidAuthToken())
    ensures denied == Some(NoAuthTokenProvided()) <==> md.None? || |Get(md.value, AuthKey)| != 1
  {
    if md.None? then Some(NoAuthTokenProvided())
    else
      var values := Get(md.value, AuthKey);
      if |values| != 1 then Some(NoAuthTokenProvided())
      else if !HasPrefix(values[0], BearerPrefix) then Some(InvalidAuthToken())
      else
        var token := TrimPrefix(values[0], BearerPrefix);
        if token !in (set t | t in validTokens) then Some(InvalidAuthToken())
        else None
  }

  /** The interceptor: the handler's reply unchanged when the check
      passes, a bare Unauthenticated error otherwise. */
  function Intercept<Q, T>(validTokens: seq<string>, md: Option<Metadata>, req: Q, handler: Q -> Reply<T>): (r: Reply<T>)
    ensures Check(validTokens, md).None? ==> r == handler(req)
    ensures Check(validTokens, md).Some? ==> r == Reply(None, Check(validTokens, md))
  {
    match Check(validTokens, md)
    case None => handler(req)
    case Some(e) => Reply(None, Some(e))
  }

  /** A denied call never reaches the handler: its reply does not depend on
      what the handler would do. */
  lemma DeniedIgnoresHandler<Q, T>(validTokens: seq<string>, md: Option<Metadata>, req: Q, h1: Q -> Reply<T>, h2: Q -> Reply<T>)
    requires Check(validTokens, md).Some?
    ensures Intercept(validTokens, md, req, h1) == Intercept(validTokens, md, req, h2)
    ensures ErrorCode(Intercept(validTokens, md, req, h1).err.value) == Unauthenticated
  {
  }

  /** Exactly "Bearer " is accepted: a lower-case "bearer " prefix is an
      invalid token whatever follows it, while "Bearer " followed by a
      configured token passes. */
  lemma PrefixIsCaseSensitive(validTokens: seq<string>, token: string)
    ensures Check(validTokens, Some(map[AuthKey := ["bearer " + token]])) == Some(InvalidAuthToken())
    ensures token in validTokens ==> Check(validTokens, Some(map[AuthKey := ["Bearer " + token]])).None?
  {
    var v := "Bearer " + token;
    assert HasPrefix(v, BearerPrefix);
    assert v[|BearerPrefix|..] == token;
    var w := "bearer " + token;
    assert w[0] != BearerPrefix[0];
  }
}

/** src/infra/interceptors/metrics.go: the method-name and subsystem labels
    and the decision to count an error. The Prometheus vectors and the
    clock are not modelled; what the interceptor would record is returned
    instead. */
module MetricsInterceptor {
  import opened Wrappers
  import opened Errors
  import opened GoStrings
  import Auth = AuthInterceptor

  const MethodNameUnknown: string := "unknown"

  /** extractShortMethodName */
  function ShortMethodName(fullMethod: string): (r: string)
    ensures '/' !in fullMethod ==> r == MethodNameUnknown
    ensures '/' in fullMethod ==> |r| < |fullMethod| && '/' !in r
    ensures '/' in fullMethod ==> |r| < |fullMethod| && fullMethod[|fullMethod| - |r| - 1] == '/'
    ensures '/' in fullMethod ==> |r| < |fullMethod| && fullMethod[|fullMethod| - |r|..] == r
  {
    var idx := LastIndex(fullMethod, '/');
    if idx != -1 then
      assert fullMethod == fullMethod[..idx + 1] + fullMethod[idx + 1..];
      fullMethod[idx + 1..]
    else MethodNameUnknown
  }

  /** The subsystem label: "http" for calls through the gateway, "grpc"
      for direct calls, "" when there is no metadata. */
  function Subsystem(md: Option<Auth.Metadata>): (s: string)
    ensures md.None? ==> s == ""
    ensures md.Some? ==> (s == "http" <==> |Auth.Get(md.value, "grpcgateway-user-agent")| > 0)
    ensures md.Some? ==> (s == "grpc" <==> |Auth.Get(md.value, "grpcgateway-user-agent")| == 0)
  {
    if md.None? then ""
    else if |Auth.Get(md.value, "grpcgateway-user-agent")| > 0 then "http"
    else "grpc"
  }

  datatype Labels = Labels(service: string, subsystem: string, methodName: string, code: string)

  /** What one call records: its labels (for the duration histogram) and
      whether the error counter is incremented. */
  datatype Record = Record(labels: Labels, errorCounted: bool)

  /** The interceptor: the reply is the handler's, unchanged; a disabled
      interceptor records nothing. */
  function Intercept<Q, T>(enabled: bool, serviceName: string, md: Option<Auth.Metadata>, fullMethod: string,
                           req: Q, handler: Q -> Reply<T>): (r: (Reply<T>, Option<Record>))
    ensures r.0 == handler(req)
    ensures r.1.None? <==> !enabled
    ensures r.1.Some? ==> (r.1.value.errorCounted <==> handler(req).err.Some?)
    ensures r.1.Some? ==> r.1.value.labels.service == ReplaceAll(serviceName, '-', '_')
    ensures r.1.Some? ==> '-' !in r.1.value.labels.service && |r.1.value.labels.service| == |serviceName|
    ensures r.1.Some? ==> r.1.value.labels.code == CodeName(StatusCode(handler(req).err))
    ensures r.1.Some? ==> r.1.value.labels.methodName == ShortMethodName(fullMethod)
    ensures r.1.Some? ==> r.1.value.labels.subsystem == Subsystem(md)
  {
    if !enabled then (handler(req), None)
    else
      var reply := handler(req);
      var labels := Labels(ReplaceAll(serviceName, '-', '_'), Subsystem(md), ShortMethodName(fullMethod),
                           CodeName(StatusCode(reply.err)));
      (reply, Some(Record(labels, reply.err.Some?)))
  }

  /** A successful call is labelled OK; a failed one is never labelled OK. */
  lemma {:induction false} CodeLabelOk(err: Option<Error>)
    ensures err.None? ==> CodeName(StatusCode(err)) == "OK"
    ensures err.Some? && ErrorCode(err.value) != OK ==> CodeName(StatusCode(err)) != "OK"
  {
  }

  lemma ShortNameExamples()
    ensures ShortMethodName("/orders.Orders/CreateOrder") == "CreateOrder"
    ensures ShortMethodName("CreateOrder") == "unknown"
    ensures ShortMethodName("/orders.Orders/") == ""
  {
    assert '/' !in "CreateOrder";
    var s := "/orders.Orders/CreateOrder";
    assert s[14] == '/';
    assert s[15..] == "CreateOrder";
    var t := "/orders.Orders/";
    assert t[14] == '/';
  }
}
