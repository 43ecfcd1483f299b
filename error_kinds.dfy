/** The mapping from the engine's error kinds to the C enums `AsyncNatsConnectErrorKind` and
    `AsyncNatsRequestErrorKind`, and the boxed error objects that carry them. */
module ErrorKinds {
  import opened Common

  /** The engine's reasons for a failed connect (`async_nats::ConnectErrorKind`). */
  datatype ConnectErrorKind =
    | ServerParse | Dns | Authentication | AuthorizationViolation | TimedOut | Tls | Io

  /** The engine's reasons for a failed request (`async_nats::RequestErrorKind`). */
  datatype RequestErrorKind = RequestTimedOut | NoResponders | Other

  /** The C enum `AsyncNatsConnectErrorKind`, its enumerators in declaration order. */
  datatype CConnectErrorKind =
    | AsyncNats_Connect_ServerParse
    | AsyncNats_Connect_Dns
    | AsyncNats_Connect_Authentication
    | AsyncNats_Connect_AuthorizationViolation
    | AsyncNats_Connect_TimedOut
    | AsyncNatsConnectTls
    | AsyncNats_ConnectIo
  {
    /** The integer value C sees: the enumerator's position in the declaration. */
    function Value(): (v: nat)
      ensures v < 7
    {
      match this
      case AsyncNats_Connect_ServerParse => 0
      case AsyncNats_Connect_Dns => 1
      case AsyncNats_Connect_Authentication => 2
      case AsyncNats_Connect_AuthorizationViolation => 3
      case AsyncNats_Connect_TimedOut => 4
      case AsyncNatsConnectTls => 5
      case AsyncNats_ConnectIo => 6
    }

    /** The enumerator's name as declared: a prefix followed by the name of the kind. */
    function Name(): string
    {
      Prefix() + KindName()
    }

    /** The part of the declared name before the kind's own name (the prefixes differ). */
    function Prefix(): string
    {
      match this
      case AsyncNatsConnectTls => "AsyncNatsConnect"
      case AsyncNats_ConnectIo => "AsyncNats_Connect"
      case _ => "AsyncNats_Connect_"
    }

    /** The part of the declared name that names the kind. */
    function KindName(): string
    {
      match this
      case AsyncNats_Connect_ServerParse => "ServerParse"
      case AsyncNats_Connect_Dns => "Dns"
      case AsyncNats_Connect_Authentication => "Authentication"
      case AsyncNats_Connect_AuthorizationViolation => "AuthorizationViolation"
      case AsyncNats_Connect_TimedOut => "TimedOut"
      case AsyncNatsConnectTls => "Tls"
      case AsyncNats_ConnectIo => "Io"
    }
  }

  /** The C enum `AsyncNatsRequestErrorKind`, its enumerators in declaration order. */
  datatype CRequestErrorKind =
    | AsyncNats_Request_TimedOut
    | AsyncNats_Request_NoResponders
    | AsyncNats_Request_Other
  {
    function Value(): (v: nat)
      ensures v < 3
    {
      match this
      case AsyncNats_Request_TimedOut => 0
      case AsyncNats_Request_NoResponders => 1
      case AsyncNats_Request_Other => 2
    }

    /** The enumerator's name as declared: a prefix followed by the name of the kind. */
    function Name(): string
    {
      "AsyncNats_Request_" + KindName()
    }

    /** The part of the declared name that names the kind. */
    function KindName(): string
    {
      match this
      case AsyncNats_Request_TimedOut => "TimedOut"
      case AsyncNats_Request_NoResponders => "NoResponders"
      case AsyncNats_Request_Other => "Other"
    }
  }

  /** The variant name of an engine connect kind. */
  function ConnectKindName(k: ConnectErrorKind): string
  {
    match k
    case ServerParse => "ServerParse"
    case Dns => "Dns"
    case Authentication => "Authentication"
    case AuthorizationViolation => "AuthorizationViolation"
    case TimedOut => "TimedOut"
    case Tls => "Tls"
    case Io => "Io"
  }

  /** The variant name of an engine request kind. */
  function RequestKindName(k: RequestErrorKind): string
  {
    match k
    case RequestTimedOut => "TimedOut"
    case NoResponders => "NoResponders"
    case Other => "Other"
  }

  /** `async_nats_connection_error_kind`: the C enumerator reported for an engine connect kind.
      Every kind maps to the C enumerator named after it. */
  function ConnectErrorKindOf(k: ConnectErrorKind): (c: CConnectErrorKind)
    ensures c.KindName() == ConnectKindName(k)
  {
    match k
    case ServerParse => AsyncNats_Connect_ServerParse
    case Dns => AsyncNats_Connect_Dns
    case Authentication => AsyncNats_Connect_Authentication
    case AuthorizationViolation => AsyncNats_Connect_AuthorizationViolation
    case TimedOut => AsyncNats_Connect_TimedOut
    case Tls => AsyncNatsConnectTls
    case Io => AsyncNats_ConnectIo
  }

  /** `async_nats_request_error_kind`: the C enumerator reported for an engine request kind.
      Every kind maps to the C enumerator named after it. */
  function RequestErrorKindOf(k: RequestErrorKind): (c: CRequestErrorKind)
    ensures c.KindName() == RequestKindName(k)
  {
    match k
    case RequestTimedOut => AsyncNats_Request_TimedOut
    case NoResponders => AsyncNats_Request_NoResponders
    case Other => AsyncNats_Request_Other
  }

  /** Reading a C connect-kind value back: the engine kind it was produced from, if any. */
  function ConnectErrorKindFromValue(v: int): (k: Option<ConnectErrorKind>)
    ensures k.Some? <==> 0 <= v < 7
    ensures k.Some? ==> ConnectErrorKindOf(k.value).Value() == v
  {
    if v == 0 then Some(ServerParse)
    else if v == 1 then Some(Dns)
    else if v == 2 then Some(Authentication)
    else if v == 3 then Some(AuthorizationViolation)
    else if v == 4 then Some(TimedOut)
    else if v == 5 then Some(Tls)
    else if v == 6 then Some(Io)
    else None
  }

  /** Reading a C request-kind value back: the engine kind it was produced from, if any. */
  function RequestErrorKindFromValue(v: int): (k: Option<RequestErrorKind>)
    ensures k.Some? <==> 0 <= v < 3
    ensures k.Some? ==> RequestErrorKindOf(k.value).Value() == v
  {
    if v == 0 then Some(RequestTimedOut)
    else if v == 1 then Some(NoResponders)
    else if v == 2 then Some(Other)
    else None
  }

  /** The value C sees for a connect kind decodes to that kind: the mapping loses nothing. */
  lemma ConnectErrorKindRoundTrip(k: ConnectErrorKind)
    ensures ConnectErrorKindFromValue(ConnectErrorKindOf(k).Value()) == Some(k)
  {
  }

  /** The value C sees for a request kind decodes to that kind. */
  lemma RequestErrorKindRoundTrip(k: RequestErrorKind)
    ensures RequestErrorKindFromValue(RequestErrorKindOf(k).Value()) == Some(k)
  {
  }

  /** Distinct engine connect kinds give distinct C values. */
  lemma ConnectErrorKindInjective(a: ConnectErrorKind, b: ConnectErrorKind)
    requires ConnectErrorKindOf(a).Value() == ConnectErrorKindOf(b).Value()
    ensures a == b
  {
    ConnectErrorKindRoundTrip(a);
    ConnectErrorKindRoundTrip(b);
  }

  /** Distinct engine request kinds give distinct C values. */
  lemma RequestErrorKindInjective(a: RequestErrorKind, b: RequestErrorKind)
    requires RequestErrorKindOf(a).Value() == RequestErrorKindOf(b).Value()
    ensures a == b
  {
    RequestErrorKindRoundTrip(a);
    RequestErrorKindRoundTrip(b);
  }

  /** The connect mapping reaches every C enumerator, so the C side sees no unused value. */
  lemma ConnectErrorKindOnto(c: CConnectErrorKind)
    ensures exists k :: ConnectErrorKindOf(k) == c
  {
    var k := ConnectErrorKindFromValue(c.Value()).value;
    assert ConnectErrorKindOf(k) == c;
  }

  /** The request mapping reaches every C enumerator as well. */
  lemma RequestErrorKindOnto(c: CRequestErrorKind)
    ensures exists k :: RequestErrorKindOf(k) == c
  {
    var k := RequestErrorKindFromValue(c.Value()).value;
    assert RequestErrorKindOf(k) == c;
  }

  /** The values C sees are the positions of the enumerators in their declarations. */
  lemma DeclarationOrder()
    ensures AsyncNats_Connect_ServerParse.Value() == 0 && AsyncNats_Connect_Dns.Value() == 1
    ensures AsyncNats_Connect_Authentication.Value() == 2 && AsyncNats_Connect_AuthorizationViolation.Value() == 3
    ensures AsyncNats_Connect_TimedOut.Value() == 4 && AsyncNatsConnectTls.Value() == 5 && AsyncNats_ConnectIo.Value() == 6
    ensures AsyncNats_Request_TimedOut.Value() == 0 && AsyncNats_Request_NoResponders.Value() == 1
    ensures AsyncNats_Request_Other.Value() == 2
  {
  }

  /** A boxed engine error (`AsyncNatsConnectError` / `AsyncNatsRequestError`): its kind and the
      text its `Display` implementation produces. */
  class ErrorObj<K> {
    const kind: K
    const description: string

    constructor (kind: K, description: string)
      ensures this.kind == kind && this.description == description
    {
      this.kind := kind;
      this.description := description;
    }
  }

  type ConnectErrorObj = ErrorObj<ConnectErrorKind>
  type RequestErrorObj = ErrorObj<RequestErrorKind>
}
