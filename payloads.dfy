/**
 * The message bodies of playloads.ts: a closed family of record shapes,
 * each serialised by `toString()` as `JSON.stringify(this)`.
 */
module Payloads {
  import opened JsValues

  /** The commands of the RPC protocol; every value is the member's own name. */
  datatype RPCCommand =
    | DISPATCH | AUTHORIZE | AUTHENTICATE | GET_GUILD | GET_GUILDS | GET_CHANNEL
    | GET_CHANNELS | SUBSCRIBE | UNSUBSCRIBE | SET_USER_VOICE_SETTINGS
    | SELECT_VOICE_CHANNEL | GET_SELECTED_VOICE_CHANNEL | SELECT_TEXT_CHANNEL
    | GET_VOICE_SETTINGS | SET_VOICE_SETTINGS | SET_CERTIFIED_DEVICES
    | SET_ACTIVITY | SEND_ACTIVITY_JOIN_INVITE | CLOSE_ACTIVITY_REQUEST
  {
    /** The string value of the enum member. */
    function Name(): string
    {
      match this
      case DISPATCH => "DISPATCH"
      case AUTHORIZE => "AUTHORIZE"
      case AUTHENTICATE => "AUTHENTICATE"
      case GET_GUILD => "GET_GUILD"
      case GET_GUILDS => "GET_GUILDS"
      case GET_CHANNEL => "GET_CHANNEL"
      case GET_CHANNELS => "GET_CHANNELS"
      case SUBSCRIBE => "SUBSCRIBE"
      case UNSUBSCRIBE => "UNSUBSCRIBE"
      case SET_USER_VOICE_SETTINGS => "SET_USER_VOICE_SETTINGS"
      case SELECT_VOICE_CHANNEL => "SELECT_VOICE_CHANNEL"
      case GET_SELECTED_VOICE_CHANNEL => "GET_SELECTED_VOICE_CHANNEL"
      case SELECT_TEXT_CHANNEL => "SELECT_TEXT_CHANNEL"
      case GET_VOICE_SETTINGS => "GET_VOICE_SETTINGS"
      case SET_VOICE_SETTINGS => "SET_VOICE_SETTINGS"
      case SET_CERTIFIED_DEVICES => "SET_CERTIFIED_DEVICES"
      case SET_ACTIVITY => "SET_ACTIVITY"
      case SEND_ACTIVITY_JOIN_INVITE => "SEND_ACTIVITY_JOIN_INVITE"
      case CLOSE_ACTIVITY_REQUEST => "CLOSE_ACTIVITY_REQUEST"
    }
  }

  /** The command whose value is `s`, if any. */
  function CommandNamed(s: string): Option<RPCCommand>
  {
    match s
    case "DISPATCH" => Some(DISPATCH)
    case "AUTHORIZE" => Some(AUTHORIZE)
    case "AUTHENTICATE" => Some(AUTHENTICATE)
    case "GET_GUILD" => Some(GET_GUILD)
    case "GET_GUILDS" => Some(GET_GUILDS)
    case "GET_CHANNEL" => Some(GET_CHANNEL)
    case "GET_CHANNELS" => Some(GET_CHANNELS)
    case "SUBSCRIBE" => Some(SUBSCRIBE)
    case "UNSUBSCRIBE" => Some(UNSUBSCRIBE)
    case "SET_USER_VOICE_SETTINGS" => Some(SET_USER_VOICE_SETTINGS)
    case "SELECT_VOICE_CHANNEL" => Some(SELECT_VOICE_CHANNEL)
    case "GET_SELECTED_VOICE_CHANNEL" => Some(GET_SELECTED_VOICE_CHANNEL)
    case "SELECT_TEXT_CHANNEL" => Some(SELECT_TEXT_CHANNEL)
    case "GET_VOICE_SETTINGS" => Some(GET_VOICE_SETTINGS)
    case "SET_VOICE_SETTINGS" => Some(SET_VOICE_SETTINGS)
    case "SET_CERTIFIED_DEVICES" => Some(SET_CERTIFIED_DEVICES)
    case "SET_ACTIVITY" => Some(SET_ACTIVITY)
    case "SEND_ACTIVITY_JOIN_INVITE" => Some(SEND_ACTIVITY_JOIN_INVITE)
    case "CLOSE_ACTIVITY_REQUEST" => Some(CLOSE_ACTIVITY_REQUEST)
    case _ => None
  }

  /** Every command's value names that command. */
  lemma CommandNameRoundTrip(c: RPCCommand)
    ensures CommandNamed(c.Name()) == Some(c)
  {
  }

  /** Command values are distinct: no two commands share a value. */
  lemma CommandNamesDistinct(c: RPCCommand, d: RPCCommand)
    ensures c.Name() == d.Name() ==> c == d
  {
    CommandNameRoundTrip(c);
    CommandNameRoundTrip(d);
  }

  /** The number of `-` characters in `s`. */
  function DashCount(s: string): nat
  {
    if s == [] then 0 else (if s[0] == '-' then 1 else 0) + DashCount(s[1..])
  }

  /**
   * The template literal type `${string}-${string}-${string}-${string}-${string}`
   * read as a pattern: `s` splits into `k + 1` pieces at `k` dashes, the
   * pieces being arbitrary strings.
   */
  predicate Segments(s: string, k: nat)
    decreases k
  {
    k == 0 || exists i :: 0 <= i < |s| && s[i] == '-' && Segments(s[i + 1..], k - 1)
  }

  /** A nonce: any string the five-segment template accepts. */
  type Nonce = s: string | DashCount(s) >= 4 witness "----"

  lemma {:induction false} DashCountSplit(s: string, i: nat)
    requires i <= |s|
    ensures DashCount(s) == DashCount(s[..i]) + DashCount(s[i..])
    decreases i
  {
    if i > 0 {
      DashCountSplit(s[1..], i - 1);
      assert s[1..][..i - 1] == s[1..i];
      assert s[1..][i - 1..] == s[i..];
      assert s[..i][1..] == s[1..i];
    } else {
      assert s[..0] == [] && s[0..] == s;
    }
  }

  /** The first dash of a string that has one, with every dash after it. */
  lemma {:induction false} FirstDash(s: string) returns (i: nat)
    requires DashCount(s) > 0
    ensures i < |s| && s[i] == '-' && DashCount(s[i + 1..]) == DashCount(s) - 1
  {
    if s[0] == '-' {
      i := 0;
    } else {
      var j := FirstDash(s[1..]);
      i := j + 1;
      assert s[1..][j + 1..] == s[i + 1..];
    }
  }

  /** A dash at `i` counts once, on top of the dashes after it. */
  lemma {:induction false} DashCountAt(s: string, i: nat)
    requires i < |s| && s[i] == '-'
    ensures DashCount(s) >= 1 + DashCount(s[i + 1..])
  {
    DashCountSplit(s, i);
    assert s[i..][1..] == s[i + 1..];
  }

  /** The dash at which a template match with `k > 0` dashes splits first. */
  lemma SegmentsSplit(s: string, k: nat) returns (i: nat)
    requires k > 0 && Segments(s, k)
    ensures i < |s| && s[i] == '-' && Segments(s[i + 1..], k - 1)
  {
    i :| 0 <= i < |s| && s[i] == '-' && Segments(s[i + 1..], k - 1);
  }

  /** A string the template splits at `k` dashes has at least `k` dashes. */
  lemma {:induction false} DashesOfSegments(s: string, k: nat)
    requires Segments(s, k)
    ensures DashCount(s) >= k
    decreases k
  {
    if k > 0 {
      var i := SegmentsSplit(s, k);
      DashesOfSegments(s[i + 1..], k - 1);
      DashCountAt(s, i);
    }
  }

  /** A string with at least `k` dashes splits at `k` of them. */
  lemma {:induction false} SegmentsOfDashes(s: string, k: nat)
    requires DashCount(s) >= k
    ensures Segments(s, k)
    decreases k
  {
    if k > 0 {
      var i := FirstDash(s);
      SegmentsOfDashes(s[i + 1..], k - 1);
    }
  }

  /** The template accepts exactly the strings with at least `k` dashes. */
  lemma SegmentsIffDashes(s: string, k: nat)
    ensures Segments(s, k) <==> DashCount(s) >= k
  {
    if Segments(s, k) {
      DashesOfSegments(s, k);
    }
    if DashCount(s) >= k {
      SegmentsOfDashes(s, k);
    }
  }

  /** Every nonce has the five-segment dash-separated shape. */
  lemma NonceShape(n: Nonce)
    ensures Segments(n, 4)
  {
    SegmentsIffDashes(n, 4);
  }

  /** `crypto.randomUUID()`'s format: 36 characters, dashes at 8, 13, 18 and 23. */
  predicate IsUuid(s: string)
  {
    |s| == 36 && s[8] == '-' && s[13] == '-' && s[18] == '-' && s[23] == '-'
  }

  /** A generated UUID is a valid nonce. */
  lemma {:induction false} UuidIsNonce(s: string)
    requires IsUuid(s)
    ensures DashCount(s) >= 4
  {
    DashCountSplit(s, 9);
    DashCountSplit(s[9..], 5);
    DashCountSplit(s[14..], 5);
    DashCountSplit(s[19..], 5);
    assert s[9..][..5] == s[9..14] && s[9..][5..] == s[14..];
    assert s[14..][..5] == s[14..19] && s[14..][5..] == s[19..];
    assert s[19..][..5] == s[19..24] && s[19..][5..] == s[24..];
    DashOfLast(s[..9]);
    DashOfLast(s[9..14]);
    DashOfLast(s[14..19]);
    DashOfLast(s[19..24]);
  }

  lemma {:induction false} DashOfLast(s: string)
    requires |s| > 0 && s[|s| - 1] == '-'
    ensures DashCount(s) >= 1
  {
    DashCountSplit(s, |s| - 1);
    assert s[|s| - 1..] == ['-'];
  }

  function OptNonce(o: Option<Nonce>): JsVal
  {
    match o
    case None => Undefined
    case Some(n) => Str(n)
  }

  /** The five payload classes; a field that is `undefined` is `None` or `Undefined`. */
  datatype Payload =
    | HandshakePayload(v: int, clientId: string, accessToken: Option<string>,
                       scopes: Option<string>, nonce: Option<Nonce>)
    | CommandPayload(cmd: RPCCommand, nonce: Option<Nonce>, evt: Option<string>,
                     data: JsVal, args: JsVal)
    | ClosePayload(code: Option<int>, message: Option<string>, nonce: Option<Nonce>)
    | PingPayload(nonce: Option<Nonce>)
    | PongPayload(nonce: Option<Nonce>)

  /** `new HandshakePayload(clientId, nonce)`. */
  function NewHandshake(clientId: string, nonce: Option<Nonce>): Payload
  {
    HandshakePayload(1, clientId, None, None, nonce)
  }

  /** `new CommandPayload(cmd, args, nonce)`. */
  function NewCommand(cmd: RPCCommand, args: JsVal, nonce: Option<Nonce>): Payload
  {
    CommandPayload(cmd, nonce, None, Undefined, args)
  }

  /** `new ClosePayload(message)`. */
  function NewClose(message: Option<string>): Payload
  {
    ClosePayload(None, message, None)
  }

  /** `new PingPayload(nonce)`. */
  function NewPing(nonce: Option<Nonce>): Payload
  {
    PingPayload(nonce)
  }

  /** `new PongPayload(nonce)`. */
  function NewPong(nonce: Option<Nonce>): Payload
  {
    PongPayload(nonce)
  }

  /** The object `toString()` passes to JSON.stringify: the defined own fields. */
  function ToJs(p: Payload): JsVal
  {
    match p
    case HandshakePayload(v, clientId, accessToken, scopes, nonce) =>
      Obj(Prop("v", Num(v)) + Prop("client_id", Str(clientId)) +
          Prop("access_token", OptStr(accessToken)) + Prop("scopes", OptStr(scopes)) +
          Prop("nonce", OptNonce(nonce)))
    case CommandPayload(cmd, nonce, evt, data, args) =>
      Obj(Prop("cmd", Str(cmd.Name())) + Prop("nonce", OptNonce(nonce)) +
          Prop("evt", OptStr(evt)) + Prop("data", data) + Prop("args", args))
    case ClosePayload(code, message, nonce) =>
      Obj(Prop("code", OptNum(code)) + Prop("message", OptStr(message)) +
          Prop("nonce", OptNonce(nonce)))
    case PingPayload(nonce) => Obj(Prop("nonce", OptNonce(nonce)))
    case PongPayload(nonce) => Obj(Prop("nonce", OptNonce(nonce)))
  }

  /**
   * A new handshake serialises `v` as 1 and the client id as given, the
   * nonce exactly when one was given, and neither access token nor scopes.
   */
  lemma HandshakeFields(clientId: string, nonce: Option<Nonce>)
    ensures ToJs(NewHandshake(clientId, nonce)) ==
              Obj(map["v" := Num(1), "client_id" := Str(clientId)] + Prop("nonce", OptNonce(nonce)))
    ensures Get(ToJs(NewHandshake(clientId, nonce)), "access_token") == Ok(Undefined)
    ensures Get(ToJs(NewHandshake(clientId, nonce)), "scopes") == Ok(Undefined)
  {
  }

  /** A new command serialises cmd, args and nonce as given; evt and data are absent. */
  lemma CommandFields(cmd: RPCCommand, args: JsVal, nonce: Option<Nonce>)
    ensures ToJs(NewCommand(cmd, args, nonce)) ==
              Obj(map["cmd" := Str(cmd.Name())] + Prop("nonce", OptNonce(nonce)) + Prop("args", args))
    ensures Get(ToJs(NewCommand(cmd, args, nonce)), "evt") == Ok(Undefined)
    ensures Get(ToJs(NewCommand(cmd, args, nonce)), "data") == Ok(Undefined)
  {
  }

  /** A new close payload serialises only the message given; code and nonce are absent. */
  lemma CloseFields(message: Option<string>)
    ensures ToJs(NewClose(message)) == Obj(Prop("message", OptStr(message)))
  {
  }

  /** Ping and pong payloads serialise the optional nonce and nothing else. */
  lemma PingPongFields(nonce: Option<Nonce>)
    ensures ToJs(NewPing(nonce)) == ToJs(NewPong(nonce)) == Obj(Prop("nonce", OptNonce(nonce)))
    ensures ToJs(NewPing(nonce)).fields.Keys <= {"nonce"}
  {
  }
}
