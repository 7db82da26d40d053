/**
  The `DahuaRpc` client: JSON-RPC over HTTP to a Dahua camera, with the
  two-request `global.login` handshake and `ptz.<action>` commands.

  The network is an oracle held by the client: `replies` lists what the camera
  does with each POST, in order, and `sent` records every POST made.
 */
module Rpc {
  import opened Wrappers
  import opened JsonValues
  import opened Encoding

  /**
    The parts of a decoded reply that the client reads. A `None` stands for a
    key the reply lacks, so reading it raises `KeyError`.
   */
  datatype Response = Response(result: Option<bool>, session: Option<string>, params: Option<map<string, string>>)

  /**
    What one POST brings back: a transport failure (refused, reset, or the
    10-second timeout expired), or a reply body together with the outcome of
    each of the two decoders applied to it: `response.json()` (`structured`)
    and `json.loads(response.text())` (`text`); `None` where a decoder raises.
   */
  datatype Exchange = TransportError | Reply(structured: Option<Response>, text: Option<Response>)

  /** The exceptions the client raises. */
  datatype Error =
    | TransportFailure          // aiohttp error or timeout
    | ParseFailure              // the body is not JSON on the path taken
    | MissingKey(key: string)   // KeyError on a reply
    | LoginFailed(reply: Response)

  /** An aiohttp `ClientSession` handle; `closed` is its `.closed` attribute. */
  datatype Transport = Transport(closed: bool)

  /** One POST: the target URL and the JSON body. */
  datatype Post = Post(url: string, body: Obj)

  /** What the login probe's reply must carry: the token and the nonce material. */
  datatype Nonce = Nonce(session: string, realm: string, random: string)

  /** Python truthiness of an optional string: present and non-empty. */
  predicate Truthy(s: Option<string>)
  {
    s.Some? && s.value != ""
  }

  predicate Has(extra: Option<Obj>, key: string)
  {
    extra.Some? && key in extra.value
  }

  function RpcUrl(host: string): string
  {
    "http://" + host + "/RPC2"
  }

  function LoginUrl(host: string): string
  {
    "http://" + host + "/RPC2_Login"
  }

  /** The URL a request goes to: the given one, or the general RPC endpoint when none (or "") is given. */
  function TargetUrl(host: string, url: Option<string>): (u: string)
    ensures Truthy(url) ==> u == url.value
    ensures !Truthy(url) ==> u == "http://" + host + "/RPC2"
  {
    if Truthy(url) then url.value else RpcUrl(host)
  }

  /**
    The body `request` posts: `method` and `id`, then `params` if given,
    `object` if non-empty, then every key of `extra`, and last `session`
    whenever a token is held.
   */
  function Body(name: string, id: nat, params: Option<Obj>, objectId: Option<string>,
                extra: Option<Obj>, sessionId: Option<string>): (b: Obj)
    ensures "method" in b && "id" in b
    ensures Truthy(sessionId) ==> "session" in b && b["session"] == JStr(sessionId.value)
    ensures !Has(extra, "id") ==> b["id"] == JInt(id)
  {
    var base := map["method" := JStr(name), "id" := JInt(id)];
    var withParams := if params.Some? then base["params" := JObject(params.value)] else base;
    var withObject := if Truthy(objectId) then withParams["object" := JStr(objectId.value)] else withParams;
    var merged := if extra.Some? then withObject + extra.value else withObject;
    if Truthy(sessionId) then merged["session" := JStr(sessionId.value)] else merged
  }

  /**
    The keys of a body: `method` and `id` always, `params` iff given, `object`
    iff non-empty, `session` iff a token is held, and the keys of `extra`,
    which override all but `session`; no others.
   */
  lemma BodyShape(name: string, id: nat, params: Option<Obj>, objectId: Option<string>,
                  extra: Option<Obj>, sessionId: Option<string>)
    ensures var b := Body(name, id, params, objectId, extra, sessionId);
      && "method" in b && "id" in b
      && ("params" in b <==> params.Some? || Has(extra, "params"))
      && ("object" in b <==> Truthy(objectId) || Has(extra, "object"))
      && ("session" in b <==> Truthy(sessionId) || Has(extra, "session"))
      && (forall k :: k in b ==> k in {"method", "id", "params", "object", "session"} || Has(extra, k))
      && (!Has(extra, "method") ==> b["method"] == JStr(name))
      && (!Has(extra, "id") ==> b["id"] == JInt(id))
      && (params.Some? && !Has(extra, "params") ==> b["params"] == JObject(params.value))
      && (Truthy(objectId) && !Has(extra, "object") ==> b["object"] == JStr(objectId.value))
      && (Truthy(sessionId) ==> b["session"] == JStr(sessionId.value))
      && (extra.Some? ==> forall k :: k in extra.value && (k != "session" || !Truthy(sessionId)) ==>
            k in b && b[k] == extra.value[k])
  {
  }

  /** The id of a body is the counter unless `extra` overrides it. */
  lemma BodyId(name: string, id: nat, params: Option<Obj>, objectId: Option<string>,
               extra: Option<Obj>, sessionId: Option<string>)
    requires !Has(extra, "id")
    ensures IdOf(Body(name, id, params, objectId, extra, sessionId)) == Some(id)
  {
    BodyShape(name, id, params, objectId, extra, sessionId);
  }

  /**
    How `request` reads a reply. With `forceText` only the raw-text decode is
    tried; otherwise the structured decode, falling back to the raw-text one.
   */
  function Parse(forceText: bool, e: Exchange): (r: Result<Response, Error>)
    ensures e.TransportError? ==> r == Err(TransportFailure)
    ensures r.Ok? ==> e.Reply? && (e.text == Some(r.value) || (!forceText && e.structured == Some(r.value)))
    ensures e.Reply? && r.Err? ==> r.error == ParseFailure
  {
    match e
    case TransportError => Err(TransportFailure)
    case Reply(structured, text) =>
      if !forceText && structured.Some? then Ok(structured.value)
      else if text.Some? then Ok(text.value)
      else Err(ParseFailure)
  }

  /**
    The forced path never looks at the structured decode; the default path
    takes the structured decode when it succeeds, and is the forced path when
    it fails.
   */
  lemma ParseModes(structured: Option<Response>, text: Option<Response>)
    ensures Parse(true, Reply(structured, text)) == Parse(true, Reply(None, text))
    ensures structured.Some? ==> Parse(false, Reply(structured, text)) == Ok(structured.value)
    ensures structured.None? ==> Parse(false, Reply(structured, text)) == Parse(true, Reply(structured, text))
  {
  }

  /** A body that the structured decode rejects but the raw-text decode accepts parses in both modes. */
  lemma ParseFallback(forceText: bool, r: Response)
    ensures Parse(forceText, Reply(None, Some(r))) == Ok(r)
  {
  }

  /** A reply fails to parse exactly when the raw-text decode fails and the structured one is not used or fails too. */
  lemma ParseFails(forceText: bool, structured: Option<Response>, text: Option<Response>)
    ensures Parse(forceText, Reply(structured, text)).Err? <==> text.None? && (forceText || structured.None?)
  {
  }

  /** The next exchange the network answers with; an exhausted oracle only fails. */
  function Next(replies: seq<Exchange>): Exchange
  {
    if replies == [] then TransportError else replies[0]
  }

  function Rest(replies: seq<Exchange>): seq<Exchange>
  {
    if replies == [] then [] else replies[1..]
  }

  /** The login probe's params: the user name, an empty password and the client type. */
  function ProbeParams(username: string): Obj
  {
    map["userName" := JStr(username), "password" := JStr(""), "clientType" := JStr("Web3.0")]
  }

  /** The probe sends exactly the user name, an empty password and the client type `Web3.0`. */
  lemma ProbeParamsShape(username: string)
    ensures var p := ProbeParams(username);
      && p.Keys == {"userName", "password", "clientType"}
      && p["userName"] == JStr(username) && p["password"] == JStr("") && p["clientType"] == JStr("Web3.0")
  {
  }

  /** The authenticated login's params. */
  function AuthParams(username: string, passHash: string): Obj
  {
    map["userName" := JStr(username), "password" := JStr(passHash), "clientType" := JStr("Web3.0"),
        "authorityType" := JStr("Default"), "passwordType" := JStr("Default")]
  }

  /**
    The authenticated login sends exactly the user name, the hashed password,
    the client type `Web3.0` and the authority and password types `Default`.
   */
  lemma AuthParamsShape(username: string, passHash: string)
    ensures var p := AuthParams(username, passHash);
      && p.Keys == {"userName", "password", "clientType", "authorityType", "passwordType"}
      && p["userName"] == JStr(username) && p["password"] == JStr(passHash) && p["clientType"] == JStr("Web3.0")
      && p["authorityType"] == JStr("Default") && p["passwordType"] == JStr("Default")
  {
  }

  /** A PTZ command's params; `arg4` is always 0. */
  function PtzParams(code: string, arg1: Number, arg2: Number, arg3: Number): (p: Obj)
    ensures p.Keys == {"code", "arg1", "arg2", "arg3", "arg4"}
    ensures p["code"] == JStr(code) && p["arg4"] == JInt(0)
    ensures p["arg1"] == arg1 && p["arg2"] == arg2 && p["arg3"] == arg3
  {
    map["code" := JStr(code), "arg1" := arg1, "arg2" := arg2, "arg3" := arg3, "arg4" := JInt(0)]
  }

  /**
    What the login probe's reply yields, looked up in the order the client
    reads it: `session`, then `params`, `params.realm`, `params.random`.
   */
  function Challenge(p: Response): (c: Result<Nonce, Error>)
    ensures c.Ok? <==> p.session.Some? && p.params.Some? && "realm" in p.params.value && "random" in p.params.value
    ensures c.Ok? ==> c.value == Nonce(p.session.value, p.params.value["realm"], p.params.value["random"])
    ensures c.Err? ==> c.error.MissingKey?
    ensures p.session.None? ==> c == Err(MissingKey("session"))
    ensures p.session.Some? && p.params.None? ==> c == Err(MissingKey("params"))
    ensures p.session.Some? && p.params.Some? && "realm" !in p.params.value ==> c == Err(MissingKey("realm"))
    ensures p.session.Some? && p.params.Some? && "realm" in p.params.value && "random" !in p.params.value
            ==> c == Err(MissingKey("random"))
  {
    if p.session.None? then Err(MissingKey("session"))
    else if p.params.None? then Err(MissingKey("params"))
    else if "realm" !in p.params.value then Err(MissingKey("realm"))
    else if "random" !in p.params.value then Err(MissingKey("random"))
    else Ok(Nonce(p.session.value, p.params.value["realm"], p.params.value["random"]))
  }

  /** The outcome of the authenticated login, judged by its reply's `result`. */
  function Verdict(second: Result<Response, Error>): (v: Result<(), Error>)
    ensures v.Ok? <==> second.Ok? && second.value.result == Some(true)
    ensures second.Err? ==> v == Err(second.error)
    ensures second.Ok? && second.value.result == Some(false) ==> v == Err(LoginFailed(second.value))
    ensures second.Ok? && second.value.result.None? ==> v == Err(MissingKey("result"))
  {
    match second
    case Err(e) => Err(e)
    case Ok(p) =>
      if p.result.None? then Err(MissingKey("result"))
      else if !p.result.value then Err(LoginFailed(p))
      else Ok(())
  }

  /**
    The outcome of a PTZ command: a reply with a `result` is returned as it is,
    whether the camera accepted the command or not.
   */
  function CommandOutcome(reply: Result<Response, Error>): (r: Result<Response, Error>)
    ensures r.Ok? <==> reply.Ok? && reply.value.result.Some?
    ensures r.Ok? ==> r == reply
    ensures reply.Err? ==> r == reply
    ensures reply.Ok? && reply.value.result.None? ==> r == Err(MissingKey("result"))
  {
    match reply
    case Err(_) => reply
    case Ok(p) => if p.result.None? then Err(MissingKey("result")) else reply
  }

  /** The colon-joined phrase the login hashes. */
  function Phrase(a: string, b: string, c: string): string
  {
    a + ":" + b + ":" + c
  }

  /** The bytes hashed are the UTF-8 bytes of the three parts, separated by the byte 0x3A. */
  lemma PhraseBytes(a: string, b: string, c: string)
    ensures Utf8(Phrase(a, b, c)) == Utf8(a) + [0x3A] + Utf8(b) + [0x3A] + Utf8(c)
  {
    var colon := Utf8(":");
    assert colon == [0x3A] by {
      assert ":"[1..] == [];
    }
    Utf8Concat(a, ":");
    Utf8Concat(a + ":", b);
    Utf8Concat(a + ":" + b, ":");
    Utf8Concat(a + ":" + b + ":", c);
  }

  /** Round one: `upper(hex(MD5(username:realm:password)))`. */
  function PwdHash(md5: Md5, username: string, realm: string, password: string): (h: string)
    ensures |h| == 32 && IsUpperHex(h)
  {
    UpperHexDigest(md5(Utf8(Phrase(username, realm, password))))
  }

  /** Round two, the password the authenticated login sends: `upper(hex(MD5(username:random:PwdHash)))`. */
  function PassHash(md5: Md5, username: string, password: string, realm: string, random: string): (h: string)
    ensures |h| == 32 && IsUpperHex(h)
  {
    UpperHexDigest(md5(Utf8(Phrase(username, random, PwdHash(md5, username, realm, password)))))
  }

  /** Round one decodes to the MD5 of the bytes of `username`, `:`, `realm`, `:`, `password`. */
  lemma PwdHashDecodes(md5: Md5, username: string, realm: string, password: string)
    ensures FromHex(PwdHash(md5, username, realm, password))
         == Some(md5(Utf8(username) + [0x3A] + Utf8(realm) + [0x3A] + Utf8(password)))
  {
    PhraseBytes(username, realm, password);
    UpperHexRoundTrip(md5(Utf8(Phrase(username, realm, password))));
  }

  /** The password sent decodes to the MD5 of the bytes of `username`, `:`, `random`, `:` and round one. */
  lemma PassHashDecodes(md5: Md5, username: string, password: string, realm: string, random: string)
    ensures FromHex(PassHash(md5, username, password, realm, random))
         == Some(md5(Utf8(username) + [0x3A] + Utf8(random) + [0x3A] + Utf8(PwdHash(md5, username, realm, password))))
  {
    var pwd := PwdHash(md5, username, realm, password);
    PhraseBytes(username, random, pwd);
    UpperHexRoundTrip(md5(Utf8(Phrase(username, random, pwd))));
  }

  /**
    Round one is plain ASCII, so the second phrase hashes its 32 characters
    byte for byte: each byte is the code of the upper-case hex digit.
   */
  lemma PwdHashBytes(md5: Md5, username: string, realm: string, password: string)
    ensures var h := PwdHash(md5, username, realm, password);
      |Utf8(h)| == 32 && forall i :: 0 <= i < 32 ==> Utf8(h)[i] as int == h[i] as int
  {
    var h := PwdHash(md5, username, realm, password);
    assert forall i :: 0 <= i < |h| ==> h[i] as int < 0x80;
    Utf8Ascii(h);
  }

  /** The id carried by a body, when it is an integer. */
  function IdOf(body: Obj): Option<int>
  {
    if "id" in body && body["id"].JInt? then Some(body["id"].i) else None
  }

  /** The k-th POST of the log carries id k + 1. */
  ghost predicate IdsFromOne(log: seq<Post>)
  {
    forall k :: 0 <= k < |log| ==> IdOf(log[k].body) == Some(k + 1)
  }

  /** Appending a POST whose id is the next one keeps the log's ids in order. */
  lemma IdsFromOneAppend(log: seq<Post>, p: Post)
    requires IdsFromOne(log) && IdOf(p.body) == Some(|log| + 1)
    ensures IdsFromOne(log + [p])
  {
    forall k | 0 <= k < |log| + 1
      ensures IdOf((log + [p])[k].body) == Some(k + 1)
    {
      if k < |log| {
        assert (log + [p])[k] == log[k];
      }
    }
  }

  class DahuaRpc {
    const host: string
    const username: string
    const password: string
    const forceText: bool
    /** The aiohttp session, if one has been created and not dropped. */
    var session: Option<Transport>
    /** The token attached to requests. */
    var sessionId: Option<string>
    /** The request-id counter. */
    var id: nat
    /** What the camera does with each coming POST, in order. */
    var replies: seq<Exchange>
    /** Every POST made, in order. */
    var sent: seq<Post>
    /** The number of transports created so far. */
    ghost var created: nat
    /** The number of transports shut down so far. */
    ghost var released: nat

    /**
      One POST per id handed out; a held transport is open; and every
      transport created has been shut down, except the one held.
     */
    ghost predicate Valid()
      reads this
    {
      && |sent| == id
      && (session.Some? ==> !session.value.closed)
      && created == released + (if session.Some? then 1 else 0)
    }

    /** The k-th POST carries id k + 1. */
    ghost predicate IdsInOrder()
      reads this
    {
      IdsFromOne(sent)
    }

    constructor (host: string, username: string, password: string, forceText: bool := false, replies: seq<Exchange>)
      ensures this.host == host && this.username == username && this.password == password
      ensures this.forceText == forceText && this.replies == replies
      ensures session == None && sessionId == None && id == 0
      ensures sent == [] && created == 0 && released == 0
      ensures Valid() && IdsInOrder()
    {
      this.host := host;
      this.username := username;
      this.password := password;
      this.forceText := forceText;
      this.replies := replies;
      session := None;
      sessionId := None;
      id := 0;
      sent := [];
      created := 0;
      released := 0;
    }

    /** Creates a transport unless an open one is held. */
    method Initialize()
      modifies this`session, this`created
      ensures old(session) == Some(Transport(false)) ==> session == old(session) && created == old(created)
      ensures old(session) != Some(Transport(false)) ==> session == Some(Transport(false)) && created == old(created) + 1
      ensures old(Valid()) ==> Valid()
    {
      if session.None? || session.value.closed {
        session := Some(Transport(false));
        created := created + 1;
      }
    }

    /**
      Shuts down an open transport, then drops the transport and the token;
      the counter and everything else are kept.
     */
    method Close()
      modifies this`session, this`sessionId, this`released
      ensures session == None && sessionId == None
      ensures released == old(released) + (if old(session).Some? && !old(session).value.closed then 1 else 0)
      ensures id == old(id) && sent == old(sent) && replies == old(replies) && created == old(created)
      ensures old(Valid()) ==> Valid()
    {
      if session.Some? && !session.value.closed {
        released := released + 1;
      }
      session := None;
      sessionId := None;
    }

    /** The POST itself: it is logged, and the network's next answer is consumed. */
    method Send(url: string, body: Obj) returns (e: Exchange)
      modifies this`sent, this`replies
      ensures sent == old(sent) + [Post(url, body)]
      ensures e == Next(old(replies)) && replies == Rest(old(replies))
    {
      sent := sent + [Post(url, body)];
      e := Next(replies);
      replies := Rest(replies);
    }

    /**
      One JSON-RPC exchange. The counter is incremented before the body is
      built; any failure closes the client and is returned as the error.
     */
    method Request(name: string, params: Option<Obj> := None, objectId: Option<string> := None,
                   extra: Option<Obj> := None, url: Option<string> := None)
      returns (r: Result<Response, Error>)
      requires Valid()
      modifies this
      ensures Valid()
      ensures id == old(id) + 1
      ensures sent == old(sent) + [Post(TargetUrl(host, url), Body(name, id, params, objectId, extra, old(sessionId)))]
      ensures replies == Rest(old(replies))
      ensures r == Parse(forceText, Next(old(replies)))
      ensures r.Ok? ==> session == Some(Transport(false)) && sessionId == old(sessionId)
      ensures r.Err? ==> session == None && sessionId == None
      ensures created == old(created) + (if old(session).Some? then 0 else 1)
      ensures released == old(released) + (if r.Err? then 1 else 0)
      ensures !Has(extra, "id") && old(IdsInOrder()) ==> IdsInOrder()
    {
      Initialize();
      id := id + 1;

      var data: Obj := map["method" := JStr(name), "id" := JInt(id)];
      if params.Some? {
        data := data["params" := JObject(params.value)];
      }
      if Truthy(objectId) {
        data := data["object" := JStr(objectId.value)];
      }
      if extra.Some? {
        data := data + extra.value;
      }
      if Truthy(sessionId) {
        data := data["session" := JStr(sessionId.value)];
      }
      var target := if Truthy(url) then url.value else RpcUrl(host);

      assert data == Body(name, id, params, objectId, extra, old(sessionId));
      var e := Send(target, data);
      if !Has(extra, "id") && IdsFromOne(old(sent)) {
        BodyId(name, id, params, objectId, extra, old(sessionId));
        IdsFromOneAppend(old(sent), Post(target, data));
      }
      r := Parse(forceText, e);
      if r.Err? {
        Close();
      }
    }

    /**
      The login handshake: a probe that yields the token, realm and random,
      then the authenticated request with the two-round hash. The token kept
      is the probe's; any failure closes the client.
     */
    method Login(md5: Md5) returns (r: Result<(), Error>)
      requires Valid()
      modifies this
      ensures Valid()
      ensures old(IdsInOrder()) ==> IdsInOrder()
      ensures var first := Parse(forceText, Next(old(replies)));
              var nonce := if first.Ok? then Challenge(first.value) else Err(first.error);
              var probe := Post(LoginUrl(host), Body("global.login", old(id) + 1, Some(ProbeParams(username)), None, None, old(sessionId)));
              && (nonce.Err? ==> sent == old(sent) + [probe] && replies == Rest(old(replies)) && r == Err(nonce.error))
              && (nonce.Ok? ==>
                    var n := nonce.value;
                    var auth := Post(LoginUrl(host), Body("global.login", old(id) + 2,
                                  Some(AuthParams(username, PassHash(md5, username, password, n.realm, n.random))),
                                  None, None, Some(n.session)));
                    && sent == old(sent) + [probe] + [auth]
                    && replies == Rest(Rest(old(replies)))
                    && r == Verdict(Parse(forceText, Next(Rest(old(replies))))))
              && (r.Ok? ==> nonce.Ok? && sessionId == Some(nonce.value.session))
      ensures r.Ok? ==> session == Some(Transport(false)) && id == old(id) + 2
      ensures r.Err? ==> session == None && sessionId == None
      ensures created == old(created) + (if old(session).Some? then 0 else 1)
      ensures released == old(released) + (if r.Err? then 1 else 0)
    {
      var url := LoginUrl(host);
      var name := "global.login";
      ghost var probePost := Post(url, Body(name, id + 1, Some(ProbeParams(username)), None, None, sessionId));
      var probe := Request(name, Some(ProbeParams(username)), None, None, Some(url));
      assert sent == old(sent) + [probePost];
      if probe.Err? {
        r := Err(probe.error);
      } else if probe.value.session.None? {
        r := Err(MissingKey("session"));
      } else {
        var p := probe.value;
        sessionId := p.session;
        if p.params.None? {
          r := Err(MissingKey("params"));
        } else if "realm" !in p.params.value {
          r := Err(MissingKey("realm"));
        } else if "random" !in p.params.value {
          r := Err(MissingKey("random"));
        } else {
          var realm := p.params.value["realm"];
          var random := p.params.value["random"];
          var pwdHash := UpperHexDigest(md5(Utf8(username + ":" + realm + ":" + password)));
          var passHash := UpperHexDigest(md5(Utf8(username + ":" + random + ":" + pwdHash)));
          assert passHash == PassHash(md5, username, password, realm, random);

          ghost var authPost := Post(url, Body(name, id + 1, Some(AuthParams(username, passHash)), None, None, sessionId));
          var auth := Request(name, Some(AuthParams(username, passHash)), None, None, Some(url));
          assert sent == old(sent) + [probePost] + [authPost];
          if auth.Err? {
            r := Err(auth.error);
          } else if auth.value.result.None? {
            r := Err(MissingKey("result"));
          } else if !auth.value.result.value {
            r := Err(LoginFailed(auth.value));
          } else {
            r := Ok(());
          }
        }
      }
      // Every exception raised above is caught, closes the client and is raised again.
      if r.Err? {
        Close();
      }
    }

    /**
      Sends `ptz.<action>` to the general endpoint with whatever token is held
      (none is required). A reply whose `result` is false is returned as it is
      and keeps the client open; any failure closes it.
     */
    method PtzControl(action: string := "stop", code: string := "", arg1: Number := JInt(0), arg2: Number := JInt(0),
                      arg3: Number := JInt(5))
      returns (r: Result<Response, Error>)
      requires Valid()
      modifies this
      ensures Valid()
      ensures old(IdsInOrder()) ==> IdsInOrder()
      ensures id == old(id) + 1 && replies == Rest(old(replies))
      ensures sent == old(sent) + [Post(RpcUrl(host), Body("ptz." + action, id, Some(PtzParams(code, arg1, arg2, arg3)), None, None, old(sessionId)))]
      ensures r == CommandOutcome(Parse(forceText, Next(old(replies))))
      ensures r.Ok? ==> session == Some(Transport(false)) && sessionId == old(sessionId)
      ensures r.Err? ==> session == None && sessionId == None
      ensures created == old(created) + (if old(session).Some? then 0 else 1)
      ensures released == old(released) + (if r.Err? then 1 else 0)
    {
      var name := "ptz." + action;
      var params := PtzParams(code, arg1, arg2, arg3);
      var reply := Request(name, Some(params));
      if reply.Err? {
        Close();
        return reply;
      }
      if reply.value.result.None? {
        Close();
        return Err(MissingKey("result"));
      }
      return reply;
    }
  }
}
