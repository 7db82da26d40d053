/**
  Runs of one client against a scripted camera, proved from the client's
  contracts alone.
 */
module Scenarios {
  import opened Wrappers
  import opened JsonValues
  import opened Encoding
  import opened Rpc

  /** A probe reply: rejected, with a token and the nonce material. */
  function ProbeReply(token: string): Response
  {
    Response(Some(false), Some(token), Some(map["realm" := "R", "random" := "N"]))
  }

  /** A reply that both decoders read the same way. */
  function Both(r: Response): Exchange
  {
    Reply(Some(r), Some(r))
  }

  /** A client that has logged in against a camera that will next accept one command. */
  method LoggedIn(md5: Md5) returns (c: DahuaRpc)
    ensures fresh(c) && c.Valid() && c.host == "cam" && !c.forceText
    ensures c.sessionId == Some("s1") && c.id == 2 && |c.sent| == 2
    ensures c.replies == [Both(Response(Some(true), None, None))]
  {
    var accepted := Response(Some(true), Some("s1"), None);
    var moved := Response(Some(true), None, None);
    c := new DahuaRpc("cam", "admin", "pass", replies := [Both(ProbeReply("s1")), Both(accepted), Both(moved)]);
    assert Parse(false, Both(ProbeReply("s1"))) == Ok(ProbeReply("s1"));
    assert Challenge(ProbeReply("s1")) == Ok(Nonce("s1", "R", "N"));
    assert Verdict(Parse(false, Both(accepted))) == Ok(());
    var login := c.Login(md5);
  }

  /**
    Login followed by `ptz.start`: the login keeps the probe's token, and the
    command is the third request, carrying that token.
   */
  method LoginThenMove(md5: Md5) returns (token: Option<string>, command: Obj)
    ensures token == Some("s1")
    ensures command.Keys == {"method", "id", "params", "session"}
    ensures command["id"] == JInt(3) && command["session"] == JStr("s1")
    ensures command["method"] == JStr("ptz.start")
    ensures command["params"] == JObject(map["code" := JStr("Left"), "arg1" := JInt(1), "arg2" := JInt(0),
                                             "arg3" := JInt(5), "arg4" := JInt(0)])
  {
    var c := LoggedIn(md5);
    token := c.sessionId;
    var _ := c.PtzControl("start", "Left", JInt(1), JInt(0), JInt(5));
    assert "ptz." + "start" == "ptz.start";
    command := c.sent[2].body;
    assert command == Body("ptz.start", 3, Some(PtzParams("Left", JInt(1), JInt(0), JInt(5))), None, None, Some("s1"));
    BodyShape("ptz.start", 3, Some(PtzParams("Left", JInt(1), JInt(0), JInt(5))), None, None, Some("s1"));
  }

  /** The token the authenticated reply carries is ignored: the probe's is kept. */
  method ProbeTokenKept(md5: Md5) returns (loggedIn: bool, token: Option<string>)
    ensures loggedIn && token == Some("s1")
  {
    var accepted := Response(Some(true), Some("s2"), None);
    var c := new DahuaRpc("cam", "admin", "pass", replies := [Both(ProbeReply("s1")), Both(accepted)]);
    var login := c.Login(md5);
    loggedIn := login.Ok?;
    token := c.sessionId;
  }

  /** A command on a client that never logged in is sent without a token and returns normally. */
  method CommandWithoutLogin() returns (answered: bool, command: Obj)
    ensures answered
    ensures command.Keys == {"method", "id", "params"}
    ensures command["id"] == JInt(1) && command["method"] == JStr("ptz.stop")
  {
    var c := new DahuaRpc("cam", "admin", "pass", replies := [Both(Response(Some(true), None, None))]);
    var r := c.PtzControl();
    answered := r.Ok?;
    command := c.sent[0].body;
    BodyShape("ptz.stop", 1, Some(PtzParams("", JInt(0), JInt(0), JInt(5))), None, None, None);
  }

  /** A fractional speed is sent as the float it is, next to the integer arguments. */
  method FractionalSpeed() returns (params: Json)
    ensures params == JObject(map["code" := JStr("Up"), "arg1" := JInt(0), "arg2" := JInt(1),
                                  "arg3" := JFloat(2.5), "arg4" := JInt(0)])
  {
    var c := new DahuaRpc("cam", "admin", "pass", replies := [Both(Response(Some(true), None, None))]);
    var r := c.PtzControl("start", "Up", JInt(0), JInt(1), JFloat(2.5));
    BodyShape("ptz.start", 1, Some(PtzParams("Up", JInt(0), JInt(1), JFloat(2.5))), None, None, None);
    params := c.sent[0].body["params"];
  }

  /**
    A command the camera rejects is returned with its false `result` and the
    client stays logged in, while a command that times out logs the client out.
   */
  method RejectedThenTimedOut(md5: Md5) returns (rejected: Result<Response, Error>, tokenAfterReject: Option<string>,
                                                 timedOut: Result<Response, Error>, tokenAfterTimeout: Option<string>)
    ensures rejected == Ok(Response(Some(false), None, None)) && tokenAfterReject == Some("s1")
    ensures timedOut == Err(TransportFailure) && tokenAfterTimeout == None
  {
    var c := new DahuaRpc("cam", "admin", "pass", replies := [Both(ProbeReply("s1")), Both(Response(Some(true), None, None)),
                                                              Both(Response(Some(false), None, None)), TransportError]);
    var login := c.Login(md5);
    rejected := c.PtzControl("start", "Up");
    tokenAfterReject := c.sessionId;
    timedOut := c.PtzControl();
    tokenAfterTimeout := c.sessionId;
  }

  /**
    A failed command does not reset the counter: a login after it sends ids 2
    and 3, and a probe reply the structured decode rejects is read through the raw-text fallback.
   */
  method FailureThenLogin(md5: Md5) returns (ids: seq<Option<int>>, loggedIn: bool)
    ensures ids == [Some(1), Some(2), Some(3)] && loggedIn
  {
    var c := new DahuaRpc("cam", "admin", "pass",
                          replies := [Reply(None, None), Reply(None, Some(ProbeReply("s1"))), Both(Response(Some(true), None, None))]);
    var failed := c.PtzControl();
    var login := c.Login(md5);
    loggedIn := login.Ok?;
    ids := [IdOf(c.sent[0].body), IdOf(c.sent[1].body), IdOf(c.sent[2].body)];
  }

  /** Closing twice leaves the client as closing once does. */
  method CloseTwice() returns (once: (Option<Transport>, Option<string>, nat), twice: (Option<Transport>, Option<string>, nat))
    ensures once == twice == (None, None, 1)
  {
    var c := new DahuaRpc("cam", "admin", "pass", replies := [Both(Response(Some(true), None, None))]);
    var r := c.PtzControl();
    c.Close();
    once := (c.session, c.sessionId, c.id);
    c.Close();
    twice := (c.session, c.sessionId, c.id);
  }
}
