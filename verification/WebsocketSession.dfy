/** A websocket session (`websocket_server.rs`): login gate, one reply per request, and event forwarding. */
module WebsocketSession {
  import opened Basics
  import opened IoValues
  import Pipeline
  import HomeSnapshot

  datatype Request =
    | Pong(data: seq<int>)
    | Login(user: string, pass: string)
    | GetHome
    | SetState(cmd: IODataAction)
    | Event(eventData: IOData)

  /** A frame from the client. A text frame carries a request when it parses. */
  datatype Message = Text(request: Option<Request>) | Binary | Ping(data: seq<int>) | PongFrame | Close | RawFrame

  datatype Reply =
    | PongReply(data: seq<int>)
    | LoginReply(success: bool)
    | HomeReply(home: seq<HomeSnapshot.RoomData>)
    | SetStateReply
    | EventReply(eventData: IOData)

  /** What a session does, in order: reads a request, enqueues a command, sends a reply, forwards an event. */
  datatype Deed = Read(request: Request) | Enqueue(cmd: Pipeline.IOCmd) | Respond(reply: Reply) | Forward(data: IOData)

  /** What happens to a session next. `sent` and `enqueued` tell whether its own sends succeed, `home` what the engine answers;
      the feedback receiver yields its next message, or an error when it lags or is closed. */
  datatype Happening =
    | ClientSends(message: Message, sent: bool, enqueued: bool, home: Option<seq<HomeSnapshot.RoomData>>)
    | ClientGone
    | FeedbackArrives(lagging: bool, sent: bool)

  // ----- what the deeds of a session must satisfy -----

  /** The session had a successful login. */
  predicate LoggedIn(deeds: seq<Deed>)
  {
    Respond(LoginReply(true)) in deeds
  }

  /** Nothing is enqueued or forwarded before a successful login has been answered. */
  ghost predicate Gated(deeds: seq<Deed>)
  {
    forall i :: 0 <= i < |deeds| && (deeds[i].Enqueue? || deeds[i].Forward?) ==> LoggedIn(deeds[..i])
  }

  /** The last request, while it is unanswered. */
  function Open(deeds: seq<Deed>): Option<Request>
  {
    if deeds == [] then None
    else match deeds[|deeds| - 1]
      case Read(request) => Some(request)
      case Respond(_) => None
      case _ => Open(deeds[..|deeds| - 1])
  }

  /** The reply to a request. */
  predicate Replies(request: Request, reply: Reply)
  {
    match request
    case Pong(data) => reply == PongReply(data)
    case Login(_, _) => reply.LoginReply?
    case GetHome => reply.HomeReply? || reply == LoginReply(false)
    case SetState(_) => reply == SetStateReply || reply == LoginReply(false)
    case Event(data) => reply == EventReply(data)
  }

  /** The command that a request has enqueued. */
  predicate Asks(request: Request, cmd: Pipeline.IOCmd)
  {
    (request.GetHome? && cmd == Pipeline.GetAllData) || (request.SetState? && cmd == Pipeline.Action(request.cmd))
  }

  /** What a session may do next, given the request that is still unanswered. */
  predicate MayFollow(open: Option<Request>, deed: Deed)
  {
    match deed
    case Read(_) => open.None?
    case Respond(reply) => open.Some? && Replies(open.value, reply)
    case Enqueue(cmd) => open.Some? && Asks(open.value, cmd)
    case Forward(_) => open.None?
  }

  /** Requests are read one at a time: each has its own reply, of the right kind, before the next is read or an event forwarded,
      and only commands that the request asks for are enqueued meanwhile. */
  predicate Paired(deeds: seq<Deed>)
  {
    deeds == [] ||
    var last := |deeds| - 1;
    Paired(deeds[..last]) && MayFollow(Open(deeds[..last]), deeds[last])
  }

  /** The events forwarded, in order. */
  function Forwarded(deeds: seq<Deed>): seq<IOData>
  {
    if deeds == [] then []
    else
      var last := deeds[|deeds| - 1];
      Forwarded(deeds[..|deeds| - 1]) + (if last.Forward? then [last.data] else [])
  }

  /** What one more deed does to all of these. */
  lemma Appended(deeds: seq<Deed>, deed: Deed)
    ensures Forwarded(deeds + [deed]) == Forwarded(deeds) + (if deed.Forward? then [deed.data] else [])
    ensures LoggedIn(deeds + [deed]) <==> LoggedIn(deeds) || deed == Respond(LoginReply(true))
    ensures Gated(deeds) && ((deed.Enqueue? || deed.Forward?) ==> LoggedIn(deeds)) ==> Gated(deeds + [deed])
    ensures Open(deeds + [deed])
            == match deed { case Read(request) => Some(request) case Respond(_) => None case _ => Open(deeds) }
    ensures Paired(deeds) && MayFollow(Open(deeds), deed) ==> Paired(deeds + [deed])
  {
    var all := deeds + [deed];
    assert all[..|deeds|] == deeds;
    if Gated(deeds) && ((deed.Enqueue? || deed.Forward?) ==> LoggedIn(deeds)) {
      forall i | 0 <= i < |all| && (all[i].Enqueue? || all[i].Forward?)
        ensures LoggedIn(all[..i])
      {
        if i < |deeds| {
          assert all[..i] == deeds[..i];
        }
      }
    }
  }

  /** The request that a client frame carries. A ping asks for a pong. */
  function Carried(message: Message): Option<Request>
  {
    match message
    case Text(request) => request
    case Ping(data) => Some(Pong(data))
    case _ => None
  }

  /** The request is answered with a refusal, and the session ends. */
  predicate Refused(verifyLogin: (string, string) -> bool, authenticated: bool, request: Request)
  {
    match request
    case Login(user, pass) => !verifyLogin(user, pass)
    case GetHome => !authenticated
    case SetState(_) => !authenticated
    case _ => false
  }

  /** The session ends with this request: it is refused, the reply cannot be sent, or the rules engine cannot be asked or does not
      answer. */
  predicate EndsWith(verifyLogin: (string, string) -> bool, authenticated: bool, request: Request, sent: bool, enqueued: bool,
                     answered: bool)
  {
    || !sent
    || Refused(verifyLogin, authenticated, request)
    || (authenticated && (request.GetHome? || request.SetState?) && !enqueued)
    || (authenticated && request.GetHome? && !answered)
  }

  /** What a request leads to, once read, when every send succeeds. */
  function Reaction(verifyLogin: (string, string) -> bool, authenticated: bool, request: Request,
                    home: seq<HomeSnapshot.RoomData>): seq<Deed>
  {
    if Refused(verifyLogin, authenticated, request) then [Respond(LoginReply(false))]
    else match request
      case Pong(data) => [Respond(PongReply(data))]
      case Login(_, _) => [Respond(LoginReply(true))]
      case GetHome => [Enqueue(Pipeline.GetAllData), Respond(HomeReply(home))]
      case SetState(cmd) => [Enqueue(Pipeline.Action(cmd)), Respond(SetStateReply)]
      case Event(data) => [Respond(EventReply(data))]
  }

  /** What a client would be shown; without an answer, no reply is made of it. */
  function ShownHome(home: Option<seq<HomeSnapshot.RoomData>>): seq<HomeSnapshot.RoomData>
  {
    if home.Some? then home.value else []
  }

  // ----- the session -----

  class Session {
    const verifyLogin: (string, string) -> bool
    var authenticated: bool
    var ended: bool
    var deeds: seq<Deed>
    var heard: nat

    /** `log` is the feedback from the moment the connection was accepted. */
    ghost predicate Valid(log: seq<IOData>)
      reads this
    {
      && Gated(deeds)
      && Paired(deeds)
      && Forwarded(deeds) <= log
      && (!ended ==>
          && Open(deeds).None?
          && (authenticated <==> LoggedIn(deeds))
          && heard <= |log| && Forwarded(deeds) == log[..heard])
    }

    constructor (verifyLogin: (string, string) -> bool, log: seq<IOData>)
      ensures Valid(log) && !authenticated && !ended && deeds == []
    {
      this.verifyLogin := verifyLogin;
      authenticated, ended, deeds, heard := false, false, [], 0;
    }

    method Do(deed: Deed)
      modifies this`deeds
      ensures deeds == old(deeds) + [deed]
      ensures Forwarded(deeds) == Forwarded(old(deeds)) + (if deed.Forward? then [deed.data] else [])
      ensures LoggedIn(deeds) <==> LoggedIn(old(deeds)) || deed == Respond(LoginReply(true))
      ensures Gated(old(deeds)) && ((deed.Enqueue? || deed.Forward?) ==> LoggedIn(old(deeds))) ==> Gated(deeds)
      ensures Open(deeds)
              == match deed { case Read(request) => Some(request) case Respond(_) => None case _ => Open(old(deeds)) }
      ensures Paired(old(deeds)) && MayFollow(Open(old(deeds)), deed) ==> Paired(deeds)
    {
      Appended(deeds, deed);
      deeds := deeds + [deed];
    }

    /** Between reading `request` and replying to it. */
    ghost predicate Reading(log: seq<IOData>, request: Request)
      reads this
    {
      && Gated(deeds) && Paired(deeds) && Open(deeds) == Some(request)
      && (authenticated <==> LoggedIn(deeds))
      && heard <= |log| && Forwarded(deeds) == log[..heard]
    }

    /** Sends the reply; a failure ends the session. */
    method Send(reply: Reply, sent: bool, ghost request: Request, ghost log: seq<IOData>)
      requires Replies(request, reply) && !ended
      requires Gated(deeds) && Paired(deeds) && Open(deeds) == Some(request) && heard <= |log| && Forwarded(deeds) == log[..heard]
      requires authenticated <==> LoggedIn(deeds) || reply == LoginReply(true)
      modifies this`deeds, this`ended
      ensures Valid(log) && ended == !sent
      ensures deeds == if sent then old(deeds) + [Respond(reply)] else old(deeds)
    {
      hide Gated, Paired, LoggedIn, Open, Forwarded;
      if sent {
        Do(Respond(reply));
      } else {
        ended := true;
      }
    }

    /** Sends a refusal and ends the session. */
    method Refuse(sent: bool, ghost request: Request, ghost log: seq<IOData>)
      requires Replies(request, LoginReply(false)) && !ended
      requires Gated(deeds) && Paired(deeds) && Open(deeds) == Some(request) && heard <= |log| && Forwarded(deeds) == log[..heard]
      modifies this`deeds, this`ended
      ensures Valid(log) && ended
      ensures deeds == if sent then old(deeds) + [Respond(LoginReply(false))] else old(deeds)
    {
      hide Gated, Paired, LoggedIn, Open, Forwarded;
      if sent {
        Do(Respond(LoginReply(false)));
      }
      ended := true;
    }

    /** Enqueues a command; a failure ends the session. */
    method Ask(cmd: Pipeline.IOCmd, enqueued: bool, ghost request: Request, ghost log: seq<IOData>)
      requires Reading(log, request) && Asks(request, cmd) && authenticated && !ended
      modifies this`deeds, this`ended
      ensures ended == !enqueued && (ended ==> Valid(log)) && (!ended ==> Reading(log, request))
      ensures deeds == if enqueued then old(deeds) + [Enqueue(cmd)] else old(deeds)
    {
      hide Gated, Paired, LoggedIn, Open, Forwarded;
      if enqueued {
        Do(Enqueue(cmd));
      } else {
        ended := true;
      }
    }

    /** One request, from reading it to its reply. */
    method Handle(request: Request, sent: bool, enqueued: bool, home: Option<seq<HomeSnapshot.RoomData>>, ghost log: seq<IOData>)
      requires Valid(log) && !ended
      modifies this
      ensures Valid(log) && heard == old(heard)
      ensures old(authenticated) && !ended ==> authenticated
      ensures old(deeds) + [Read(request)] <= deeds
      ensures sent && enqueued && home.Some? ==>
                deeds == old(deeds) + [Read(request)] + Reaction(verifyLogin, old(authenticated), request, home.value)
      ensures deeds <= old(deeds) + [Read(request)] + Reaction(verifyLogin, old(authenticated), request, ShownHome(home))
      ensures ended <==> EndsWith(verifyLogin, old(authenticated), request, sent, enqueued, home.Some?)
    {
      hide Gated, Paired, Forwarded, LoggedIn, Open, Reaction, EndsWith;
      Do(Read(request));
      React(request, sent, enqueued, home, log);
    }

    /** Between reading a request and the end of its turn. */
    method React(request: Request, sent: bool, enqueued: bool, home: Option<seq<HomeSnapshot.RoomData>>, ghost log: seq<IOData>)
      requires Reading(log, request) && !ended
      modifies this`authenticated, this`deeds, this`ended
      ensures Valid(log) && old(deeds) <= deeds
      ensures old(authenticated) && !ended ==> authenticated
      ensures sent && enqueued && home.Some? ==>
                deeds == old(deeds) + Reaction(verifyLogin, old(authenticated), request, home.value)
      ensures deeds <= old(deeds) + Reaction(verifyLogin, old(authenticated), request, ShownHome(home))
      ensures ended <==> EndsWith(verifyLogin, old(authenticated), request, sent, enqueued, home.Some?)
    {
      hide Gated, Paired, Forwarded, LoggedIn, Open;
      match request {
        case Pong(data) =>
          Send(PongReply(data), sent, request, log);
        case Login(user, pass) =>
          HandleLogin(user, pass, sent, log);
        case GetHome =>
          HandleGetHome(sent, enqueued, home, log);
        case SetState(cmd) =>
          HandleSetState(cmd, sent, enqueued, log);
        case Event(data) =>
          Send(EventReply(data), sent, request, log);
      }
    }

    method HandleLogin(user: string, pass: string, sent: bool, ghost log: seq<IOData>)
      requires Reading(log, Login(user, pass)) && !ended
      modifies this`authenticated, this`deeds, this`ended
      ensures Valid(log) && authenticated == verifyLogin(user, pass)
      ensures ended <==> !sent || !verifyLogin(user, pass)
      ensures deeds == old(deeds) + if sent then [Respond(LoginReply(verifyLogin(user, pass)))] else []
    {
      hide Gated, Paired, Forwarded, LoggedIn, Open;
      assert deeds + [] == deeds;
      var ok := verifyLogin(user, pass);
      authenticated := ok;
      if !ok {
        Refuse(sent, Login(user, pass), log);
      } else {
        Send(LoginReply(true), sent, Login(user, pass), log);
      }
    }

    method HandleGetHome(sent: bool, enqueued: bool, home: Option<seq<HomeSnapshot.RoomData>>, ghost log: seq<IOData>)
      requires Reading(log, GetHome) && !ended
      modifies this`deeds, this`ended
      ensures Valid(log) && old(deeds) <= deeds
      ensures ended <==> !sent || !authenticated || !enqueued || home.None?
      ensures deeds <= old(deeds) + if authenticated then [Enqueue(Pipeline.GetAllData), Respond(HomeReply(ShownHome(home)))]
                                    else [Respond(LoginReply(false))]
      ensures sent && enqueued && home.Some? ==>
                deeds == old(deeds) + if authenticated then [Enqueue(Pipeline.GetAllData), Respond(HomeReply(home.value))]
                                         else [Respond(LoginReply(false))]
    {
      hide Gated, Paired, Forwarded, LoggedIn, Open;
      if !authenticated {
        Refuse(sent, GetHome, log);
        return;
      }
      Ask(Pipeline.GetAllData, enqueued, GetHome, log);
      if ended {
        return;
      }
      if home.None? {
        ended := true;
        return;
      }
      Send(HomeReply(home.value), sent, GetHome, log);
    }

    method HandleSetState(cmd: IODataAction, sent: bool, enqueued: bool, ghost log: seq<IOData>)
      requires Reading(log, SetState(cmd)) && !ended
      modifies this`deeds, this`ended
      ensures Valid(log) && old(deeds) <= deeds
      ensures ended <==> !sent || !authenticated || !enqueued
      ensures deeds <= old(deeds) + if authenticated then [Enqueue(Pipeline.Action(cmd)), Respond(SetStateReply)]
                                    else [Respond(LoginReply(false))]
      ensures sent && enqueued ==>
                deeds == old(deeds) + if authenticated then [Enqueue(Pipeline.Action(cmd)), Respond(SetStateReply)]
                                         else [Respond(LoginReply(false))]
    {
      hide Gated, Paired, Forwarded, LoggedIn, Open;
      if !authenticated {
        Refuse(sent, SetState(cmd), log);
        return;
      }
      Ask(Pipeline.Action(cmd), enqueued, SetState(cmd), log);
      if !ended {
        Send(SetStateReply, sent, SetState(cmd), log);
      }
    }

    /** One turn of the loop: a client frame, or a feedback message when the session is authenticated. A frame that carries no
        request ends the session without a deed; so does a receiver that lags. */
    method Turn(happening: Happening, log: seq<IOData>)
      requires Valid(log) && !ended
      modifies this
      ensures Valid(log) && old(deeds) <= deeds
      ensures old(authenticated) && !ended ==> authenticated
      ensures happening.ClientSends? && Carried(happening.message).Some?
              && happening.sent && happening.enqueued && happening.home.Some? ==>
                deeds == old(deeds) + [Read(Carried(happening.message).value)]
                         + Reaction(verifyLogin, old(authenticated), Carried(happening.message).value, happening.home.value)
      ensures happening.ClientSends? && happening.message.Text? && happening.message.request.Some? ==>
                old(deeds) + [Read(happening.message.request.value)] <= deeds
      ensures happening.ClientSends? && happening.message.Ping? ==> old(deeds) + [Read(Pong(happening.message.data))] <= deeds
      ensures happening.FeedbackArrives? && !happening.lagging && happening.sent ==>
                deeds == old(deeds) + if old(authenticated) && old(heard) < |log| then [Forward(log[old(heard)])] else []
      ensures happening.ClientGone? || (happening.ClientSends? && Carried(happening.message).None?) ==>
                ended && deeds == old(deeds)
      ensures happening.ClientSends? && Carried(happening.message).Some? ==>
                (ended <==> EndsWith(verifyLogin, old(authenticated), Carried(happening.message).value, happening.sent,
                                     happening.enqueued, happening.home.Some?))
      ensures happening.FeedbackArrives? ==>
                && (ended <==> old(authenticated) && (happening.lagging || !happening.sent))
                && (ended ==> deeds == old(deeds))
    {
      hide Gated, Paired, LoggedIn, Open, Reaction, EndsWith;
      match happening {
        case ClientGone =>
          ended := true;
        case ClientSends(message, sent, enqueued, home) =>
          match message {
            case Text(Some(request)) =>
              Handle(request, sent, enqueued, home, log);
            case Ping(data) =>
              Handle(Pong(data), sent, enqueued, home, log);
            case _ =>
              ended := true;
          }
        case FeedbackArrives(lagging, sent) =>
          if authenticated {
            if lagging || !sent {
              ended := true;
            } else if heard < |log| {
              Do(Forward(log[heard]));
              heard := heard + 1;
              assert log[..heard] == log[..heard - 1] + [log[heard - 1]];
            }
          }
      }
    }

    /** The life of a session. Whatever the client and the network do: no command is enqueued and no event forwarded before a
        successful login has been answered; every request has its own reply before the next is read, and none is left without
        one unless the session has ended; the events forwarded are a prefix of the feedback since the connection was accepted. */
    method Run(log: seq<IOData>, script: seq<Happening>)
      requires Valid(log)
      modifies this
      ensures Gated(deeds)
      ensures Paired(deeds) && (!ended ==> Open(deeds).None?)
      ensures Forwarded(deeds) <= log
      ensures old(authenticated) && !ended ==> authenticated
    {
      hide Gated, Paired, Forwarded, LoggedIn, Open;
      for i := 0 to |script|
        invariant Valid(log)
        invariant old(authenticated) && !ended ==> authenticated
      {
        if ended {
          break;
        }
        Turn(script[i], log);
      }
    }
  }
}
