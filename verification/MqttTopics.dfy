/** Command topics (`mqtt_client.rs`): the subscription filter and the decoding of what it lets through. */
module MqttTopics {
  import opened Basics
  import opened IoValues
  import Decimal

  /** `str::split('/')`: always at least one part. */
  function Split(s: string): (parts: seq<string>)
    ensures |parts| >= 1
  {
    if s == [] then [""] else Prepend(s[0], Split(s[1..]))
  }

  function Prepend(c: char, parts: seq<string>): (parts': seq<string>)
    requires |parts| >= 1
    ensures |parts'| == if c == '/' then 1 + |parts| else |parts|
  {
    if c == '/' then [""] + parts else [[c] + parts[0]] + parts[1..]
  }

  /** The id that a command topic carries. */
  function CommandId(topic: string, nodeId: string): Option<Id>
  {
    var parts := Split(topic);
    if |parts| != 3 || parts[0] != nodeId || parts[1] != "set" then None else Some(parts[2])
  }

  /** The action of a payload, given in upper case. */
  function PayloadAction(payload: string): Option<IOAction>
  {
    if payload == "ON" then Some(SetValue(Bool(true)))
    else if payload == "OFF" then Some(SetValue(Bool(false)))
    else if payload == "OPEN" then Some(SetValue(Shutter(Up)))
    else if payload == "CLOSE" then Some(SetValue(Shutter(Down)))
    else if payload == "STOP" then Some(Stop)
    else if payload == "TOGGLE" then Some(Toggle)
    else None
  }

  /** `handle_command`: what is sent to the output queue. */
  function HandleCommand(topic: string, upperPayload: string, nodeId: string): Option<IODataAction>
  {
    match CommandId(topic, nodeId)
    case None => None
    case Some(id) =>
      match PayloadAction(upperPayload)
      case None => None
      case Some(action) => Some(IODataAction(id, action))
  }

  /** `encode_state_string`: the state published for a value. */
  function EncodeState(value: IOValue): string
  {
    match value
    case Bool(b) => if b then "ON" else "OFF"
    case Int(i) => Decimal.PrintSigned(i)
    case Text(s) => s
    case Shutter(Up) => "open"
    case Shutter(Down) => "closed"
    case Shutter(MovingUp) => "opening"
    case Shutter(MovingDown) => "closing"
  }

  /** The payloads that are commands, all of them, and what they mean: no two mean the same. */
  lemma PayloadIff(payload: string, action: IOAction)
    ensures PayloadAction(payload) == Some(action) <==>
            || (payload == "ON" && action == SetValue(Bool(true)))
            || (payload == "OFF" && action == SetValue(Bool(false)))
            || (payload == "OPEN" && action == SetValue(Shutter(Up)))
            || (payload == "CLOSE" && action == SetValue(Shutter(Down)))
            || (payload == "STOP" && action == Stop)
            || (payload == "TOGGLE" && action == Toggle)
  {
    Distinct(payload);
  }

  lemma Distinct(s: string)
    ensures s == "ON" ==> s !in {"OFF", "OPEN", "CLOSE", "STOP", "TOGGLE"}
    ensures s == "OFF" ==> s !in {"OPEN", "CLOSE", "STOP", "TOGGLE"}
    ensures s == "OPEN" ==> s !in {"CLOSE", "STOP", "TOGGLE"}
    ensures s == "CLOSE" ==> s !in {"STOP", "TOGGLE"}
    ensures s == "STOP" ==> s !in {"TOGGLE"}
  {
    assert "STOP"[0] == 'S' && "OPEN"[0] == 'O';
  }

  /** The published states: the value can be told from its text within its kind, in the words of the protocol. */
  lemma StatesPublished(b: bool, state: ShutterState, i: i32, text: string)
    ensures EncodeState(Bool(b)) == "ON" <==> b
    ensures EncodeState(Bool(b)) == "OFF" <==> !b
    ensures EncodeState(Shutter(state)) == "open" <==> state.Up?
    ensures EncodeState(Shutter(state)) == "closed" <==> state.Down?
    ensures EncodeState(Shutter(state)) == "opening" <==> state.MovingUp?
    ensures EncodeState(Shutter(state)) == "closing" <==> state.MovingDown?
    ensures ParseValue(EncodeState(Int(i))) == Int(i)
    ensures EncodeState(Text(text)) == text
  {
    assert "closed"[4] == 'e' && "closing"[4] == 'i' && "opening"[0] == 'o';
    Decimal.ParseUndoesPrint(i, I32_BOUND);
  }

  /** Upper case, for the letters that published states consist of. */
  function Upper(s: string): string
  {
    if s == "" then ""
    else [if 'a' <= s[0] <= 'z' then (s[0] as int - 'a' as int + 'A' as int) as char else s[0]] + Upper(s[1..])
  }

  /** Any published switch state is a command for that state; of the published shutter states only "open" is a command. */
  lemma PublishedStates(value: IOValue)
    requires value.Bool? || value.Shutter?
    ensures PayloadAction(Upper(EncodeState(value)))
            == if value.Bool? || value.state.Up? then Some(SetValue(value)) else None
  {
    var text := EncodeState(value);
    if |text| > 4 {
      UpperAt(text, 5);
      UpperAt(text, 0);
    } else {
      UpperShort(text);
    }
  }

  lemma {:induction false} UpperAt(s: string, i: nat)
    requires i < |s|
    ensures |Upper(s)| == |s|
    ensures Upper(s)[i] == if 'a' <= s[i] <= 'z' then (s[i] as int - 'a' as int + 'A' as int) as char else s[i]
  {
    if |s| > 1 {
      UpperAt(s[1..], if i > 0 then i - 1 else 0);
    }
  }

  lemma UpperShort(s: string)
    requires 2 <= |s| <= 4
    ensures |Upper(s)| == |s|
    ensures s == "ON" ==> Upper(s) == "ON"
    ensures s == "OFF" ==> Upper(s) == "OFF"
    ensures s == "open" ==> Upper(s) == "OPEN"
  {
    UpperAt(s, 0);
    forall i | 0 <= i < |s|
      ensures Upper(s)[i] == if 'a' <= s[i] <= 'z' then (s[i] as int - 'a' as int + 'A' as int) as char else s[i]
    {
      UpperAt(s, i);
    }
  }

  /** Topic filter matching, section 4.7.1 of MQTT Version 3.1.1, level by level. */
  predicate LevelsMatch(filter: seq<string>, topic: seq<string>)
  {
    if filter == [] then topic == []
    else if filter[0] == "#" then |filter| == 1
    else topic != [] && (filter[0] == "+" || filter[0] == topic[0]) && LevelsMatch(filter[1..], topic[1..])
  }

  /** `subscribe_to_commands` */
  function CommandFilter(nodeId: string): string
  {
    nodeId + "/set/+"
  }

  /** Wildcards take up a whole level, and the multi-level wildcard is the last one (sections 4.7.1.2 and 4.7.1.3). A broker does
      not accept any other filter. */
  predicate ValidFilter(filter: seq<string>)
  {
    forall i :: 0 <= i < |filter| ==>
      && ('+' in filter[i] ==> filter[i] == "+")
      && ('#' in filter[i] ==> filter[i] == "#" && i == |filter| - 1)
  }

  predicate Delivered(topic: string, nodeId: string)
  {
    var filter := Split(CommandFilter(nodeId));
    ValidFilter(filter) && LevelsMatch(filter, Split(topic))
  }

  predicate NoWildcard(s: string)
  {
    '+' !in s && '#' !in s
  }

  lemma {:induction false} SplitConcat(a: string, b: string)
    ensures Split(a + "/" + b) == Split(a) + Split(b)
  {
    if a == [] {
      assert a + "/" + b == ['/'] + b;
      assert (['/'] + b)[1..] == b;
    } else {
      assert (a + "/" + b)[0] == a[0] && (a + "/" + b)[1..] == a[1..] + "/" + b;
      SplitConcat(a[1..], b);
      PrependConcat(a[0], Split(a[1..]), Split(b));
    }
  }

  lemma PrependConcat(c: char, p: seq<string>, q: seq<string>)
    requires |p| >= 1
    ensures Prepend(c, p + q) == Prepend(c, p) + q
  {
    if c != '/' {
      assert (p + q)[1..] == p[1..] + q;
    }
  }

  /** One level exactly when there is no separator. */
  lemma {:induction false} SplitSingle(s: string)
    ensures '/' !in s ==> Split(s) == [s]
    ensures '/' in s ==> |Split(s)| >= 2
  {
    if s != [] {
      SplitSingle(s[1..]);
      assert s == [s[0]] + s[1..];
    }
  }

  lemma {:induction false} PartsAreClean(s: string, i: nat)
    requires NoWildcard(s) && i < |Split(s)|
    ensures Split(s)[i] != "+" && Split(s)[i] != "#"
    decreases |s|
  {
    if s != [] {
      assert NoWildcard(s[1..]);
      PartsHaveChars(s, i);
    }
  }

  lemma {:induction false} PartsHaveChars(s: string, i: nat)
    requires i < |Split(s)|
    ensures forall c :: c in Split(s)[i] ==> c in s
  {
    if s != [] {
      var rest := Split(s[1..]);
      assert s == [s[0]] + s[1..];
      if s[0] == '/' {
        if i > 0 {
          PartsHaveChars(s[1..], i - 1);
        }
      } else {
        PartsHaveChars(s[1..], i);
      }
    }
  }

  lemma FilterLevels(nodeId: string)
    ensures Split(CommandFilter(nodeId)) == Split(nodeId) + ["set", "+"]
  {
    assert CommandFilter(nodeId) == nodeId + "/" + "set/+";
    assert "set/+" == "set" + "/" + "+";
    SplitConcat(nodeId, "set/+");
    SplitConcat("set", "+");
    SplitSingle("set");
    SplitSingle("+");
  }

  /** Without a multi-level wildcard a filter matches level by level. */
  lemma {:induction false} LevelByLevel(filter: seq<string>, topic: seq<string>)
    requires forall i :: 0 <= i < |filter| ==> filter[i] != "#"
    ensures LevelsMatch(filter, topic) <==>
            |filter| == |topic| && forall i :: 0 <= i < |filter| ==> filter[i] == "+" || filter[i] == topic[i]
  {
    if filter != [] && topic != [] {
      LevelByLevel(filter[1..], topic[1..]);
      assert forall i :: 0 < i < |filter| ==> filter[i] == filter[1..][i - 1];
      assert forall i :: 0 < i < |topic| ==> topic[i] == topic[1..][i - 1];
      assert forall i :: 0 <= i < |filter[1..]| ==> filter[1..][i] == filter[i + 1];
      assert forall i :: 0 <= i < |topic[1..]| ==> topic[1..][i] == topic[i + 1];
    }
  }

  /** A valid command filter has no multi-level wildcard: its last level is the single-level one. */
  lemma ValidFilterIsFinite(nodeId: string)
    requires ValidFilter(Split(CommandFilter(nodeId)))
    ensures forall i :: 0 <= i < |Split(CommandFilter(nodeId))| ==> Split(CommandFilter(nodeId))[i] != "#"
  {
    FilterLevels(nodeId);
    assert '#' in "#";
  }

  /** For a node id of one level without wildcards, the broker delivers exactly the topics that decode. */
  lemma DeliveredIffDecoded(nodeId: string, topic: string)
    requires NoWildcard(nodeId) && '/' !in nodeId
    ensures Delivered(topic, nodeId) <==> CommandId(topic, nodeId).Some?
  {
    FilterLevels(nodeId);
    SplitSingle(nodeId);
    var filter := [nodeId, "set", "+"];
    assert Split(CommandFilter(nodeId)) == filter;
    assert '#' !in filter[0] && '#' !in filter[1] && '#' !in filter[2];
    LevelByLevel(filter, Split(topic));
  }

  lemma {:induction false} PartsHaveNoSeparator(s: string, i: nat)
    requires i < |Split(s)|
    ensures '/' !in Split(s)[i]
  {
    if s != [] {
      var rest := Split(s[1..]);
      if s[0] == '/' {
        if i > 0 {
          PartsHaveNoSeparator(s[1..], i - 1);
        }
      } else {
        PartsHaveNoSeparator(s[1..], i);
        assert Split(s)[i] == if i == 0 then [s[0]] + rest[0] else rest[i];
      }
    }
  }

  lemma NeverDecoded(nodeId: string, topic: string)
    requires '/' in nodeId
    ensures CommandId(topic, nodeId).None?
  {
    PartsHaveNoSeparator(topic, 0);
  }

  lemma CommandTopic(nodeId: string, id: string)
    ensures Split(nodeId + "/set/" + id) == Split(nodeId) + ["set"] + Split(id)
  {
    assert nodeId + "/set/" + id == nodeId + "/" + ("set" + "/" + id);
    SplitConcat(nodeId, "set" + "/" + id);
    SplitConcat("set", id);
    SplitSingle("set");
  }

  /** A valid filter over several levels lets a topic through that is then ignored. */
  lemma SeveralLevelsDisagree(nodeId: string)
    requires '/' in nodeId && ValidFilter(Split(CommandFilter(nodeId)))
    ensures Delivered(nodeId + "/set/x", nodeId)
  {
    FilterLevels(nodeId);
    CommandTopic(nodeId, "x");
    SplitSingle("x");
    assert nodeId + "/set/" + "x" == nodeId + "/set/x";
    ValidFilterIsFinite(nodeId);
    LevelByLevel(Split(CommandFilter(nodeId)), Split(nodeId + "/set/x"));
  }

  lemma WildcardDisagrees(nodeId: string) returns (topic: string)
    requires '/' !in nodeId && !NoWildcard(nodeId)
    ensures Delivered(topic, nodeId) != CommandId(topic, nodeId).Some?
  {
    FilterLevels(nodeId);
    SplitSingle(nodeId);
    var filter := Split(CommandFilter(nodeId));
    assert filter == [nodeId, "set", "+"];
    topic := (if nodeId == "+" then "x" else nodeId) + "/set/" + "x";
    CommandTopic(if nodeId == "+" then "x" else nodeId, "x");
    SplitSingle("x");
    if nodeId == "+" {
      assert '#' !in filter[0] && '#' !in filter[1] && '#' !in filter[2];
      LevelByLevel(filter, Split(topic));
    } else {
      assert filter[0] == nodeId;
    }
  }

  /** Subscription and decoding agree on all topics exactly for two kinds of node ids: those of one level without wildcards, and
      those of several levels for which the broker refuses the subscription, so that nothing is delivered and nothing would be
      decoded. With any other separator in the node id the broker delivers commands that are then ignored. */
  lemma AgreementIff(nodeId: string)
    ensures (forall topic :: Delivered(topic, nodeId) <==> CommandId(topic, nodeId).Some?) <==>
            if '/' in nodeId then !ValidFilter(Split(CommandFilter(nodeId))) else NoWildcard(nodeId)
  {
    hide CommandId, ValidFilter, LevelsMatch, NoWildcard;
    if '/' in nodeId {
      if ValidFilter(Split(CommandFilter(nodeId))) {
        SeveralLevelsDisagree(nodeId);
      }
      forall topic
        ensures CommandId(topic, nodeId).None?
      {
        NeverDecoded(nodeId, topic);
      }
    } else if NoWildcard(nodeId) {
      forall topic
        ensures Delivered(topic, nodeId) <==> CommandId(topic, nodeId).Some?
      {
        DeliveredIffDecoded(nodeId, topic);
      }
    } else {
      var topic := WildcardDisagrees(nodeId);
    }
  }

  /** The topic built for an output decodes to its id exactly when the id is one level. */
  lemma TopicCarriesId(nodeId: string, id: Id)
    requires '/' !in nodeId
    ensures CommandId(nodeId + "/set/" + id, nodeId) == Some(id) <==> '/' !in id
  {
    CommandTopic(nodeId, id);
    SplitSingle(nodeId);
    SplitSingle(id);
  }

  /** The levels put together again. */
  function Join(parts: seq<string>): string
    requires |parts| >= 1
  {
    if |parts| == 1 then parts[0] else parts[0] + "/" + Join(parts[1..])
  }

  lemma {:induction false} JoinUndoesSplit(s: string)
    ensures Join(Split(s)) == s
  {
    if s != [] {
      JoinUndoesSplit(s[1..]);
      var rest := Split(s[1..]);
      if s[0] == '/' {
        assert ([""] + rest)[1..] == rest;
      } else {
        assert ([[s[0]] + rest[0]] + rest[1..])[1..] == rest[1..];
      }
    }
  }

  /** What is sent to the output queue, exactly: a command, for the one level that its topic has below the node id and "set", if
      the payload is one of the six known. */
  lemma HandledIff(topic: string, upperPayload: string, nodeId: string, cmd: IODataAction)
    ensures HandleCommand(topic, upperPayload, nodeId) == Some(cmd) <==>
            && '/' !in nodeId && '/' !in cmd.id && topic == nodeId + "/set/" + cmd.id
            && PayloadAction(upperPayload) == Some(cmd.action)
  {
    hide Split, PayloadAction;
    if HandleCommand(topic, upperPayload, nodeId) == Some(cmd) {
      var parts := Split(topic);
      PartsHaveNoSeparator(topic, 0);
      PartsHaveNoSeparator(topic, 2);
      JoinUndoesSplit(topic);
      assert parts == [nodeId, "set", cmd.id];
      assert parts[1..] == ["set", cmd.id] && parts[1..][1..] == [cmd.id];
      assert Join(parts[1..]) == "set" + "/" + cmd.id;
      assert nodeId + "/" + ("set" + "/" + cmd.id) == nodeId + "/set/" + cmd.id;
    }
    if '/' !in nodeId && '/' !in cmd.id {
      TopicCarriesId(nodeId, cmd.id);
    }
  }
}
