/**
  The agent's turn-taking engine (agent.py): an append-only conversation
  history, one model request per call of `run`, dispatch of the reply's
  function calls against the tool registry, and a recursive call with the
  collected function responses until a reply carries no function call. Also
  the classification of console input and the display of the final reply
  done by `main`.

  The model endpoint is a parameter: a function from the request to the
  content of the reply's first candidate. The source bounds the number of
  tool rounds by nothing; here `fuel` bounds them and `RoundLimit` reports a
  reply that still asked for tools when the bound was reached.
*/
module Agent {
  import opened Json
  import opened Strings
  import opened Registry

  // ---------------------------------------------------------------------------
  // Conversation data
  // ---------------------------------------------------------------------------

  /** A function call requested by the model: a tool name and keyword arguments. */
  datatype Call = Call(name: string, args: map<string, Json>)

  /** One part of a turn: text, a function call, or a function response. */
  datatype Part =
    | TextPart(text: string)
    | CallPart(call: Call)
    | ResponsePart(name: string, response: Json)

  /** One entry of the conversation history. */
  datatype Content = Content(role: string, parts: seq<Part>)

  /** What `run` is given: the user's text, or the function responses of the previous round. */
  datatype Input = UserText(text: string) | FunctionResponses(parts: seq<Part>)

  /** What one model request carries besides the model's name. */
  datatype Request = Request(
    model: string,
    contents: seq<Content>,
    systemInstruction: string,
    declarations: set<Declaration>)

  /** The agent's configuration together with the model endpoint. */
  datatype Session = Session(
    model: string,
    tools: Tools,
    systemInstruction: string,
    endpoint: Request -> Content)

  /** How an exchange ends: with a reply that asks for no tool, or at the round bound. */
  datatype Outcome = Done(reply: Content) | RoundLimit

  // ---------------------------------------------------------------------------
  // Turns and requests
  // ---------------------------------------------------------------------------

  /** The user turn `run` appends for its input. */
  function UserTurn(input: Input): (c: Content)
    ensures c.role == "user"
    ensures input.UserText? ==> c.parts == [TextPart(input.text)]
    ensures input.FunctionResponses? ==> c.parts == input.parts
  {
    match input
    case UserText(text) => Content("user", [TextPart(text)])
    case FunctionResponses(parts) => Content("user", parts)
  }

  /** The declarations of every registered tool: no per-turn filtering. */
  function Declarations(tools: Tools): (ds: set<Declaration>)
    ensures forall k :: k in tools ==> tools[k].definition in ds
    ensures forall d :: d in ds ==> exists k :: k in tools && tools[k].definition == d
  {
    set k | k in tools :: tools[k].definition
  }

  /** The request sent for a given history. */
  function RequestFor(s: Session, contents: seq<Content>): Request {
    Request(s.model, contents, s.systemInstruction, Declarations(s.tools))
  }

  /** `response.function_calls`: the function-call parts of a reply, in order. */
  function CallsIn(parts: seq<Part>): (calls: seq<Call>)
    ensures |calls| <= |parts|
    ensures forall c :: c in calls <==> CallPart(c) in parts
  {
    if parts == [] then []
    else
      var rest := CallsIn(parts[1..]);
      assert forall p :: p in parts <==> p == parts[0] || p in parts[1..];
      if parts[0].CallPart? then [parts[0].call] + rest else rest
  }

  /** The calls of two runs of parts are the calls of the first, then those of the second. */
  lemma {:induction false} CallsInConcat(a: seq<Part>, b: seq<Part>)
    ensures CallsIn(a + b) == CallsIn(a) + CallsIn(b)
  {
    if a != [] {
      assert (a + b)[0] == a[0];
      assert (a + b)[1..] == a[1..] + b;
      CallsInConcat(a[1..], b);
    } else {
      assert a + b == b;
    }
  }

  /** A call part contributes its call; any other part contributes nothing. */
  lemma CallsInSingle(p: Part)
    ensures p.CallPart? ==> CallsIn([p]) == [p.call]
    ensures !p.CallPart? ==> CallsIn([p]) == []
  {
    assert [p][1..] == [];
  }

  function FunctionCalls(reply: Content): seq<Call> {
    CallsIn(reply.parts)
  }

  /** `if response.function_calls:`: the reply asks for at least one tool. */
  predicate AsksForTools(reply: Content) {
    |FunctionCalls(reply)| > 0
  }

  // ---------------------------------------------------------------------------
  // Dispatch of one round
  // ---------------------------------------------------------------------------

  /** The error text for a call to an unregistered tool. */
  function NotFoundMessage(name: string): string {
    "Tool '" + name + "' not found."
  }

  /** The error text names the tool: two different names never give the same text. */
  lemma NotFoundMessageNamesTool(name1: string, name2: string)
    ensures NotFoundMessage(name1) == NotFoundMessage(name2) ==> name1 == name2
  {
    var m1, m2 := NotFoundMessage(name1), NotFoundMessage(name2);
    if m1 == m2 {
      assert name1 == m1[6..|m1| - 12];
      assert name2 == m2[6..|m2| - 12];
    }
  }

  /** The function response for one call, echoing the call's name. */
  function Resolve(tools: Tools, call: Call): (p: Part)
    ensures p.ResponsePart? && p.name == call.name
  {
    if call.name !in tools then
      ResponsePart(call.name, JObject(map["error" := JString(NotFoundMessage(call.name))]))
    else
      ResponsePart(call.name, JObject(map["result" := tools[call.name].invoke(call.args)]))
  }

  /**
    The payload of a function response is an object with one key: `error`
    exactly when the tool is unknown, carrying the not-found text (nothing is
    invoked), and otherwise `result`, carrying the tool applied to the call's
    arguments.
  */
  lemma ResolvePayload(tools: Tools, call: Call)
    ensures var p := Resolve(tools, call);
      && p.response.JObject? && |p.response.fields| == 1
      && (call.name !in tools <==> "error" in p.response.fields)
      && (call.name in tools <==> "result" in p.response.fields)
      && (call.name !in tools ==> p.response.fields["error"] == JString(NotFoundMessage(call.name)))
      && (call.name in tools ==> p.response.fields["result"] == tools[call.name].invoke(call.args))
  {
    assert "error"[0] != "result"[0];
  }

  /** One function response per call, in call order. */
  function DispatchAll(tools: Tools, calls: seq<Call>): (parts: seq<Part>)
    ensures |parts| == |calls|
    ensures forall i :: 0 <= i < |calls| ==> parts[i] == Resolve(tools, calls[i])
  {
    if calls == [] then [] else [Resolve(tools, calls[0])] + DispatchAll(tools, calls[1..])
  }

  // ---------------------------------------------------------------------------
  // The exchange, as a function of the history
  // ---------------------------------------------------------------------------

  /** One call of `run`: the turn it appends, the request it sends and the reply it appends. */
  datatype Round = Round(turn: Content, request: Request, reply: Content)

  /** Every round of one exchange and how it ended. */
  datatype Trace = Trace(rounds: seq<Round>, outcome: Outcome)

  /** The history entries the rounds append: each round's turn, then its reply. */
  function Turns(rounds: seq<Round>): (h: seq<Content>)
    ensures |h| == 2 * |rounds|
  {
    if rounds == [] then [] else [rounds[0].turn, rounds[0].reply] + Turns(rounds[1..])
  }

  lemma TurnsCons(r: Round, rounds: seq<Round>)
    ensures Turns([r] + rounds) == [r.turn, r.reply] + Turns(rounds)
  {
    assert ([r] + rounds)[1..] == rounds;
  }

  /** Each round appends two entries: its turn at an even offset, its reply right after. */
  lemma {:induction false} TurnsLayout(rounds: seq<Round>)
    ensures forall i :: 0 <= i < |rounds| ==>
      Turns(rounds)[2 * i] == rounds[i].turn && Turns(rounds)[2 * i + 1] == rounds[i].reply
  {
    if rounds != [] {
      var rest := rounds[1..];
      TurnsLayout(rest);
      assert rounds == [rounds[0]] + rest;
      TurnsCons(rounds[0], rest);
      forall i | 1 <= i < |rounds|
        ensures Turns(rounds)[2 * i] == rounds[i].turn && Turns(rounds)[2 * i + 1] == rounds[i].reply
      {
        assert rounds[i] == rest[i - 1];
        assert Turns(rounds)[2 * i] == Turns(rest)[2 * (i - 1)];
        assert Turns(rounds)[2 * i + 1] == Turns(rest)[2 * (i - 1) + 1];
      }
    }
  }

  /** The requests the rounds send, in order. */
  function Requests(rounds: seq<Round>): (q: seq<Request>)
    ensures |q| == |rounds|
    ensures forall i :: 0 <= i < |rounds| ==> q[i] == rounds[i].request
  {
    seq(|rounds|, i requires 0 <= i < |rounds| => rounds[i].request)
  }

  lemma AppendAssoc<T>(a: seq<T>, b: seq<T>, c: seq<T>)
    ensures a + b + c == a + (b + c)
  {
  }

  lemma TraceSingle(r: Round)
    ensures Turns([r]) == [r.turn, r.reply] && Requests([r]) == [r.request]
  {
  }

  lemma TraceCons(r: Round, rounds: seq<Round>)
    ensures Turns([r] + rounds) == [r.turn, r.reply] + Turns(rounds)
    ensures Requests([r] + rounds) == [r.request] + Requests(rounds)
  {
    TurnsCons(r, rounds);
  }

  /** The first round of `run(input)` on a history: the user turn, the request, the model's reply. */
  function FirstRound(s: Session, history: seq<Content>, input: Input): (r: Round)
    ensures r.request.contents == history + [UserTurn(input)] && r.turn == UserTurn(input)
    ensures r.request.declarations == Declarations(s.tools)
    ensures r.reply == s.endpoint(r.request)
  {
    var turn := UserTurn(input);
    var request := RequestFor(s, history + [turn]);
    Round(turn, request, s.endpoint(request))
  }

  /** The input of the recursive call after a reply: the responses to its calls. */
  function Followup(s: Session, reply: Content): (next: Input)
    ensures next.FunctionResponses? && |next.parts| == |FunctionCalls(reply)|
    ensures forall i :: 0 <= i < |next.parts| ==>
      next.parts[i].ResponsePart? && next.parts[i].name == FunctionCalls(reply)[i].name
  {
    FunctionResponses(DispatchAll(s.tools, FunctionCalls(reply)))
  }

  /**
    `run(input)` on the given history, allowed `fuel` further recursive calls:
    append the user turn, ask the model, append its reply and, if the reply
    asks for tools, recurse with their responses.
  */
  function Exchange(s: Session, history: seq<Content>, input: Input, fuel: nat): Trace
    decreases fuel
  {
    var round := FirstRound(s, history, input);
    if !AsksForTools(round.reply) then Trace([round], Done(round.reply))
    else if fuel == 0 then Trace([round], RoundLimit)
    else
      var next := Exchange(s, history + [round.turn, round.reply], Followup(s, round.reply), fuel - 1);
      Trace([round] + next.rounds, next.outcome)
  }

  /** The cases of `Exchange` that make no recursive call: a reply without calls, or no fuel left. */
  lemma ExchangeStops(s: Session, history: seq<Content>, input: Input, fuel: nat)
    requires !AsksForTools(FirstRound(s, history, input).reply) || fuel == 0
    ensures var r := FirstRound(s, history, input);
      Exchange(s, history, input, fuel)
        == Trace([r], if !AsksForTools(r.reply) then Done(r.reply) else RoundLimit)
  {
  }

  /** Every exchange makes at least one round, and its first round is the one for the input. */
  lemma ExchangeBegins(s: Session, history: seq<Content>, input: Input, fuel: nat)
    ensures var t := Exchange(s, history, input, fuel);
      t.rounds != [] && t.rounds[0] == FirstRound(s, history, input)
  {
  }

  /** The recursive case of `Exchange`, with the rounds of the continuation shifted by one. */
  lemma ExchangeRecurs(s: Session, history: seq<Content>, input: Input, fuel: nat)
    requires AsksForTools(FirstRound(s, history, input).reply) && fuel > 0
    ensures var r := FirstRound(s, history, input);
      var t := Exchange(s, history, input, fuel);
      var next := Exchange(s, history + [r.turn, r.reply], Followup(s, r.reply), fuel - 1);
      && t.rounds == [r] + next.rounds && t.outcome == next.outcome
  {
  }

  /** What a call of `run` that makes no recursive call adds to the history and to the requests sent. */
  lemma ExchangeStopsAppends(s: Session, history: seq<Content>, sent: seq<Request>, input: Input, fuel: nat)
    requires !AsksForTools(FirstRound(s, history, input).reply) || fuel == 0
    ensures var r := FirstRound(s, history, input);
      var t := Exchange(s, history, input, fuel);
      && history + Turns(t.rounds) == history + [r.turn, r.reply]
      && sent + Requests(t.rounds) == sent + [r.request]
      && t.outcome == (if !AsksForTools(r.reply) then Done(r.reply) else RoundLimit)
  {
    ExchangeStops(s, history, input, fuel);
    TraceSingle(FirstRound(s, history, input));
  }

  /** What a call of `run` that recurses adds: its own round, then what the recursive call adds. */
  lemma ExchangeRecursAppends(s: Session, history: seq<Content>, sent: seq<Request>, input: Input, fuel: nat)
    requires AsksForTools(FirstRound(s, history, input).reply) && fuel > 0
    ensures var r := FirstRound(s, history, input);
      var t := Exchange(s, history, input, fuel);
      var next := Exchange(s, history + [r.turn, r.reply], Followup(s, r.reply), fuel - 1);
      && history + Turns(t.rounds) == (history + [r.turn, r.reply]) + Turns(next.rounds)
      && sent + Requests(t.rounds) == (sent + [r.request]) + Requests(next.rounds)
      && t.outcome == next.outcome
  {
    var r := FirstRound(s, history, input);
    ExchangeRecurs(s, history, input, fuel);
    var next := Exchange(s, history + [r.turn, r.reply], Followup(s, r.reply), fuel - 1);
    TraceCons(r, next.rounds);
    AppendAssoc(history, [r.turn, r.reply], Turns(next.rounds));
    AppendAssoc(sent, [r.request], Requests(next.rounds));
  }

  /** An exchange makes between 1 and `fuel + 1` rounds, and all `fuel + 1` when it hits the bound. */
  lemma {:induction false} ExchangeLength(s: Session, history: seq<Content>, input: Input, fuel: nat)
    ensures var t := Exchange(s, history, input, fuel);
      && 1 <= |t.rounds| <= fuel + 1
      && (t.outcome.RoundLimit? ==> |t.rounds| == fuel + 1)
    decreases fuel
  {
    var r := FirstRound(s, history, input);
    if !AsksForTools(r.reply) || fuel == 0 {
      ExchangeStops(s, history, input, fuel);
    } else {
      ExchangeLength(s, history + [r.turn, r.reply], Followup(s, r.reply), fuel - 1);
      ExchangeRecurs(s, history, input, fuel);
    }
  }

  /** Every round but the last got a reply that asked for tools. */
  lemma {:induction false} ExchangeCallsBeforeLast(s: Session, history: seq<Content>, input: Input, fuel: nat)
    ensures var t := Exchange(s, history, input, fuel);
      forall i :: 0 <= i < |t.rounds| - 1 ==> AsksForTools(t.rounds[i].reply)
    decreases fuel
  {
    var r := FirstRound(s, history, input);
    if !AsksForTools(r.reply) || fuel == 0 {
      ExchangeStops(s, history, input, fuel);
    } else {
      var t := Exchange(s, history, input, fuel);
      var next := Exchange(s, history + [r.turn, r.reply], Followup(s, r.reply), fuel - 1);
      ExchangeCallsBeforeLast(s, history + [r.turn, r.reply], Followup(s, r.reply), fuel - 1);
      ExchangeRecurs(s, history, input, fuel);
      forall i | 0 < i < |t.rounds| - 1
        ensures AsksForTools(t.rounds[i].reply)
      {
        assert t.rounds[i] == next.rounds[i - 1];
      }
    }
  }

  lemma LastOfCons(r: Round, rest: seq<Round>)
    requires rest != []
    ensures |[r] + rest| == |rest| + 1 && ([r] + rest)[|rest|] == rest[|rest| - 1]
  {
  }

  /**
    How an exchange ends: `Done` carries the last round's reply, which asks
    for no tool; `RoundLimit` follows a last reply that still asked for tools.
  */
  lemma {:induction false} ExchangeLastReply(s: Session, history: seq<Content>, input: Input, fuel: nat)
    ensures var t := Exchange(s, history, input, fuel);
      && |t.rounds| >= 1
      && (t.outcome.Done? <==> !AsksForTools(t.rounds[|t.rounds| - 1].reply))
      && (t.outcome.Done? ==> t.outcome.reply == t.rounds[|t.rounds| - 1].reply)
    decreases fuel
  {
    var r := FirstRound(s, history, input);
    if !AsksForTools(r.reply) || fuel == 0 {
      ExchangeStops(s, history, input, fuel);
    } else {
      var next := Exchange(s, history + [r.turn, r.reply], Followup(s, r.reply), fuel - 1);
      ExchangeLastReply(s, history + [r.turn, r.reply], Followup(s, r.reply), fuel - 1);
      ExchangeRecurs(s, history, input, fuel);
      LastOfCons(r, next.rounds);
    }
  }

  /**
    Round count: N replies that ask for tools followed by one that does not
    make N + 1 rounds, hence N + 1 model requests and 2(N + 1) new history
    entries (see `Agent.Run`); the exchange returns that last reply.
  */
  lemma ExchangeRounds(s: Session, history: seq<Content>, input: Input, fuel: nat, n: nat)
    requires var t := Exchange(s, history, input, fuel);
      && n < |t.rounds|
      && (forall i :: 0 <= i < n ==> AsksForTools(t.rounds[i].reply))
      && !AsksForTools(t.rounds[n].reply)
    ensures var t := Exchange(s, history, input, fuel);
      && |t.rounds| == n + 1
      && |Turns(t.rounds)| == 2 * (n + 1)
      && |Requests(t.rounds)| == n + 1
      && t.outcome == Done(t.rounds[n].reply)
  {
    ExchangeCallsBeforeLast(s, history, input, fuel);
    ExchangeLastReply(s, history, input, fuel);
  }

  /**
    The rounds chain: the first turn is the user's input, each later turn
    carries the responses to the previous reply's calls, and each reply is
    the endpoint's answer to that round's request.
  */
  lemma {:induction false} ExchangeChain(s: Session, history: seq<Content>, input: Input, fuel: nat)
    ensures var t := Exchange(s, history, input, fuel);
      && t.rounds[0].turn == UserTurn(input)
      && (forall i :: 0 <= i < |t.rounds| ==> t.rounds[i].reply == s.endpoint(t.rounds[i].request))
      && (forall i :: 0 < i < |t.rounds| ==>
            t.rounds[i].turn == Content("user", DispatchAll(s.tools, FunctionCalls(t.rounds[i - 1].reply))))
    decreases fuel
  {
    var r := FirstRound(s, history, input);
    if !AsksForTools(r.reply) || fuel == 0 {
      ExchangeStops(s, history, input, fuel);
    } else {
      var t := Exchange(s, history, input, fuel);
      var next := Exchange(s, history + [r.turn, r.reply], Followup(s, r.reply), fuel - 1);
      ExchangeChain(s, history + [r.turn, r.reply], Followup(s, r.reply), fuel - 1);
      ExchangeRecurs(s, history, input, fuel);
      forall i | 0 < i < |t.rounds|
        ensures t.rounds[i].turn == Content("user", DispatchAll(s.tools, FunctionCalls(t.rounds[i - 1].reply)))
      {
        assert t.rounds[i] == next.rounds[i - 1];
        if i == 1 {
          assert t.rounds[0] == r;
        } else {
          assert t.rounds[i - 1] == next.rounds[i - 2];
        }
      }
    }
  }

  /**
    Every request carries the whole history so far, ending with that round's
    turn, together with the declarations of every registered tool.
  */
  lemma {:induction false} ExchangeSnapshots(s: Session, history: seq<Content>, input: Input, fuel: nat)
    ensures var t := Exchange(s, history, input, fuel);
      forall i :: 0 <= i < |t.rounds| ==>
        t.rounds[i].request == RequestFor(s, history + Turns(t.rounds[..i]) + [t.rounds[i].turn])
    decreases fuel
  {
    var r := FirstRound(s, history, input);
    var t := Exchange(s, history, input, fuel);
    if !AsksForTools(r.reply) || fuel == 0 {
      ExchangeStops(s, history, input, fuel);
      assert t.rounds[..0] == [];
    } else {
      var history' := history + [r.turn, r.reply];
      var next := Exchange(s, history', Followup(s, r.reply), fuel - 1);
      ExchangeSnapshots(s, history', Followup(s, r.reply), fuel - 1);
      ExchangeRecurs(s, history, input, fuel);
      SnapshotsAfterFirst(s, history, r, next.rounds);
    }
  }

  /** The snapshot property of a round followed by rounds that have it for the longer history. */
  lemma SnapshotsAfterFirst(s: Session, history: seq<Content>, r: Round, rest: seq<Round>)
    requires r.request == RequestFor(s, history + [r.turn])
    requires forall i :: 0 <= i < |rest| ==>
      rest[i].request == RequestFor(s, history + [r.turn, r.reply] + Turns(rest[..i]) + [rest[i].turn])
    ensures var rounds := [r] + rest;
      forall i :: 0 <= i < |rounds| ==>
        rounds[i].request == RequestFor(s, history + Turns(rounds[..i]) + [rounds[i].turn])
  {
    var rounds := [r] + rest;
    assert rounds[0] == r && rounds[..0] == [];
    forall i | 1 <= i < |rounds|
      ensures rounds[i].request == RequestFor(s, history + Turns(rounds[..i]) + [rounds[i].turn])
    {
      SnapshotOfLater(s, history, r, rest, i);
    }
  }

  lemma SnapshotOfLater(s: Session, history: seq<Content>, r: Round, rest: seq<Round>, i: nat)
    requires 1 <= i <= |rest|
    requires rest[i - 1].request ==
      RequestFor(s, history + [r.turn, r.reply] + Turns(rest[..i - 1]) + [rest[i - 1].turn])
    ensures ([r] + rest)[i].request == RequestFor(s, history + Turns(([r] + rest)[..i]) + [([r] + rest)[i].turn])
  {
    SnapshotShift(history, r, rest, i);
    assert ([r] + rest)[i] == rest[i - 1];
  }

  /** The history before round i + 1 of an exchange is the history after its first round plus round i of the rest. */
  lemma SnapshotShift(history: seq<Content>, r: Round, rest: seq<Round>, i: nat)
    requires 1 <= i <= |rest|
    ensures history + Turns(([r] + rest)[..i]) == history + [r.turn, r.reply] + Turns(rest[..i - 1])
  {
    assert ([r] + rest)[..i] == [r] + rest[..i - 1];
    TurnsCons(r, rest[..i - 1]);
  }

  /** No request filters the tools: each advertises every registered declaration and nothing else. */
  lemma EveryRequestAdvertisesAllTools(s: Session, history: seq<Content>, input: Input, fuel: nat)
    ensures var t := Exchange(s, history, input, fuel);
      forall i :: 0 <= i < |t.rounds| ==>
        && t.rounds[i].request.declarations == Declarations(s.tools)
        && t.rounds[i].request.systemInstruction == s.systemInstruction
        && t.rounds[i].request.model == s.model
  {
    ExchangeSnapshots(s, history, input, fuel);
  }

  // ---------------------------------------------------------------------------
  // The agent object
  // ---------------------------------------------------------------------------

  /** `Agent`: its configuration, its client's endpoint and the history it owns. */
  class Agent {
    const model: string
    const tools: Tools
    const systemInstruction: string
    const endpoint: Request -> Content
    /** `self.contents`: the conversation history, only ever appended to. */
    var contents: seq<Content>
    /** Every request sent so far, oldest first. */
    ghost var requests: seq<Request>

    function Settings(): Session {
      Session(model, tools, systemInstruction, endpoint)
    }

    constructor (model: string, tools: Tools, endpoint: Request -> Content, systemInstruction: string)
      ensures this.model == model && this.tools == tools
      ensures this.endpoint == endpoint && this.systemInstruction == systemInstruction
      ensures contents == [] && requests == []
    {
      this.model := model;
      this.tools := tools;
      this.endpoint := endpoint;
      this.systemInstruction := systemInstruction;
      contents := [];
      requests := [];
    }

    /** The loop that builds `function_response_parts`: one response per call, in call order. */
    method Dispatch(calls: seq<Call>) returns (parts: seq<Part>)
      ensures |parts| == |calls|
      ensures forall i :: 0 <= i < |calls| ==> parts[i] == Resolve(tools, calls[i])
      ensures parts == DispatchAll(tools, calls)
    {
      parts := [];
      for n := 0 to |calls|
        invariant |parts| == n
        invariant forall i :: 0 <= i < n ==> parts[i] == Resolve(tools, calls[i])
      {
        var call := calls[n];
        var response: Json;
        if call.name !in tools {
          response := JObject(map["error" := JString(NotFoundMessage(call.name))]);
        } else {
          response := JObject(map["result" := tools[call.name].invoke(call.args)]);
        }
        parts := parts + [ResponsePart(call.name, response)];
      }
    }

    /**
      The first half of `run`: append the user turn, send the whole history
      with every tool declaration, append the reply. This is the round
      `FirstRound` describes.
    */
    method Ask(input: Input) returns (reply: Content)
      modifies this
      ensures var r := FirstRound(Settings(), old(contents), input);
        && reply == r.reply
        && contents == old(contents) + [r.turn, r.reply]
        && requests == old(requests) + [r.request]
    {
      var turn := UserTurn(input);
      contents := contents + [turn];
      var request := Request(model, contents, systemInstruction, Declarations(tools));
      reply := endpoint(request);
      requests := requests + [request];
      contents := contents + [reply];
    }

    /**
      `run`: appends exactly the turns of `Exchange` to the history, leaving
      every earlier entry in place, and sends exactly its requests.
    */
    method Run(input: Input, fuel: nat) returns (outcome: Outcome)
      modifies this
      decreases fuel, 1
      ensures var t := Exchange(Settings(), old(contents), input, fuel);
        && contents == old(contents) + Turns(t.rounds)
        && requests == old(requests) + Requests(t.rounds)
        && outcome == t.outcome
    {
      var reply := Ask(input);
      if !AsksForTools(reply) {
        outcome := Done(reply);
        ExchangeStopsAppends(Settings(), old(contents), old(requests), input, fuel);
      } else if fuel == 0 {
        outcome := RoundLimit;
        ExchangeStopsAppends(Settings(), old(contents), old(requests), input, fuel);
      } else {
        ExchangeRecursAppends(Settings(), old(contents), old(requests), input, fuel);
        outcome := Respond(reply, fuel - 1);
      }
    }

    /** The tail of `run`: dispatch the reply's calls and run again on their responses. */
    method Respond(reply: Content, fuel: nat) returns (outcome: Outcome)
      modifies this
      decreases fuel + 1, 0
      ensures var t := Exchange(Settings(), old(contents), Followup(Settings(), reply), fuel);
        && contents == old(contents) + Turns(t.rounds)
        && requests == old(requests) + Requests(t.rounds)
        && outcome == t.outcome
    {
      var parts := Dispatch(FunctionCalls(reply));
      outcome := Run(FunctionResponses(parts), fuel);
    }
  }

  // ---------------------------------------------------------------------------
  // The console loop of `main`
  // ---------------------------------------------------------------------------

  /** What `main` does with one line typed by the user. */
  datatype Command = Skip | Quit | Send(text: string)

  /**
    The input is stripped first; an empty line is skipped, `exit` or `quit`
    in any letter case ends the session, anything else is sent as it stands
    after stripping.
  */
  function ReadCommand(line: string): (c: Command)
    ensures c.Skip? <==> Strip(line) == ""
    ensures c.Quit? <==> Lower(Strip(line)) == "exit" || Lower(Strip(line)) == "quit"
    ensures c.Send? ==> c.text == Strip(line) && c.text != "" && !IsSpace(c.text[0])
  {
    var input := Strip(line);
    if input == "" then Skip
    else if Lower(input) in {"exit", "quit"} then Quit
    else Send(input)
  }

  /** Any spelling of `exit` or `quit` that upper-cases to EXIT or QUIT ends the session. */
  lemma QuitInAnyCase(line: string)
    requires Upper(Strip(line)) == "EXIT" || Upper(Strip(line)) == "QUIT"
    ensures ReadCommand(line) == Quit
  {
    var input := Strip(line);
    CaseMappingLaws(input);
    QuitWordsLowered();
    assert Lower(input) == "exit" || Lower(input) == "quit";
  }

  lemma QuitWordsLowered()
    ensures Lower("EXIT") == "exit" && Lower("QUIT") == "quit"
  {
    assert Lower("EXIT") == "exit";
    assert Lower("QUIT") == "quit";
  }

  /**
    `response.text`: the text parts of the reply, concatenated in order. A
    reply without text parts is taken to have the empty text; should the SDK
    give `None` there instead, `main` would fail on `.strip()`, which this
    model does not capture.
  */
  function ReplyText(reply: Content): string {
    TextOf(reply.parts)
  }

  function TextOf(parts: seq<Part>): string {
    if parts == [] then ""
    else (if parts[0].TextPart? then parts[0].text else "") + TextOf(parts[1..])
  }

  /** The text of two runs of parts is the text of the first, then that of the second. */
  lemma {:induction false} TextOfConcat(a: seq<Part>, b: seq<Part>)
    ensures TextOf(a + b) == TextOf(a) + TextOf(b)
  {
    if a != [] {
      assert (a + b)[0] == a[0];
      assert (a + b)[1..] == a[1..] + b;
      TextOfConcat(a[1..], b);
    } else {
      assert a + b == b;
    }
  }

  /** A text part contributes its text; a call or a response contributes nothing. */
  lemma TextOfSingle(p: Part)
    ensures p.TextPart? ==> TextOf([p]) == p.text
    ensures !p.TextPart? ==> TextOf([p]) == ""
  {
    assert [p][1..] == [];
  }

  const NoTextPlaceholder: string := "[no text returned]"

  /**
    What `main` prints after the prefix: the stripped reply text, or the
    placeholder when nothing but whitespace came back. Never blank.
  */
  function DisplayedText(reply: Content): (t: string)
    ensures t != [] && !IsSpace(t[0]) && !IsSpace(t[|t| - 1])
    ensures Strip(ReplyText(reply)) != "" ==> t == Strip(ReplyText(reply))
    ensures Strip(ReplyText(reply)) == "" ==> t == NoTextPlaceholder
  {
    var text := Strip(ReplyText(reply));
    if text == "" then NoTextPlaceholder else text
  }

  /**
    The text `main` passes to `print` for a reply; the line end `print` adds
    after it is console output and not part of this model.
  */
  function Shown(reply: Content): string {
    Framed(DisplayedText(reply))
  }

  function Framed(t: string): string {
    "Linus: " + t + "\n"
  }

  /**
    The printed line is the prefix, then the displayed text, which neither
    starts nor ends with whitespace (`DisplayedText`), then the newline.
  */
  lemma FramedLayout(t: string)
    requires t != [] && !IsSpace(t[0]) && !IsSpace(t[|t| - 1])
    ensures var line := Framed(t);
      && |line| == |t| + 8 && line[..7] == "Linus: " && line[7..|line| - 1] == t && line[|line| - 1] == '\n'
      && !IsSpace(line[7]) && !IsSpace(line[|line| - 2])
  {
    assert Framed(t) == "Linus: " + (t + "\n");
  }
}
