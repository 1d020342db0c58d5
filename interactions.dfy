/** The inbound webhook request, the interaction it carries once parsed, and the
    decision `lambdaHandler` takes on it before any command runs. */
module Interactions {

  import opened Optional

  /** Interaction kinds and reply kinds of the chat platform's API (version 10). */
  const PingType: int := 1
  const ApplicationCommandType: int := 2
  const PongResponseType: int := 1
  const ChannelMessageResponseType: int := 4

  /** One entry of a command's `options`; `value` is None when the entry has no value field. */
  datatype CommandOption = CommandOption(name: string, value: Option<string>)

  /** The `data` of an application command: its name and, when sent, its options. */
  datatype CommandData = CommandData(name: string, options: Option<seq<CommandOption>>)

  /** The parsed body: interaction kind, the id and token that address the reply, command data. */
  datatype Interaction = Interaction(kind: int, id: string, token: string, data: CommandData)

  /** The request as the gateway hands it over: the raw body (None when absent), the two
      signature headers, and the interaction that parsing the body yields. */
  datatype Event = Event(body: Option<string>, signature: string, timestamp: string, interaction: Interaction)

  /** Which branch of the handler a request takes. */
  datatype Branch =
    | MissingBody
    | BadSignature
    | Pong
    | Days(id: string, token: string)
    | Reset(id: string, token: string, reason: Option<string>)
    | Unknown

  /** `!event.body` is false: a body is present and not the empty string. */
  predicate HasBody(e: Event) {
    e.body.Some? && e.body.value != ""
  }

  /** The detached signature over `timestamp + body` checks out under the public key. */
  predicate Authentic(e: Event, verify: (string, string, string) -> bool, publicKey: string) {
    HasBody(e) && verify(e.timestamp + e.body.value, e.signature, publicKey)
  }

  predicate IsReason(o: CommandOption) {
    o.name == "reason" && o.value.Some?
  }

  /** The value of the first option named "reason" that carries a value. */
  function FirstReasonIn(options: seq<CommandOption>): (r: Option<string>)
    ensures r.None? <==> forall i :: 0 <= i < |options| ==> !IsReason(options[i])
    ensures forall k ::
              (0 <= k < |options| && IsReason(options[k]) && forall j :: 0 <= j < k ==> !IsReason(options[j]))
              ==> r == options[k].value
  {
    if options == [] then None
    else if IsReason(options[0]) then options[0].value
    else FirstReasonIn(options[1..])
  }

  /** The reason of a reset command; None when it has no options. */
  function FirstReason(options: Option<seq<CommandOption>>): (r: Option<string>)
    ensures r.None? <==> options.None? || forall i :: 0 <= i < |options.value| ==> !IsReason(options.value[i])
    ensures options.Some? ==>
              forall k ::
                (0 <= k < |options.value| && IsReason(options.value[k])
                 && forall j :: 0 <= j < k ==> !IsReason(options.value[j]))
                ==> r == options.value[k].value
  {
    if options.None? then None else FirstReasonIn(options.value)
  }

  /** The scan of a reset command's options: stops at the first option named "reason" that
      has a value. */
  method FindReason(options: Option<seq<CommandOption>>) returns (reason: Option<string>)
    ensures reason == FirstReason(options)
  {
    reason := None;
    if options.Some? {
      var opts := options.value;
      var i := 0;
      while i < |opts|
        invariant 0 <= i <= |opts|
        invariant forall j :: 0 <= j < i ==> !IsReason(opts[j])
        invariant reason.None?
      {
        var option := opts[i];
        if option.name == "reason" && option.value.Some? {
          reason := option.value;
          break;
        }
        i := i + 1;
      }
    }
  }

  /** The handler's decision: the early returns for a missing body and a bad signature, then
      the dispatch on interaction kind and command name. */
  function Route(e: Event, verify: (string, string, string) -> bool, publicKey: string): (r: Branch)
    ensures r == MissingBody <==> !HasBody(e)
    ensures r == BadSignature <==> HasBody(e) && !Authentic(e, verify, publicKey)
    ensures r == Pong <==> Authentic(e, verify, publicKey) && e.interaction.kind == PingType
    ensures r.Days? <==>
              Authentic(e, verify, publicKey) && e.interaction.kind == ApplicationCommandType
              && e.interaction.data.name == "days"
    ensures r.Reset? <==>
              Authentic(e, verify, publicKey) && e.interaction.kind == ApplicationCommandType
              && e.interaction.data.name == "reset"
    ensures r == Unknown <==>
              Authentic(e, verify, publicKey)
              && ((e.interaction.kind != PingType && e.interaction.kind != ApplicationCommandType)
                  || (e.interaction.kind == ApplicationCommandType
                      && e.interaction.data.name != "days" && e.interaction.data.name != "reset"))
    ensures (r.Days? || r.Reset?) ==> r.id == e.interaction.id && r.token == e.interaction.token
    ensures r.Reset? ==> r.reason == FirstReason(e.interaction.data.options)
  {
    if !HasBody(e) then MissingBody
    else if !verify(e.timestamp + e.body.value, e.signature, publicKey) then BadSignature
    else if e.interaction.kind == PingType then Pong
    else if e.interaction.kind == ApplicationCommandType && e.interaction.data.name == "days" then
      Days(e.interaction.id, e.interaction.token)
    else if e.interaction.kind == ApplicationCommandType && e.interaction.data.name == "reset" then
      Reset(e.interaction.id, e.interaction.token, FirstReason(e.interaction.data.options))
    else Unknown
  }

  /** Later options named "reason" never matter once an earlier one carries a value. */
  lemma {:induction false} LaterReasonsIgnored(options: seq<CommandOption>, rest: seq<CommandOption>)
    requires exists k :: 0 <= k < |options| && IsReason(options[k])
    ensures FirstReasonIn(options + rest) == FirstReasonIn(options)
  {
    if IsReason(options[0]) {
      assert (options + rest)[0] == options[0];
    } else {
      assert (options + rest)[1..] == options[1..] + rest;
      var k :| 0 <= k < |options| && IsReason(options[k]);
      assert IsReason(options[1..][k - 1]);
      LaterReasonsIgnored(options[1..], rest);
    }
  }
}
