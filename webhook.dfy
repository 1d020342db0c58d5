/** `lambdaHandler`: one request in, one gateway result out, with the store reads, store
    writes and replies it performs on the way recorded in order. */
module Webhook {

  import opened Optional
  import opened JsNumbers
  import opened DayClock
  import opened Interactions
  import opened IncidentStore

  /** The gateway result: status code and body text. */
  datatype ProxyResult = ProxyResult(statusCode: int, body: string)

  /** One interaction of the handler with the outside: a read of `last-fup`, the batch write
      of a reset (with the log row it appends), or a reply posted to the interaction's
      callback address. */
  datatype Effect =
    | StoreRead
    | StoreWrite(entry: LogEntry)
    | Reply(interactionId: string, token: string, responseType: int, content: string)

  /** The result, the effects in the order they happened, and the tables afterwards. */
  datatype Outcome = Outcome(result: ProxyResult, trace: seq<Effect>, store: StoreState)

  const BadRequestResult := ProxyResult(400, "{\"message\":\"Invalid parameters: Request does not have a body.\"}")
  const UnauthorizedResult := ProxyResult(401, "{\"message\":\"Invalid request signature.\"}")
  const PongResult := ProxyResult(200, "{\"type\":1}")
  const OkResult := ProxyResult(200, "Ok.")
  const ConfusedResult := ProxyResult(500, "{\"message\":\"Don't know what to do\"}")

  const FallbackMessage := "Sorry, the bot is broken, so I guess that means it has been 0 days since the last incident."
  const ResetMessage := "Okay. It's now 0 days since the last incident."

  /** A template literal's text for a value that may be undefined. */
  function TemplateText(v: Option<string>): string {
    if v.Some? then v.value else "undefined"
  }

  /** The day count as `days.toString()` prints it: the whole days from the stored time to the
      start of today, rounded down; NaN when the stored time does not parse or lies outside
      the range of a Date, since the moment made from it is then invalid. */
  function DaysText(last: Option<int>, now: int): (r: string)
    ensures (last.None? || !IsDateSeconds(last.value)) ==> r == "NaN"
    ensures last.Some? && IsDateSeconds(last.value) ==>
              forall d :: d * SecondsPerDay <= StartOfDay(now) - last.value < (d + 1) * SecondsPerDay
                          ==> r == IntToString(d)
  {
    if last.Some? && IsDateSeconds(last.value) then IntToString(ElapsedDays(now, last.value)) else "NaN"
  }

  /** The text of a `days` reply that found a stored time. */
  function ElapsedReport(daysText: string, content: string): string {
    "It has been " + daysText + " day(s) since the last incident. The last incident was " + content
  }

  /** The reply for a stored time, read back with `parseInt`, and a description that may be
      undefined. */
  function ElapsedMessage(lastTime: string, lastContent: Option<string>, now: int): (m: string)
    ensures (ParseInt(lastTime).None? || !IsDateSeconds(ParseInt(lastTime).value)) ==>
              m == ElapsedReport("NaN", TemplateText(lastContent))
    ensures ParseInt(lastTime).Some? && IsDateSeconds(ParseInt(lastTime).value) ==>
              forall d :: d * SecondsPerDay <= StartOfDay(now) - ParseInt(lastTime).value < (d + 1) * SecondsPerDay
                          ==> m == ElapsedReport(IntToString(d), TemplateText(lastContent))
  {
    ElapsedReport(DaysText(ParseInt(lastTime), now), TemplateText(lastContent))
  }

  /** The reply to `days`: the fallback unless the read succeeded and found a time. */
  function DaysMessage(read: Option<LastFUp>, now: int): (m: string)
    ensures (read.None? || read.value.time.None?) ==> m == FallbackMessage
    ensures read.Some? && read.value.time.Some?
            && (ParseInt(read.value.time.value).None? || !IsDateSeconds(ParseInt(read.value.time.value).value)) ==>
              m == ElapsedReport("NaN", TemplateText(read.value.content))
    ensures read.Some? && read.value.time.Some?
            && ParseInt(read.value.time.value).Some? && IsDateSeconds(ParseInt(read.value.time.value).value) ==>
              forall d :: d * SecondsPerDay <= StartOfDay(now) - ParseInt(read.value.time.value).value < (d + 1) * SecondsPerDay
                          ==> m == ElapsedReport(IntToString(d), TemplateText(read.value.content))
  {
    if read.Some? && read.value.time.Some? then ElapsedMessage(read.value.time.value, read.value.content, now)
    else FallbackMessage
  }

  /** Everything one request does, given the signature check, the clock reading, the id
      `uuid()` would return, whether the read of `last-fup` throws, and the tables before. */
  function Handle(e: Event, verify: (string, string, string) -> bool, publicKey: string,
                  now: int, freshId: string, readFails: bool, s: StoreState): (o: Outcome)
    ensures !HasBody(e) ==> o == Outcome(BadRequestResult, [], s)
    ensures HasBody(e) && !Authentic(e, verify, publicKey) ==> o == Outcome(UnauthorizedResult, [], s)
    ensures Authentic(e, verify, publicKey) && e.interaction.kind == PingType ==> o == Outcome(PongResult, [], s)
    ensures Route(e, verify, publicKey) == Unknown ==> o == Outcome(ConfusedResult, [], s)
    ensures Route(e, verify, publicKey).Days? ==>
              && o.result == OkResult
              && o.store == s
              && o.trace == [StoreRead, Reply(e.interaction.id, e.interaction.token, ChannelMessageResponseType,
                                              DaysMessage(ReadLast(s, readFails), now))]
    ensures Route(e, verify, publicKey).Days? && readFails ==>
              o.trace[1].content == FallbackMessage
    ensures Route(e, verify, publicKey).Reset? ==>
              var reason := FirstReason(e.interaction.data.options);
              && o.result == OkResult
              && o.store == Submit(s, reason, now, freshId)
              && o.trace == [StoreWrite(NewEntry(reason, now, freshId)),
                             Reply(e.interaction.id, e.interaction.token, ChannelMessageResponseType, ResetMessage)]
    ensures o.result.statusCode == 200 <==> Authentic(e, verify, publicKey) && Route(e, verify, publicKey) != Unknown
  {
    match Route(e, verify, publicKey)
    case MissingBody => Outcome(BadRequestResult, [], s)
    case BadSignature => Outcome(UnauthorizedResult, [], s)
    case Pong => Outcome(PongResult, [], s)
    case Days(id, token) =>
      Outcome(OkResult, [StoreRead, Reply(id, token, ChannelMessageResponseType, DaysMessage(ReadLast(s, readFails), now))], s)
    case Reset(id, token, reason) =>
      Outcome(OkResult,
              [StoreWrite(NewEntry(reason, now, freshId)), Reply(id, token, ChannelMessageResponseType, ResetMessage)],
              Submit(s, reason, now, freshId))
    case Unknown => Outcome(ConfusedResult, [], s)
  }

  /** Without a body the signature check is never consulted: any verifier gives the same outcome. */
  lemma MissingBodySkipsVerification(e: Event, verify1: (string, string, string) -> bool,
                                     verify2: (string, string, string) -> bool, publicKey: string,
                                     now: int, freshId: string, readFails: bool, s: StoreState)
    requires !HasBody(e)
    ensures Handle(e, verify1, publicKey, now, freshId, readFails, s) == Handle(e, verify2, publicKey, now, freshId, readFails, s)
  {
  }

  /** A request keeps the store valid, whatever branch it takes. */
  lemma {:induction false} HandlePreservesValid(e: Event, verify: (string, string, string) -> bool, publicKey: string,
                                                now: int, freshId: string, readFails: bool, s: StoreState)
    requires ValidState(s) && FreshHash(s.allFups, freshId)
    ensures ValidState(Handle(e, verify, publicKey, now, freshId, readFails, s).store)
  {
    var r := Route(e, verify, publicKey);
    if r.Reset? {
      SubmitPreservesValid(s, r.reason, now, freshId);
    }
  }

  /** Before the first reset, `days` answers with the fallback text. */
  lemma {:induction false} DaysBeforeAnyReset(e: Event, verify: (string, string, string) -> bool, publicKey: string,
                                              now: int, freshId: string, readFails: bool, s: StoreState)
    requires ValidState(s) && s.allFups == []
    requires Route(e, verify, publicKey).Days?
    ensures Handle(e, verify, publicKey, now, freshId, readFails, s).trace[1].content == FallbackMessage
  {
    ReadLastOfValid(s);
  }

  /** After a reset, `days` reports the whole days from the last logged day start to the start
      of today, and the last logged description; NaN days when that day start is no valid Date. */
  lemma {:induction false} DaysReportsLastReset(e: Event, verify: (string, string, string) -> bool, publicKey: string,
                                                now: int, freshId: string, s: StoreState)
    requires ValidState(s) && s.allFups != []
    requires Route(e, verify, publicKey).Days?
    ensures var last := s.allFups[|s.allFups| - 1];
            var stamp := ParseInt(last.fupTime).value;
            var days := ElapsedDays(now, stamp);
            && days * SecondsPerDay == StartOfDay(now) - stamp
            && Handle(e, verify, publicKey, now, freshId, false, s).trace[1].content
               == ElapsedReport(if IsDateSeconds(stamp) then IntToString(days) else "NaN", last.fupContent)
  {
    ReadLastOfValid(s);
    assert IsDayStamp(s.allFups[|s.allFups| - 1].fupTime);
  }

  /** A reset followed, on the same day, by `days` reports 0 days and the reset's description. */
  lemma {:induction false} ResetThenDaysSameDay(reset: Event, days: Event, verify: (string, string, string) -> bool,
                                                publicKey: string, now: int, later: int, id1: string, id2: string,
                                                readFails: bool, s: StoreState)
    requires Route(reset, verify, publicKey).Reset? && Route(days, verify, publicKey).Days?
    requires StartOfDay(later) == StartOfDay(now)
    requires IsDateSeconds(now)
    ensures var s1 := Handle(reset, verify, publicKey, now, id1, readFails, s).store;
            Handle(days, verify, publicKey, later, id2, false, s1).trace[1]
            == Reply(days.interaction.id, days.interaction.token, ChannelMessageResponseType,
                     ElapsedReport("0", Description(FirstReason(reset.interaction.data.options))))
  {
    var reason := FirstReason(reset.interaction.data.options);
    var s1 := Submit(s, reason, now, id1);
    assert Handle(reset, verify, publicKey, now, id1, readFails, s).store == s1;
    var stamp := IntToString(StartOfDay(now));
    ReadLastOfStore(s1);
    assert ReadLast(s1, false) == Some(LastFUp(Some(stamp), Some(Description(reason))));
    ParseIntToString(StartOfDay(now));
    SameDayIsZeroDays(now, later);
    StartOfDayIsDate(now);
    assert DaysText(ParseInt(stamp), later) == "0" by {
      assert IntToString(0) == "0";
    }
  }

  /** The deployed function: the trusted public key and the database are process-wide. */
  class Lambda {
    const publicKey: string
    const db: Database

    constructor (publicKey: string, db: Database)
      ensures this.publicKey == publicKey && this.db == db
    {
      this.publicKey := publicKey;
      this.db := db;
    }

    /** `lambdaHandler`. The store write of a reset comes before its reply. */
    method LambdaHandler(event: Event, verify: (string, string, string) -> bool, now: int,
                         freshId: string, readFails: bool) returns (result: ProxyResult, trace: seq<Effect>)
      modifies db
      ensures old(db.Valid()) && FreshHash(old(db.allFups), freshId) ==> db.Valid()
      ensures Outcome(result, trace, db.State()) == Handle(event, verify, publicKey, now, freshId, readFails, old(db.State()))
    {
      ghost var branch := Route(event, verify, publicKey);
      if event.body.None? || event.body.value == "" {
        return BadRequestResult, [];
      }
      var isVerified := verify(event.timestamp + event.body.value, event.signature, publicKey);
      if !isVerified {
        return UnauthorizedResult, [];
      }
      var body := event.interaction;
      if body.kind == PingType {
        return PongResult, [];
      } else if body.kind == ApplicationCommandType {
        var id, token := body.id, body.token;
        var name := body.data.name;
        if name == "days" {
          assert branch == Days(id, token);
          result, trace := DaysCommand(id, token, now, readFails);
          return;
        } else if name == "reset" {
          var reason := FindReason(body.data.options);
          assert branch == Reset(id, token, reason);
          result, trace := ResetCommand(id, token, reason, now, freshId);
          return;
        }
      }
      assert branch == Unknown;
      return ConfusedResult, [];
    }

    /** The `days` branch: read the last incident, fall back to the fixed text when the read
        throws or finds no time, reply, acknowledge. */
    method DaysCommand(id: string, token: string, now: int, readFails: bool)
      returns (result: ProxyResult, trace: seq<Effect>)
      ensures result == OkResult
      ensures trace == [StoreRead, Reply(id, token, ChannelMessageResponseType, DaysMessage(ReadLast(db.State(), readFails), now))]
    {
      var response := FallbackMessage;
      var last := db.GetLastFUp(readFails);
      trace := [StoreRead];
      if last.Some? && last.value.time.Some? {
        response := ElapsedMessage(last.value.time.value, last.value.content, now);
      }
      trace := trace + [Reply(id, token, ChannelMessageResponseType, response)];
      result := OkResult;
    }

    /** The `reset` branch: write both tables, then reply, then acknowledge. */
    method ResetCommand(id: string, token: string, reason: Option<string>, now: int, freshId: string)
      returns (result: ProxyResult, trace: seq<Effect>)
      modifies db
      ensures old(db.Valid()) && FreshHash(old(db.allFups), freshId) ==> db.Valid()
      ensures db.State() == Submit(old(db.State()), reason, now, freshId)
      ensures result == OkResult
      ensures trace == [StoreWrite(NewEntry(reason, now, freshId)), Reply(id, token, ChannelMessageResponseType, ResetMessage)]
    {
      db.SubmitFUp(reason, now, freshId);
      trace := [StoreWrite(NewEntry(reason, now, freshId))];
      trace := trace + [Reply(id, token, ChannelMessageResponseType, ResetMessage)];
      result := OkResult;
    }
  }
}
