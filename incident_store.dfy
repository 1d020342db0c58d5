/** The two tables the bot keeps: `last-fup`, a key/value table holding the time and the
    description of the last incident, and `all-fups`, the append-only log of every reset.
    `getLastFUp` reads the first, `submitFUp` writes both. */
module IncidentStore {

  import opened Optional
  import opened JsNumbers
  import opened DayClock

  const TimeKey: string := "last-fup-time"
  const ContentKey: string := "last-fup-content"
  const UnknownContent: string := "Unknown"

  /** A stored attribute: a number (`N`, kept as its decimal text) or a string (`S`). */
  datatype AttrValue = N(n: string) | S(s: string)

  /** `v.N`: the text of a number attribute, undefined on a string attribute. */
  function AsN(v: AttrValue): Option<string> {
    if v.N? then Some(v.n) else None
  }

  /** `v.S`: the text of a string attribute, undefined on a number attribute. */
  function AsS(v: AttrValue): Option<string> {
    if v.S? then Some(v.s) else None
  }

  /** A row of `last-fup` as a read returns it: the `key` attribute and the `value` attribute. */
  datatype Item = Item(key: AttrValue, value: AttrValue)

  /** A row of `all-fups`: `fup-time`, `fup-content` and the unique `hash`. */
  datatype LogEntry = LogEntry(fupTime: string, fupContent: string, hash: string)

  /** Both tables: `last-fup` keyed by its `key` attribute, `all-fups` in insertion order. */
  datatype StoreState = StoreState(lastFup: map<string, AttrValue>, allFups: seq<LogEntry>)

  /** What `getLastFUp` returns: `last_time` and `last_content`, each possibly undefined. */
  datatype LastFUp = LastFUp(time: Option<string>, content: Option<string>)

  /** Which attribute of an item's value the scan takes. */
  datatype Field = NumberField | StringField

  function Select(v: AttrValue, f: Field): Option<string> {
    if f == NumberField then AsN(v) else AsS(v)
  }

  /** `item.key.S === key`. */
  predicate KeyIs(item: Item, key: string) {
    AsS(item.key) == Some(key)
  }

  /** The field of the last item whose key is `key`; undefined when no item has that key. */
  function Latest(items: seq<Item>, key: string, f: Field): (r: Option<string>)
    ensures (forall i :: 0 <= i < |items| ==> !KeyIs(items[i], key)) ==> r.None?
    ensures forall k ::
              (0 <= k < |items| && KeyIs(items[k], key) && forall j :: k < j < |items| ==> !KeyIs(items[j], key))
              ==> r == Select(items[k].value, f)
  {
    if items == [] then None
    else if KeyIs(items[|items| - 1], key) then Select(items[|items| - 1].value, f)
    else Latest(items[..|items| - 1], key, f)
  }

  /** What the scan of a read response yields; both undefined when the response holds no items. */
  function ScanOf(responses: Option<seq<Item>>): LastFUp {
    if responses.None? then LastFUp(None, None)
    else LastFUp(Latest(responses.value, TimeKey, NumberField), Latest(responses.value, ContentKey, StringField))
  }

  /** The loop of `getLastFUp` over the returned items. */
  method ScanResponses(responses: Option<seq<Item>>) returns (last: LastFUp)
    ensures last == ScanOf(responses)
  {
    var lastTime: Option<string> := None;
    var lastContent: Option<string> := None;
    if responses.Some? {
      var items := responses.value;
      for i := 0 to |items|
        invariant lastTime == Latest(items[..i], TimeKey, NumberField)
        invariant lastContent == Latest(items[..i], ContentKey, StringField)
      {
        var item := items[i];
        assert items[..i + 1][..i] == items[..i];
        if AsS(item.key) == Some(TimeKey) {
          lastTime := AsN(item.value);
        }
        if AsS(item.key) == Some(ContentKey) {
          lastContent := AsS(item.value);
        }
      }
      assert items[..|items|] == items;
    }
    last := LastFUp(lastTime, lastContent);
  }

  /** The rows a read of the keys `last-fup-time` and `last-fup-content` returns. */
  function ReadItems(s: StoreState): seq<Item> {
    (if TimeKey in s.lastFup then [Item(S(TimeKey), s.lastFup[TimeKey])] else [])
    + (if ContentKey in s.lastFup then [Item(S(ContentKey), s.lastFup[ContentKey])] else [])
  }

  /** `getLastFUp` on a store: None when the read throws. */
  function ReadLast(s: StoreState, readFails: bool): Option<LastFUp> {
    if readFails then None else Some(ScanOf(Some(ReadItems(s))))
  }

  /** The value of a table row as the scan sees it. */
  function Lookup(m: map<string, AttrValue>, key: string, f: Field): Option<string> {
    if key in m then Select(m[key], f) else None
  }

  /** A successful read reports the number stored under `last-fup-time` and the string
      stored under `last-fup-content`, each undefined when its row is missing. */
  lemma ReadLastOfStore(s: StoreState)
    ensures ReadLast(s, false) == Some(LastFUp(Lookup(s.lastFup, TimeKey, NumberField),
                                               Lookup(s.lastFup, ContentKey, StringField)))
  {
    var items := ReadItems(s);
    if TimeKey in s.lastFup && ContentKey in s.lastFup {
      assert KeyIs(items[0], TimeKey) && !KeyIs(items[1], TimeKey);
      assert KeyIs(items[1], ContentKey);
    } else if TimeKey in s.lastFup {
      assert KeyIs(items[0], TimeKey) && !KeyIs(items[0], ContentKey);
    } else if ContentKey in s.lastFup {
      assert KeyIs(items[0], ContentKey) && !KeyIs(items[0], TimeKey);
    }
  }

  /** `fup_content || "Unknown"`. */
  function Description(reason: Option<string>): (d: string)
    ensures d != ""
    ensures reason.Some? && reason.value != "" ==> d == reason.value
    ensures d == UnknownContent <==> reason.None? || reason.value == "" || reason.value == UnknownContent
  {
    if reason.Some? && reason.value != "" then reason.value else UnknownContent
  }

  /** The row a reset appends for the given reason, clock reading and fresh id. */
  function NewEntry(reason: Option<string>, now: int, id: string): LogEntry {
    LogEntry(IntToString(StartOfDay(now)), Description(reason), id)
  }

  /** The time a reset logs is today's day start as decimal text, which reads back as that day start. */
  lemma NewEntryReadsBack(reason: Option<string>, now: int, id: string)
    ensures ParseInt(NewEntry(reason, now, id).fupTime) == Some(StartOfDay(now))
    ensures IsDayStamp(NewEntry(reason, now, id).fupTime)
  {
    ParseIntToString(StartOfDay(now));
  }

  /** Both tables after `submitFUp`: the two `last-fup` rows overwritten and one log row appended. */
  function Submit(s: StoreState, reason: Option<string>, now: int, id: string): (t: StoreState)
    ensures t.lastFup.Keys == s.lastFup.Keys + {TimeKey, ContentKey}
    ensures forall k :: k in s.lastFup && k != TimeKey && k != ContentKey ==> t.lastFup[k] == s.lastFup[k]
    ensures |t.allFups| == |s.allFups| + 1 && t.allFups[..|s.allFups|] == s.allFups
    ensures var e := t.allFups[|s.allFups|];
            && t.lastFup[TimeKey] == N(e.fupTime)
            && t.lastFup[ContentKey] == S(e.fupContent)
            && e == NewEntry(reason, now, id)
  {
    var e := NewEntry(reason, now, id);
    var log := s.allFups + [e];
    assert log[..|s.allFups|] == s.allFups;
    StoreState(s.lastFup[TimeKey := N(e.fupTime)][ContentKey := S(e.fupContent)], log)
  }

  predicate FreshHash(log: seq<LogEntry>, id: string) {
    forall i :: 0 <= i < |log| ==> log[i].hash != id
  }

  /** A stored time is the decimal text of a day start. */
  predicate IsDayStamp(t: string) {
    ParseInt(t).Some? && IsDayStart(ParseInt(t).value)
  }

  predicate UniqueHashes(log: seq<LogEntry>) {
    forall i, j :: 0 <= i < j < |log| ==> log[i].hash != log[j].hash
  }

  predicate DayStamped(log: seq<LogEntry>) {
    forall i :: 0 <= i < |log| ==> IsDayStamp(log[i].fupTime)
  }

  /** `last-fup` holds only its two rows, is empty before the first reset, and afterwards
      repeats the time and description of the last log row. */
  predicate MirrorsLastEntry(s: StoreState) {
    && s.lastFup.Keys <= {TimeKey, ContentKey}
    && (s.allFups == [] <==> s.lastFup == map[])
    && (s.allFups != [] ==>
          var e := s.allFups[|s.allFups| - 1];
          TimeKey in s.lastFup && ContentKey in s.lastFup
          && s.lastFup[TimeKey] == N(e.fupTime) && s.lastFup[ContentKey] == S(e.fupContent))
  }

  /** What every sequence of resets from empty tables keeps: log ids are unique, every logged
      time is a day start, and `last-fup` mirrors the last log row. */
  predicate ValidState(s: StoreState) {
    UniqueHashes(s.allFups) && DayStamped(s.allFups) && MirrorsLastEntry(s)
  }

  lemma AppendKeepsUnique(log: seq<LogEntry>, e: LogEntry)
    requires UniqueHashes(log) && FreshHash(log, e.hash)
    ensures UniqueHashes(log + [e])
  {
    var t := log + [e];
    forall i, j | 0 <= i < j < |t| ensures t[i].hash != t[j].hash {
      assert t[i] == log[i];
      if j < |log| {
        assert t[j] == log[j];
      }
    }
  }

  lemma AppendKeepsDayStamped(log: seq<LogEntry>, e: LogEntry)
    requires DayStamped(log) && IsDayStamp(e.fupTime)
    ensures DayStamped(log + [e])
  {
    var t := log + [e];
    forall i | 0 <= i < |t| ensures IsDayStamp(t[i].fupTime) {
      if i < |log| {
        assert t[i] == log[i];
      }
    }
  }

  lemma {:induction false} SubmitPreservesValid(s: StoreState, reason: Option<string>, now: int, id: string)
    requires ValidState(s) && FreshHash(s.allFups, id)
    ensures ValidState(Submit(s, reason, now, id))
  {
    var e := NewEntry(reason, now, id);
    var t := Submit(s, reason, now, id);
    assert t.allFups == s.allFups + [e];
    AppendKeepsUnique(s.allFups, e);
    NewEntryReadsBack(reason, now, id);
    AppendKeepsDayStamped(s.allFups, e);
    assert TimeKey in t.lastFup;
  }

  /** In a valid store a read reports the last reset, or nothing before the first one. */
  lemma ReadLastOfValid(s: StoreState)
    requires ValidState(s)
    ensures s.allFups == [] ==> ReadLast(s, false) == Some(LastFUp(None, None))
    ensures s.allFups != [] ==>
              var e := s.allFups[|s.allFups| - 1];
              ReadLast(s, false) == Some(LastFUp(Some(e.fupTime), Some(e.fupContent)))
  {
    ReadLastOfStore(s);
  }

  /** Empty tables satisfy the store invariant. */
  lemma EmptyIsValid()
    ensures ValidState(StoreState(map[], []))
  {
  }

  /** The bot's database: both tables, updated in place. */
  class Database {
    var lastFup: map<string, AttrValue>
    var allFups: seq<LogEntry>

    function State(): StoreState
      reads this
    {
      StoreState(lastFup, allFups)
    }

    ghost predicate Valid()
      reads this
    {
      ValidState(State())
    }

    /** A client for the two existing tables, with whatever they hold. */
    constructor (lastFup: map<string, AttrValue>, allFups: seq<LogEntry>)
      ensures State() == StoreState(lastFup, allFups)
    {
      this.lastFup := lastFup;
      this.allFups := allFups;
    }

    /** `getLastFUp`: reads the two `last-fup` rows and scans the response; None when the
        read throws. */
    method GetLastFUp(readFails: bool) returns (r: Option<LastFUp>)
      ensures r == ReadLast(State(), readFails)
      ensures r.None? <==> readFails
      ensures r.Some? ==> r.value == LastFUp(Lookup(lastFup, TimeKey, NumberField),
                                             Lookup(lastFup, ContentKey, StringField))
    {
      if readFails {
        return None;
      }
      var last := ScanResponses(Some(ReadItems(State())));
      r := Some(last);
      ReadLastOfStore(State());
    }

    /** `submitFUp`: one batch write that overwrites the two `last-fup` rows with today's day
        start and the description, and appends the same pair to `all-fups` under the fresh id. */
    method SubmitFUp(reason: Option<string>, now: int, id: string)
      modifies this
      ensures old(Valid()) && FreshHash(old(allFups), id) ==> Valid()
      ensures State() == Submit(old(State()), reason, now, id)
    {
      var fupTime := IntToString(StartOfDay(now));
      var fupContent := Description(reason);
      if Valid() && FreshHash(allFups, id) {
        SubmitPreservesValid(State(), reason, now, id);
      }
      lastFup := lastFup[TimeKey := N(fupTime)][ContentKey := S(fupContent)];
      allFups := allFups + [LogEntry(fupTime, fupContent, id)];
    }
  }
}
