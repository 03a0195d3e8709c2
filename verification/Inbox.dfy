/** The message journal of daemon/runtime.cpp: one encoded event per line of a file. */
module Inbox {
  import opened Bytes
  import opened Wire
  import opened Records

  // ---------- Normalising an event ----------

  const MESSAGE_RECEIVED: bytes := "message.received"
  const FROM: bytes := "from"
  const FROM_NAME: bytes := "from_name"
  const KIND: bytes := "message_kind"
  const TARGET_KIND: bytes := "target_kind"
  const CHANNEL_ID: bytes := "channel_id"
  const TARGET_MODE: bytes := "target_mode"
  const CLIENT_KIND: bytes := "client"
  const CHANNEL_KIND: bytes := "channel"
  const SERVER_KIND: bytes := "server"

  type FieldMap = map<bytes, bytes>

  function WithSender(m: FieldMap): FieldMap {
    if FROM_NAME !in m && FROM in m then m[FROM_NAME := m[FROM]] else m
  }

  /** What an older event says about the kind of message, if anything. */
  function GuessKind(m: FieldMap): Option<bytes> {
    if TARGET_KIND in m then Some(m[TARGET_KIND])
    else if CHANNEL_ID in m then Some(CHANNEL_KIND)
    else if TARGET_MODE !in m then None
    else if m[TARGET_MODE] == "1" then Some(CLIENT_KIND)
    else if m[TARGET_MODE] == "2" then Some(CHANNEL_KIND)
    else if m[TARGET_MODE] == "3" then Some(SERVER_KIND)
    else None
  }

  function WithKind(m: FieldMap): FieldMap {
    if KIND !in m && GuessKind(m).Some? then m[KIND := GuessKind(m).value] else m
  }

  /** normalize_message_event */
  function Normalize(e: Event): Event {
    if e.kind != MESSAGE_RECEIVED then e else e.(fields := WithKind(WithSender(e.fields)))
  }

  lemma KeysDiffer()
    ensures FROM_NAME !in {FROM, KIND, TARGET_KIND, CHANNEL_ID, TARGET_MODE}
    ensures KIND !in {FROM, TARGET_KIND, CHANNEL_ID, TARGET_MODE}
  {
    assert |FROM_NAME| == 9 && |FROM| == 4 && |KIND| == 12 && |CHANNEL_ID| == 10
      && |TARGET_KIND| == |TARGET_MODE| == 11;
  }

  /** Normalising adds what is missing and changes nothing else, so the daemon's pass before the
      file and the reader's pass behind it agree. */
  lemma NormalizeIsIdempotent(e: Event)
    ensures Normalize(Normalize(e)) == Normalize(e)
    ensures forall k :: k in e.fields ==> k in Normalize(e).fields && Normalize(e).fields[k] == e.fields[k]
    ensures forall k :: k in Normalize(e).fields ==> k in e.fields || k == FROM_NAME || k == KIND
  {
    KeysDiffer();
  }

  predicate Has(e: Event, key: bytes, value: bytes) {
    key in e.fields && e.fields[key] == value
  }

  /** What is filled in, field by field. The kind of a message is its own, or else its target's, or
      else what its channel or its target mode says. */
  lemma NormalizedFields(e: Event)
    ensures var n := Normalize(e);
            && n.kind == e.kind && n.at == e.at
            && (e.kind != "message.received" ==> n == e)
            && (e.kind == "message.received" && "from_name" !in e.fields ==>
                  if "from" in e.fields then Has(n, "from_name", e.fields["from"]) else "from_name" !in n.fields)
            && (e.kind == "message.received" && "message_kind" !in e.fields ==>
                  if "target_kind" in e.fields then Has(n, "message_kind", e.fields["target_kind"])
                  else if "channel_id" in e.fields then Has(n, "message_kind", "channel")
                  else
                    && (Has(e, "target_mode", "1") ==> Has(n, "message_kind", "client"))
                    && (Has(e, "target_mode", "2") ==> Has(n, "message_kind", "channel"))
                    && (Has(e, "target_mode", "3") ==> Has(n, "message_kind", "server"))
                    && ("message_kind" in n.fields <==>
                          Has(e, "target_mode", "1") || Has(e, "target_mode", "2") || Has(e, "target_mode", "3")))
  {
    KeysDiffer();
  }

  /** Cutting the time and normalising do not interfere. */
  lemma NormalizeKeepsTime(e: Event)
    ensures Normalize(WiredEvent(e)) == WiredEvent(Normalize(e))
    ensures Millis(Normalize(e).at) == Millis(e.at)
  {
  }

  // ---------- The file ----------

  ghost function EventFields(e: Event): Fields {
    EncodeEvent(Some(e))[0]
  }

  ghost function EventText(e: Event): bytes {
    Join(EventFields(e), '\t')
  }

  ghost function EventTexts(es: seq<Event>): (r: seq<bytes>)
    ensures |r| == |es| && forall i :: 0 <= i < |r| ==> r[i] == EventText(es[i])
  {
    if es == [] then [] else [EventText(es[0])] + EventTexts(es[1..])
  }

  /** append_inbox_event; a missing file is begun. */
  ghost function Appended(file: Option<bytes>, e: Event): bytes {
    (if file.Some? then file.value else []) + JoinFields(EventFields(e))
  }

  ghost function Journal(es: seq<Event>): Option<bytes> {
    if es == [] then None else Some(Appended(Journal(es[..|es| - 1]), es[|es| - 1]))
  }

  const INVALID_INBOX: Error := MakeError("daemon", "invalid_inbox_file", "invalid message inbox record", Internal)

  function ReadRecord(line: bytes): Result<Event> {
    match DecodeEvent([SplitFields(line)])
    case Err(_) => Err(INVALID_INBOX)
    case Ok(None) => Err(INVALID_INBOX)
    case Ok(Some(e)) => Ok(Normalize(e))
  }

  function ReadRecords(lines: seq<bytes>): Result<seq<Event>> {
    if lines == [] then Ok([])
    else if Trim(lines[0]) == [] then ReadRecords(lines[1..])
    else
      var e :- ReadRecord(lines[0]);
      var rest :- ReadRecords(lines[1..]);
      Ok([e] + rest)
  }

  function LastOnes<T>(s: seq<T>, limit: nat): seq<T> {
    if limit == 0 || |s| <= limit then s else s[|s| - limit..]
  }

  /** read_inbox; a limit of 0 means all. */
  function ReadInbox(file: Option<bytes>, limit: nat): Result<seq<Event>> {
    if file.None? then Ok([])
    else
      var es :- ReadRecords(Lines(file.value));
      Ok(LastOnes(es, limit))
  }

  function CountRecords(lines: seq<bytes>): nat {
    if lines == [] then 0 else (if Trim(lines[0]) == [] then 0 else 1) + CountRecords(lines[1..])
  }

  /** count_inbox_messages */
  function CountInbox(file: Option<bytes>): nat {
    if file.None? then 0 else CountRecords(Lines(file.value))
  }

  // ---------- What was appended is read ----------

  /** An event whose time is not a whole millisecond or more before the epoch. */
  predicate Readable(e: Event) {
    Millis(e.at) >= 0
  }

  predicate AllReadable(es: seq<Event>) {
    forall i :: 0 <= i < |es| ==> Readable(es[i])
  }

  predicate AllStorable(es: seq<Event>) {
    forall i :: 0 <= i < |es| ==> Storable(es[i])
  }

  function Recalled(es: seq<Event>): (r: seq<Event>)
    ensures |r| == |es| && forall i :: 0 <= i < |r| ==> r[i] == Normalize(WiredEvent(es[i]))
  {
    if es == [] then [] else [Normalize(WiredEvent(es[0]))] + Recalled(es[1..])
  }

  lemma EventFieldsArePrintable(e: Event)
    ensures Printable(EventFields(e)) && EventFields(e)[0] == EVENT_TAG
  {
    hide SortedKeys, Texts, PairItems;
    var keys := SortedKeys(e.fields.Keys);
    var items := EventHead(e) + PairItems(keys, e.fields);
    PairsHaveNoWords(keys, e.fields);
    assert Plain(EVENT_TAG);
    RecordIsPrintable(EVENT_TAG, items);
  }

  lemma EventLineReads(e: Event)
    requires Storable(e)
    ensures '\n' !in EventText(e) && Trim(EventText(e)) != []
    ensures ReadRecord(EventText(e)) == if Readable(e) then Ok(Normalize(WiredEvent(e))) else Err(INVALID_INBOX)
  {
    hide EncodeEvent, DecodeEvent, Join, Split, Normalize, Millis, Printable, Trim;
    EventFieldsArePrintable(e);
    EventLineIsOneLine(e);
    assert [EventFields(e)] == EncodeEvent(Some(e)) by { OneEventLine(e); }
    EventRoundTrip(Some(e));
  }

  lemma OneEventLine(e: Event)
    ensures |EncodeEvent(Some(e))| == 1
  {
    hide SortedKeys, Texts, PairItems;
  }

  lemma EventLineIsOneLine(e: Event)
    requires Printable(EventFields(e)) && EventFields(e)[0] == EVENT_TAG
    ensures '\n' !in EventText(e) && Trim(EventText(e)) != [] && SplitFields(EventText(e)) == EventFields(e)
  {
    hide EventFields, Split, Trim;
    var fields := EventFields(e);
    JoinFree(fields, '\t', '\n');
    SplitJoin(fields, '\t');
    TrimIsTrimmed(EventText(e));
    assert EventText(e)[0] == EVENT_TAG[0] == 'e';
  }

  lemma {:induction false} RecordsRead(es: seq<Event>)
    requires AllStorable(es)
    ensures ReadRecords(EventTexts(es)) ==
            if AllReadable(es) then Ok(Recalled(es)) else Err(INVALID_INBOX)
    ensures CountRecords(EventTexts(es)) == |es|
  {
    hide EventText, ReadRecord, Trim, Readable, Normalize, WiredEvent, Storable;
    if es != [] {
      EventLineReads(es[0]);
      RecordsRead(es[1..]);
      assert EventTexts(es)[1..] == EventTexts(es[1..]);
      if !Readable(es[0]) {
      } else if i :| 0 <= i < |es[1..]| && !Readable(es[1..][i]) {
        assert !Readable(es[i + 1]);
      }
    }
  }

  lemma {:induction false} JournalLines(es: seq<Event>)
    requires es != []
    ensures Journal(es) == Some(Terminated(EventTexts(es)))
  {
    hide EventText, EventFields, JoinFields;
    var n := |es| - 1;
    var before := es[..n];
    assert es == before + [es[n]];
    EventTextsSnoc(before, es[n]);
    TerminatedAppend(EventTexts(before), [EventText(es[n])]);
    assert Terminated([EventText(es[n])]) == JoinFields(EventFields(es[n])) by { OneLineEnded(es[n]); }
    if n > 0 {
      JournalLines(before);
    } else {
      assert EventTexts(before) == [] && Terminated([]) == [];
    }
  }

  lemma OneLineEnded(e: Event)
    ensures Terminated([EventText(e)]) == JoinFields(EventFields(e))
  {
    hide EventFields, Join;
    assert [EventText(e)][1..] == [];
  }

  lemma EventTextsSnoc(es: seq<Event>, e: Event)
    ensures EventTexts(es + [e]) == EventTexts(es) + [EventText(e)]
  {
    hide EventText;
  }

  lemma JournalSplits(es: seq<Event>)
    requires es != [] && AllStorable(es)
    ensures Journal(es).Some? && Lines(Journal(es).value) == EventTexts(es)
  {
    hide EventText, Journal, Terminated, Lines, AllStorable;
    JournalLines(es);
    TextsAreLines(es);
    TerminatedLines(EventTexts(es));
  }

  lemma TextsAreLines(es: seq<Event>)
    requires AllStorable(es)
    ensures AllFree(EventTexts(es), '\n')
  {
    hide EventText, Storable, ReadRecord, Trim, Normalize, Millis;
    forall i | 0 <= i < |es| ensures '\n' !in EventTexts(es)[i] {
      EventLineReads(es[i]);
    }
  }

  /** The journal: after any sequence of appends the reader returns the last `limit` events, in
      order, normalised and cut to milliseconds, exactly when every one of them can be read;
      and the count is the number of appends. */
  lemma JournalIsRead(es: seq<Event>, limit: nat)
    requires AllStorable(es)
    ensures ReadInbox(Journal(es), limit) ==
            if AllReadable(es) then Ok(LastOnes(Recalled(es), limit))
            else Err(INVALID_INBOX)
    ensures CountInbox(Journal(es)) == |es|
  {
    hide Journal, AllReadable, AllStorable, Recalled, LastOnes, ReadInbox, CountInbox;
    if es == [] {
      EmptyJournal(limit);
    } else {
      JournalSplits(es);
      RecordsRead(es);
      ReadFile(Journal(es), EventTexts(es), limit);
    }
  }

  lemma ReadFile(file: Option<bytes>, lines: seq<bytes>, limit: nat)
    requires file.Some? && Lines(file.value) == lines
    ensures CountInbox(file) == CountRecords(lines)
    ensures ReadInbox(file, limit) ==
            if ReadRecords(lines).Err? then Err(ReadRecords(lines).error)
              else Ok(LastOnes(ReadRecords(lines).value, limit))
  {
    hide ReadRecords, CountRecords, Lines;
  }

  lemma EmptyJournal(limit: nat)
    ensures ReadInbox(Journal([]), limit) == Ok(LastOnes(Recalled([]), limit)) && CountInbox(Journal([])) == 0
    ensures AllReadable([])
  {
  }

  /** What the daemon hands on, normalised before it is appended, is what the reader returns. */
  lemma DaemonAndReaderAgree(es: seq<Event>, i: nat)
    requires i < |es|
    requires AllStorable(es) && AllReadable(es)
    requires forall j :: 0 <= j < |es| ==> es[j] == Normalize(es[j])
    ensures ReadInbox(Journal(es), 0).Ok? && |ReadInbox(Journal(es), 0).value| == |es|
    ensures ReadInbox(Journal(es), 0).value[i] == WiredEvent(es[i])
  {
    hide ReadInbox, Journal, Normalize, AllStorable, AllReadable;
    JournalIsRead(es, 0);
    NormalizeKeepsTime(es[i]);
  }

  // ---------- Files that were edited by hand ----------

  /** What the reader returns is the end of what is there: all of it if the limit is 0 or is not
      reached, and otherwise exactly `limit` events. */
  lemma LastOnesAreTheEnd<T>(s: seq<T>, limit: nat)
    ensures var r := LastOnes(s, limit);
            && s == s[..|s| - |r|] + r
            && |r| == if limit == 0 || |s| < limit then |s| else limit
  {
  }

  /** The lines that are not blank. */
  function Written(lines: seq<bytes>): seq<bytes> {
    if lines == [] then [] else (if Blank(lines[0]) then [] else [lines[0]]) + Written(lines[1..])
  }

  /** Blank lines are in neither the messages nor the count; every other line is counted, and one
      that is no event makes the whole file unreadable. */
  lemma {:induction false} OnlyWrittenLinesCount(lines: seq<bytes>)
    ensures CountRecords(lines) == |Written(lines)|
    ensures ReadRecords(lines).Ok? <==> forall i :: 0 <= i < |Written(lines)| ==> ReadRecord(Written(lines)[i]).Ok?
    ensures ReadRecords(lines).Ok? ==>
              |ReadRecords(lines).value| == |Written(lines)| &&
              forall i :: 0 <= i < |Written(lines)| ==> Ok(ReadRecords(lines).value[i]) == ReadRecord(Written(lines)[i])
    ensures ReadRecords(lines).Err? ==> ReadRecords(lines).error == INVALID_INBOX
  {
    hide ReadRecord, Trim, Blank;
    if lines != [] {
      var more := Written(lines[1..]);
      OnlyWrittenLinesCount(lines[1..]);
      TrimIsTrimmed(lines[0]);
      if !Blank(lines[0]) {
        BadRecords(lines[0]);
        assert Written(lines) == [lines[0]] + more;
        assert Written(lines)[0] == lines[0];
        assert forall i | 0 <= i < |more| :: Written(lines)[i + 1] == more[i];
        if ReadRecords(lines[1..]).Err? {
          var i :| 0 <= i < |more| && ReadRecord(more[i]).Err?;
          assert ReadRecord(Written(lines)[i + 1]).Err?;
        } else {
          assert forall i | 0 < i < |Written(lines)| :: Written(lines)[i] == more[i - 1];
        }
      } else {
        assert Written(lines) == more;
      }
    }
  }

  lemma BadRecords(line: bytes)
    ensures ReadRecord(line).Err? ==> ReadRecord(line).error == INVALID_INBOX
  {
    hide DecodeEvent;
  }

  // ---------- The file operations as written ----------

  /** Events are changed in place: a field is added unless it is there. */
  method NormalizeInPlace(event: Event) returns (r: Event)
    ensures r == Normalize(event)
  {
    r := event;
    if r.kind != MESSAGE_RECEIVED {
      return;
    }
    if FROM_NAME !in r.fields {
      if FROM in r.fields {
        r := r.(fields := r.fields[FROM_NAME := r.fields[FROM]]);
      }
    }
    if KIND !in r.fields {
      if TARGET_KIND in r.fields {
        r := r.(fields := r.fields[KIND := r.fields[TARGET_KIND]]);
      } else if CHANNEL_ID in r.fields {
        r := r.(fields := r.fields[KIND := CHANNEL_KIND]);
      } else if TARGET_MODE in r.fields {
        if r.fields[TARGET_MODE] == "1" {
          r := r.(fields := r.fields[KIND := CLIENT_KIND]);
        } else if r.fields[TARGET_MODE] == "2" {
          r := r.(fields := r.fields[KIND := CHANNEL_KIND]);
        } else if r.fields[TARGET_MODE] == "3" {
          r := r.(fields := r.fields[KIND := SERVER_KIND]);
        }
      }
    }
  }

  lemma {:induction false} ReadRecordsAppend(lines: seq<bytes>, last: bytes)
    ensures ReadRecords(lines + [last]) ==
            if ReadRecords(lines).Err? || Trim(last) == [] then ReadRecords(lines)
            else if ReadRecord(last).Err? then Err(ReadRecord(last).error)
            else Ok(ReadRecords(lines).value + [ReadRecord(last).value])
  {
    hide ReadRecord, Trim;
    if lines == [] {
      assert lines + [last] == [last] && [last][1..] == [];
      if ReadRecord(last).Ok? {
        assert [ReadRecord(last).value] + [] == [] + [ReadRecord(last).value];
      }
    } else {
      assert (lines + [last])[1..] == lines[1..] + [last];
      ReadRecordsAppend(lines[1..], last);
      if Trim(lines[0]) != [] && ReadRecord(lines[0]).Ok? && ReadRecords(lines[1..]).Ok? && ReadRecord(last).Ok? {
        var first, rest := ReadRecord(lines[0]).value, ReadRecords(lines[1..]).value;
        assert [first] + (rest + [ReadRecord(last).value]) == [first] + rest + [ReadRecord(last).value];
      }
    }
  }

  lemma {:induction false} ReadRecordsFails(lines: seq<bytes>, more: seq<bytes>)
    requires ReadRecords(lines).Err?
    ensures ReadRecords(lines + more) == ReadRecords(lines)
  {
    hide ReadRecord, Trim;
    assert (lines + more)[1..] == lines[1..] + more;
    if Trim(lines[0]) == [] || ReadRecord(lines[0]).Ok? {
      ReadRecordsFails(lines[1..], more);
    }
  }

  lemma {:induction false} CountRecordsAppend(lines: seq<bytes>, last: bytes)
    ensures CountRecords(lines + [last]) == CountRecords(lines) + if Trim(last) == [] then 0 else 1
  {
    hide Trim;
    if lines == [] {
      assert lines + [last] == [last] && [last][1..] == [];
    } else {
      assert (lines + [last])[1..] == lines[1..] + [last];
      CountRecordsAppend(lines[1..], last);
    }
  }

  class InboxFile {
    var file: Option<bytes>

    constructor ()
      ensures file == None
    {
      file := None;
    }

    /** append_inbox_event */
    method AppendEvent(e: Event)
      modifies this
      ensures file == Some(Appended(old(file), e))
    {
      hide EncodeEvent, JoinFields;
      var fields := EncodeEventLine(e);
      var line := JoinFieldsText(fields);
      file := Some((if file.Some? then file.value else []) + line);
    }

    /** read_inbox */
    method ReadMessages(limit: nat) returns (r: Result<seq<Event>>)
      ensures r == ReadInbox(file, limit)
    {
      hide DecodeEvent, Trim, Lines, Normalize;
      if file.None? {
        return Ok([]);
      }
      var lines := Lines(file.value);
      var messages: seq<Event> := [];
      for i := 0 to |lines|
        invariant ReadRecords(lines[..i]) == Ok(messages)
      {
        ReadRecordsAppend(lines[..i], lines[i]);
        assert lines[..i + 1] == lines[..i] + [lines[i]];
        var trimmed := TrimText(lines[i]);
        if trimmed == [] {
          continue;
        }
        var fields := SplitText(lines[i], '\t');
        var decoded := DecodeEvent([fields]);
        if decoded.Err? || decoded.value.None? {
          ReadRecordsFails(lines[..i + 1], lines[i + 1..]);
          assert lines[..i + 1] + lines[i + 1..] == lines;
          return Err(INVALID_INBOX);
        }
        var message := NormalizeInPlace(decoded.value.value);
        messages := messages + [message];
      }
      assert lines[..|lines|] == lines;
      if limit == 0 || |messages| <= limit {
        return Ok(messages);
      }
      return Ok(messages[|messages| - limit..]);
    }

    /** count_inbox_messages */
    method CountMessages() returns (count: nat)
      ensures count == CountInbox(file)
    {
      hide Trim, Lines;
      count := 0;
      if file.None? {
        return;
      }
      var lines := Lines(file.value);
      for i := 0 to |lines|
        invariant count == CountRecords(lines[..i])
      {
        CountRecordsAppend(lines[..i], lines[i]);
        assert lines[..i + 1] == lines[..i] + [lines[i]];
        var trimmed := TrimText(lines[i]);
        if trimmed != [] {
          count := count + 1;
        }
      }
      assert lines[..|lines|] == lines;
    }
  }
}
