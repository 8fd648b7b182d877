/**
 Reading the header of a stored record without reading the record
 (internal/sessionstore/store.go, decodeResponseHeader), against decoding the whole.

 A document is the sequence of its complete members, and how it ends. A key is one
 of the four wanted names spelled exactly, one of them spelled in another case, or
 the name of something else.
 */
module HeaderDecode {
  import opened Common

  datatype Field = Version | Id | Session | Deleted

  /** How many names the decoder's switch recognises. */
  const WANTED_HEADER_FIELDS := 4

  /** A foreign key says whether the record's own field of that name can hold the value. */
  datatype Key = Exact(field: Field) | Respelled(field: Field) | Foreign(fits: bool)

  datatype Value = Number(number: int) | Text(text: string) | Flag(flag: bool) | Null | Composite

  datatype Member = Member(key: Key, value: Value)

  /** Closed, closed with more text behind it, or broken off or malformed after its last complete member. */
  datatype Ending = Closed | Trailed | Broken

  datatype Document = NotObject | Object(members: seq<Member>, ending: Ending)

  datatype Header = Header(version: Value, id: Value, session: Value, deleted: Value) {
    function Get(field: Field): Value {
      match field
      case Version => version
      case Id => id
      case Session => session
      case Deleted => deleted
    }

    /** A null leaves the field as it was. */
    function Store(field: Field, value: Value): Header {
      if value.Null? then this
      else match field
        case Version => this.(version := value)
        case Id => this.(id := value)
        case Session => this.(session := value)
        case Deleted => this.(deleted := value)
    }
  }

  const ZERO := Header(Number(0), Text(""), Text(""), Flag(false))

  predicate Fits(field: Field, value: Value) {
    value.Null? || match field
      case Version => value.Number?
      case Id => value.Text?
      case Session => value.Text?
      case Deleted => value.Flag?
  }

  // ---- The early-stopping decode -------------------------------------------------

  datatype Scan = Stopped(header: Header) | Walked(header: Header) | Refused

  function ScanMembers(members: seq<Member>, seen: nat, h: Header): Scan
    decreases |members|
  {
    if members == [] then Walked(h)
    else if !members[0].key.Exact? then ScanMembers(members[1..], seen, h)
    else if !Fits(members[0].key.field, members[0].value) then Refused
    else
      var stored := h.Store(members[0].key.field, members[0].value);
      if seen + 1 == WANTED_HEADER_FIELDS then Stopped(stored) else ScanMembers(members[1..], seen + 1, stored)
  }

  function DecodeHeader(doc: Document): Option<Header> {
    if doc.NotObject? then None
    else match ScanMembers(doc.members, 0, ZERO)
      case Refused => None
      case Stopped(h) => Some(h)
      case Walked(h) => if doc.ending.Broken? then None else Some(h)
  }

  method DecodeResponseHeader(doc: Document) returns (result: Option<Header>)
    ensures result == DecodeHeader(doc)
  {
    if doc.NotObject? {
      return None;
    }
    var header := ZERO;
    var seen := 0;
    for i := 0 to |doc.members|
      invariant seen < WANTED_HEADER_FIELDS
      invariant ScanMembers(doc.members, 0, ZERO) == ScanMembers(doc.members[i..], seen, header)
    {
      assert doc.members[i..][0] == doc.members[i] && doc.members[i..][1..] == doc.members[i + 1..];
      var m := doc.members[i];
      if m.key.Exact? {
        if !Fits(m.key.field, m.value) {
          return None;
        }
        header := header.Store(m.key.field, m.value);
        seen := seen + 1;
        if seen == WANTED_HEADER_FIELDS {
          return Some(header);
        }
      }
    }
    if doc.ending.Broken? {
      return None;
    }
    result := Some(header);
  }

  // ---- The full decode -------------------------------------------------------------

  /** The record field a key reaches; case does not matter here. */
  function FieldOf(key: Key): Option<Field> {
    match key
    case Exact(f) => Some(f)
    case Respelled(f) => Some(f)
    case Foreign(_) => None
  }

  predicate Holds(m: Member) {
    if m.key.Foreign? then m.key.fits else Fits(m.key.field, m.value)
  }

  function StoreAll(members: seq<Member>, h: Header): Header
    decreases |members|
  {
    if members == [] then h
    else
      var field := FieldOf(members[0].key);
      StoreAll(members[1..], if field.Some? then h.Store(field.value, members[0].value) else h)
  }

  /** Every value is one the record can hold. */
  predicate AllHold(members: seq<Member>) {
    members == [] || (Holds(members[0]) && AllHold(members[1..]))
  }

  /** The four fields of the fully decoded record. */
  function DecodeRecord(doc: Document): Option<Header> {
    if doc.NotObject? || !doc.ending.Closed? || !AllHold(doc.members) then None
    else Some(StoreAll(doc.members, ZERO))
  }

  // ---- When the two agree ------------------------------------------------------------

  predicate Reaches(m: Member, field: Field, exactly: bool) {
    if exactly then m.key == Exact(field) else FieldOf(m.key) == Some(field)
  }

  predicate Mentions(members: seq<Member>, field: Field, exactly: bool) {
    members != [] && (Reaches(members[0], field, exactly) || Mentions(members[1..], field, exactly))
  }

  /** No field is given twice, in any spelling. */
  predicate UniqueFields(members: seq<Member>) {
    members == [] ||
    (&& (members[0].key.Foreign? || !Mentions(members[1..], members[0].key.field, false))
     && UniqueFields(members[1..]))
  }

  /** The value a field ends up with, by its exact name or by any spelling. */
  function ValueOf(members: seq<Member>, field: Field, exactly: bool, value: Value): Value
    decreases |members|
  {
    if members == [] then value
    else
      ValueOf(members[1..], field, exactly,
              if Reaches(members[0], field, exactly) && !members[0].value.Null? then members[0].value else value)
  }

  lemma {:induction false} StoredValue(members: seq<Member>, h: Header, field: Field)
    ensures StoreAll(members, h).Get(field) == ValueOf(members, field, false, h.Get(field))
    decreases |members|
  {
    if members != [] {
      var reached := FieldOf(members[0].key);
      StoredValue(members[1..], if reached.Some? then h.Store(reached.value, members[0].value) else h, field);
    }
  }

  lemma {:induction false} ExactMentionIsMention(members: seq<Member>, field: Field)
    ensures Mentions(members, field, true) ==> Mentions(members, field, false)
  {
    if members != [] { ExactMentionIsMention(members[1..], field); }
  }

  lemma {:induction false} UnmentionedKeeps(members: seq<Member>, field: Field, exactly: bool, value: Value)
    requires !Mentions(members, field, exactly)
    ensures ValueOf(members, field, exactly, value) == value
    decreases |members|
  {
    if members != [] { UnmentionedKeeps(members[1..], field, exactly, value); }
  }

  /** Four flags for the wanted fields, and how many are up. */
  function Count(read: set<Field>): nat {
    (if Version in read then 1 else 0) + (if Id in read then 1 else 0)
    + (if Session in read then 1 else 0) + (if Deleted in read then 1 else 0)
  }

  lemma CountGrows(read: set<Field>, field: Field)
    requires field !in read
    ensures Count(read + {field}) == Count(read) + 1
  {
    match field
    case Version =>
    case Id =>
    case Session =>
    case Deleted =>
  }

  lemma FullCount(read: set<Field>)
    ensures Count(read) == WANTED_HEADER_FIELDS <==> forall f: Field :: f in read
  {
    if Count(read) == WANTED_HEADER_FIELDS {
      forall f: Field ensures f in read {
        match f
        case Version =>
        case Id =>
        case Session =>
        case Deleted =>
      }
    }
  }

  /** Exactly named values are of their types. */
  predicate ExactFit(members: seq<Member>) {
    members == [] || ((members[0].key.Exact? ==> Fits(members[0].key.field, members[0].value))
                      && ExactFit(members[1..]))
  }

  /** With each field at most once and every value of its type, a scan never fails on a value. */
  lemma {:induction false} ScanAccepts(members: seq<Member>, seen: nat, h: Header)
    requires ExactFit(members)
    ensures !ScanMembers(members, seen, h).Refused?
    decreases |members|
  {
    if members != [] && members[0].key.Exact? && seen + 1 != WANTED_HEADER_FIELDS {
      ScanAccepts(members[1..], seen + 1, h.Store(members[0].key.field, members[0].value));
    } else if members != [] && !members[0].key.Exact? {
      ScanAccepts(members[1..], seen, h);
    }
  }

  /** Wherever the scan stops, the field has its exactly named value: what is left unread names no field twice. */
  lemma {:induction false} ScanGathers(members: seq<Member>, read: set<Field>, h: Header, field: Field)
    requires UniqueFields(members) && ExactFit(members) && Count(read) < WANTED_HEADER_FIELDS
    requires forall f :: f in read ==> !Mentions(members, f, true)
    ensures var r := ScanMembers(members, Count(read), h);
            !r.Refused? && r.header.Get(field) == ValueOf(members, field, true, h.Get(field))
    decreases |members|
  {
    if members != [] {
      var m, rest := members[0], members[1..];
      if m.key.Exact? {
        var more, stored := read + {m.key.field}, h.Store(m.key.field, m.value);
        assert m.key.field !in read;
        CountGrows(read, m.key.field);
        ExactMentionIsMention(rest, m.key.field);
        if Count(more) == WANTED_HEADER_FIELDS {
          FullCount(more);
          assert !Mentions(rest, field, true);
          UnmentionedKeeps(rest, field, true, stored.Get(field));
        } else {
          ScanGathers(rest, more, stored, field);
        }
      } else {
        ScanGathers(rest, read, h, field);
      }
    }
  }

  /** The scan stops early exactly if it finds every field it has not read yet. */
  lemma {:induction false} ScanStops(members: seq<Member>, read: set<Field>, h: Header)
    requires UniqueFields(members) && ExactFit(members) && Count(read) < WANTED_HEADER_FIELDS
    requires forall f :: f in read ==> !Mentions(members, f, true)
    ensures ScanMembers(members, Count(read), h).Stopped? <==>
      forall f: Field :: f in read || Mentions(members, f, true)
    decreases |members|
  {
    if members == [] {
      FullCount(read);
    } else {
      var m, rest := members[0], members[1..];
      if m.key.Exact? {
        var more := read + {m.key.field};
        assert m.key.field !in read;
        CountGrows(read, m.key.field);
        ExactMentionIsMention(rest, m.key.field);
        assert forall f: Field :: f in more || Mentions(rest, f, true) <==> f in read || Mentions(members, f, true);
        FullCount(more);
        if Count(more) != WANTED_HEADER_FIELDS {
          ScanStops(rest, more, h.Store(m.key.field, m.value));
        }
      } else {
        ScanStops(rest, read, h);
      }
    }
  }

  // ---- Results ---------------------------------------------------------------------

  /** A field spelled in another case, with a value that matters. */
  predicate Overlooked(m: Member) {
    m.key.Respelled? && !m.value.Null? && m.value != ZERO.Get(m.key.field)
  }

  predicate NoneOverlooked(members: seq<Member>, field: Field) {
    members == [] || (!(members[0].key == Respelled(field) && Overlooked(members[0]))
                      && NoneOverlooked(members[1..], field))
  }

  ghost predicate NothingOverlooked(members: seq<Member>) {
    forall f: Field :: NoneOverlooked(members, f)
  }

  lemma {:induction false} UnmentionedNotOverlooked(members: seq<Member>, field: Field)
    requires !Mentions(members, field, false)
    ensures NoneOverlooked(members, field)
  {
    if members != [] { UnmentionedNotOverlooked(members[1..], field); }
  }

  /** A field is read alike by both decodes exactly if its one spelling is not overlooked. */
  lemma {:induction false} ReadAlike(members: seq<Member>, field: Field)
    requires UniqueFields(members)
    ensures ValueOf(members, field, true, ZERO.Get(field)) == ValueOf(members, field, false, ZERO.Get(field))
       <==> NoneOverlooked(members, field)
    decreases |members|
  {
    if members != [] {
      var m, rest := members[0], members[1..];
      if FieldOf(m.key) == Some(field) {
        ExactMentionIsMention(rest, field);
        UnmentionedNotOverlooked(rest, field);
        UnmentionedKeeps(rest, field, true, ZERO.Get(field));
        UnmentionedKeeps(rest, field, false, ZERO.Get(field));
        UnmentionedKeeps(rest, field, true, m.value);
        UnmentionedKeeps(rest, field, false, m.value);
      } else {
        ReadAlike(rest, field);
      }
    }
  }

  lemma SameFields(h: Header, k: Header)
    ensures h == k <==> forall f: Field :: h.Get(f) == k.Get(f)
  {
    if forall f: Field :: h.Get(f) == k.Get(f) {
      assert h.Get(Version) == k.Get(Version) && h.Get(Id) == k.Get(Id);
      assert h.Get(Session) == k.Get(Session) && h.Get(Deleted) == k.Get(Deleted);
    }
  }

  lemma {:induction false} HeldValuesFit(members: seq<Member>)
    requires AllHold(members)
    ensures ExactFit(members)
  {
    if members != [] { HeldValuesFit(members[1..]); }
  }

  /**
   For every complete record that gives no field twice, the header read early is the
   header of the decoded record exactly if no field in another spelling is overlooked.
   */
  lemma AgreesExactlyIf(doc: Document)
    requires doc.Object? && UniqueFields(doc.members) && DecodeRecord(doc).Some?
    ensures DecodeHeader(doc) == DecodeRecord(doc) <==> NothingOverlooked(doc.members)
  {
    var members := doc.members;
    HeldValuesFit(members);
    ScanAccepts(members, 0, ZERO);
    assert Count({}) == 0;
    var header, record := ScanMembers(members, 0, ZERO).header, StoreAll(members, ZERO);
    assert DecodeHeader(doc) == Some(header) && DecodeRecord(doc) == Some(record);
    forall f: Field ensures header.Get(f) == record.Get(f) <==> NoneOverlooked(members, f) {
      ScanGathers(members, {}, ZERO, f);
      StoredValue(members, ZERO, f);
      ReadAlike(members, f);
    }
    SameFields(header, record);
    if header != record {
      var f: Field :| header.Get(f) != record.Get(f);
      assert !NoneOverlooked(members, f);
    } else {
      forall f: Field ensures NoneOverlooked(members, f) {
        assert header.Get(f) == record.Get(f);
      }
    }
  }

  /** A record broken off yields a header exactly if all four fields were read before the break. */
  lemma BrokenRecordIsReadExactlyIf(members: seq<Member>)
    requires UniqueFields(members) && ExactFit(members)
    ensures DecodeHeader(Object(members, Broken)).Some? <==> forall f: Field :: Mentions(members, f, true)
  {
    assert Count({}) == 0;
    ScanAccepts(members, 0, ZERO);
    ScanStops(members, {}, ZERO);
  }

  /** Without "deleted" in its exact spelling a deleted record reads as a live one. */
  lemma RespelledTombstoneIsOverlooked()
    ensures var doc := Object([Member(Exact(Version), Number(3)), Member(Respelled(Deleted), Flag(true))], Closed);
            && DecodeRecord(doc).Some? && DecodeRecord(doc).value.deleted == Flag(true)
            && DecodeHeader(doc).Some? && DecodeHeader(doc).value.deleted == Flag(false)
  {
    var members := [Member(Exact(Version), Number(3)), Member(Respelled(Deleted), Flag(true))];
    assert members[1..] == [members[1]] && members[1..][1..] == [];
    var third := ZERO.Store(Version, Number(3));
    assert ScanMembers(members[1..][1..], 1, third) == Walked(third);
    assert ScanMembers(members[1..], 1, third) == Walked(third);
    assert AllHold(members[1..]);
    assert StoreAll(members[1..], third).deleted == Flag(true);
  }

  // ---- Records this store wrote ------------------------------------------------------

  /** The members of a written record: the wanted fields by name and value, other fields among and behind them. */
  predicate WrittenMembers(members: seq<Member>, h: Header) {
    members == [] ||
    (&& (if members[0].key.Foreign? then members[0].key.fits
         else members[0].key.Exact? && members[0].value == h.Get(members[0].key.field))
     && WrittenMembers(members[1..], h))
  }

  predicate Typed(h: Header) {
    h.version.Number? && h.id.Text? && h.session.Text? && h.deleted.Flag?
  }

  ghost predicate Written(members: seq<Member>, h: Header) {
    && Typed(h) && UniqueFields(members) && WrittenMembers(members, h)
    && forall f: Field :: Mentions(members, f, true)
  }

  lemma {:induction false} WrittenValue(members: seq<Member>, h: Header, field: Field, exactly: bool, value: Value)
    requires Typed(h) && WrittenMembers(members, h)
    ensures ValueOf(members, field, exactly, value) == if Mentions(members, field, exactly) then h.Get(field) else value
    decreases |members|
  {
    if members != [] {
      var m := members[0];
      var next := if Reaches(m, field, exactly) && !m.value.Null? then m.value else value;
      WrittenValue(members[1..], h, field, exactly, next);
    }
  }

  lemma {:induction false} WrittenHolds(members: seq<Member>, h: Header)
    requires Typed(h) && WrittenMembers(members, h)
    ensures AllHold(members)
  {
    if members != [] { WrittenHolds(members[1..], h); }
  }

  lemma {:induction false} WrittenPrefix(members: seq<Member>, h: Header, kept: nat)
    requires UniqueFields(members) && WrittenMembers(members, h) && kept <= |members|
    ensures UniqueFields(members[..kept]) && WrittenMembers(members[..kept], h)
    ensures forall f, exactly :: Mentions(members[..kept], f, exactly) ==> Mentions(members, f, exactly)
    decreases |members|
  {
    if kept > 0 {
      WrittenPrefix(members[1..], h, kept - 1);
      assert members[..kept][1..] == members[1..][..kept - 1];
    }
  }

  /** What is read of a written record, whole or broken off anywhere, is its own header or an error. */
  lemma TornRecordNeverLies(members: seq<Member>, h: Header, kept: nat, ending: Ending)
    requires Written(members, h) && kept <= |members| && (ending.Broken? || kept == |members|)
    ensures DecodeHeader(Object(members[..kept], ending)) in {None, Some(h)}
    ensures kept == |members| ==> DecodeHeader(Object(members, ending)) == Some(h)
  {
    var part := members[..kept];
    WrittenPrefix(members, h, kept);
    WrittenHolds(part, h);
    HeldValuesFit(part);
    assert Count({}) == 0;
    ScanStops(part, {}, ZERO);
    if kept == |members| { assert part == members; }
    if forall f: Field :: Mentions(part, f, true) {
      var header := ScanMembers(part, 0, ZERO).header;
      forall f: Field ensures header.Get(f) == h.Get(f) {
        ScanGathers(part, {}, ZERO, f);
        WrittenValue(part, h, f, true, ZERO.Get(f));
      }
      SameFields(header, h);
    } else {
      ScanAccepts(part, 0, ZERO);
      var f: Field :| !Mentions(part, f, true);
      assert !(f in {} || Mentions(part, f, true));
      assert ScanMembers(part, 0, ZERO).Walked? && ending.Broken?;
    }
  }

  /** The full decode of a written record finds the same header. */
  lemma WrittenRecordDecodes(members: seq<Member>, h: Header)
    requires Written(members, h)
    ensures DecodeRecord(Object(members, Closed)) == Some(h)
  {
    WrittenHolds(members, h);
    forall f: Field ensures StoreAll(members, ZERO).Get(f) == h.Get(f) {
      StoredValue(members, ZERO, f);
      WrittenValue(members, h, f, false, ZERO.Get(f));
      ExactMentionIsMention(members, f);
    }
    SameFields(StoreAll(members, ZERO), h);
  }

  // ---- What a save makes of the record it would replace ---------------------------------

  const RESPONSE_RECORD_VERSION := 3

  predicate Accepted(h: Header)
    requires Typed(h)
  {
    if h.version.number in {0, 1, 2} then h.id != Text("") else h.version.number == RESPONSE_RECORD_VERSION
  }

  datatype Guard = SaveRefused | SaveProceeds(previousSession: string)

  function SaveOver(existing: Option<Document>): Guard {
    if existing.None? then SaveProceeds("")
    else
      var header := DecodeHeader(existing.value);
      if header.None? || !Typed(header.value) || !Accepted(header.value) || header.value.deleted.flag then SaveRefused
      else SaveProceeds(header.value.session.text)
  }

  /** No save replaces a written tombstone, whole or broken off anywhere. */
  lemma TombstoneIsNeverReplaced(members: seq<Member>, h: Header, kept: nat, ending: Ending)
    requires Written(members, h) && h.deleted == Flag(true)
    requires kept <= |members| && (ending.Broken? || kept == |members|)
    ensures SaveOver(Some(Object(members[..kept], ending))).SaveRefused?
  {
    TornRecordNeverLies(members, h, kept, ending);
  }

  /**
   A save over a written live record proceeds, knowing whose link to remove, exactly if
   the record is of version 3, which the store writes, or of an older one and has an id.
   */
  lemma LiveRecordIsReplaced(members: seq<Member>, h: Header, ending: Ending)
    requires Written(members, h) && h.deleted == Flag(false)
    ensures SaveOver(Some(Object(members, ending))) ==
      if h.version == Number(3) || (h.version in {Number(0), Number(1), Number(2)} && h.id != Text(""))
      then SaveProceeds(h.session.text) else SaveRefused
  {
    TornRecordNeverLies(members, h, |members|, ending);
  }
}
