/** The `headers` message: `parse_headers_announcements` and `parse_block_announcement_from_header` (src/p2p.rs). */
module Headers {
  import opened ByteStrings
  import opened CompactSize
  import opened Transactions

  datatype Announcement = Announcement(prevHash: Hash, blockHash: Hash, time: U32, nbits: U32)

  function U32At(raw: Bytes, at: nat): U32
    requires at + 4 <= |raw|
  {
    LeValueBound(raw[at..at + 4]);
    Pow256Values();
    LeValue(raw[at..at + 4])
  }

  function AnnouncementOf(h: Hasher, raw: Bytes): Announcement
    requires |raw| == 80
  {
    Announcement(raw[4..36], h(raw), U32At(raw, 68), U32At(raw, 72))
  }

  /** The fixed offsets pick the fields out of a serialised header. */
  lemma AnnouncementOfHeader(h: Hasher, header: Header)
    ensures AnnouncementOf(h, HeaderBytes(header))
            == Announcement(header.prevHash, h(HeaderBytes(header)), header.time, header.nbits)
  {
    var raw := HeaderBytes(header);
    Pow256Values();
    assert raw[4..36] == header.prevHash;
    assert raw[68..72] == LeBytes(header.time, 4);
    assert raw[72..76] == LeBytes(header.nbits, 4);
    LeRoundTrip(header.time, 4);
    LeRoundTrip(header.nbits, 4);
  }

  /** One entry: 80 header bytes and a transaction count that must be zero, in any spelling. */
  datatype Entry = Entry(raw: Bytes, count: Bytes)

  predicate GoodEntry(e: Entry) {
    |e.raw| == 80 && Decode(e.count) == Parsed(0, [])
  }

  predicate AllGood(entries: seq<Entry>) {
    forall i :: 0 <= i < |entries| ==> GoodEntry(entries[i])
  }

  function EntryBytes(e: Entry): Bytes { e.raw + e.count }

  function ReadEntry(s: Bytes): Parsed<Entry> {
    if |s| < 80 then Malformed
    else
      match Decode(s[80..])
      case Malformed => Malformed
      case Parsed(n, rest) =>
        if n != 0 || |rest| > |s| - 80 then Malformed else Parsed(Entry(s[..80], s[80..|s| - |rest|]), rest)
  }

  function AnnouncementsOf(h: Hasher, entries: seq<Entry>): seq<Announcement>
    requires AllGood(entries)
  {
    seq(|entries|, i requires 0 <= i < |entries| => AnnouncementOf(h, entries[i].raw))
  }

  lemma EntryReadsBack(e: Entry, rest: Bytes)
    requires GoodEntry(e)
    ensures ReadEntry(EntryBytes(e) + rest) == Parsed(e, rest)
  {
    var s := EntryBytes(e) + rest;
    assert s[..80] == e.raw && s[80..] == e.count + rest;
    DecodeConsumes(e.count, rest);
    assert e.count[..|e.count|] == e.count;
    assert s[80..|s| - |rest|] == e.count;
  }

  lemma EntryConsumes(s: Bytes)
    requires ReadEntry(s).Parsed?
    ensures GoodEntry(ReadEntry(s).value) && s == EntryBytes(ReadEntry(s).value) + ReadEntry(s).rest
  {
    var e, rest := ReadEntry(s).value, ReadEntry(s).rest;
    DecodeConsumes(s[80..], []);
    assert s[80..][..|s| - 80 - |rest|] == e.count;
    assert e.count + [] == e.count;
  }

  lemma {:induction false} ManyConsume(n: nat, s: Bytes)
    requires ReadMany(ReadEntry, n, s).Parsed?
    ensures var p := ReadMany(ReadEntry, n, s);
            && |p.value| == n && AllGood(p.value)
            && s == Flatten(EntryBytes, p.value) + p.rest
  {
    if n > 0 {
      var first := ReadEntry(s);
      var others := ReadMany(ReadEntry, n - 1, first.rest);
      assert ReadMany(ReadEntry, n, s) == Parsed([first.value] + others.value, others.rest);
      EntryConsumes(s);
      ManyConsume(n - 1, first.rest);
      FlattenCons(first.value, others.value);
      Assoc(EntryBytes(first.value), Flatten(EntryBytes, others.value), others.rest);
    }
  }

  lemma FlattenCons(first: Entry, others: seq<Entry>)
    ensures Flatten(EntryBytes, [first] + others) == EntryBytes(first) + Flatten(EntryBytes, others)
  {
    assert ([first] + others)[1..] == others;
  }

  /** The entries of an accepted payload, `None` for a refused one. */
  function Entries(payload: Bytes): Option<seq<Entry>> {
    match Decode(payload)
    case Malformed => None
    case Parsed(n, rest) =>
      match ReadMany(ReadEntry, n, rest)
      case Malformed => None
      case Parsed(entries, trailing) => if trailing == [] then Some(entries) else None
  }

  /** A payload is accepted with some entries exactly when it is a count spelling followed by those entries and
      nothing else. */
  lemma AcceptedPayloads(payload: Bytes, entries: seq<Entry>)
    ensures Entries(payload) == Some(entries) <==>
      AllGood(entries) &&
      exists count: Bytes :: Sized(|entries|) && Decode(count) == Parsed(|entries|, [])
        && payload == count + Flatten(EntryBytes, entries)
  {
    if Entries(payload) == Some(entries) {
      var rest := Decode(payload).rest;
      DecodeConsumes(payload, []);
      var count := payload[..|payload| - |rest|];
      assert count + [] == count;
      ManyConsume(Decode(payload).value, rest);
      assert rest == Flatten(EntryBytes, entries) + [] == Flatten(EntryBytes, entries);
    } else if AllGood(entries) {
      forall count: Bytes | Sized(|entries|) && Decode(count) == Parsed(|entries|, [])
        && payload == count + Flatten(EntryBytes, entries)
        ensures false
      {
        CountedEntries(count, entries);
      }
    }
  }

  lemma CountedEntries(count: Bytes, entries: seq<Entry>)
    requires Sized(|entries|) && Decode(count) == Parsed(|entries|, []) && AllGood(entries)
    ensures Entries(count + Flatten(EntryBytes, entries)) == Some(entries)
  {
    var body := Flatten(EntryBytes, entries);
    DecodeConsumes(count, body);
    assert count[..|count|] == count;
    forall e, tail | e in entries
      ensures ReadEntry(EntryBytes(e) + tail) == Parsed(e, tail)
    {
      EntryReadsBack(e, tail);
    }
    ManyRoundTrip(ReadEntry, EntryBytes, entries, []);
    assert body + [] == body;
  }

  function PlainEntry(header: Header): Entry { Entry(HeaderBytes(header), [0]) }

  function PlainEntries(headers: seq<Header>): seq<Entry> {
    seq(|headers|, i requires 0 <= i < |headers| => PlainEntry(headers[i]))
  }

  /** A serialised list of headers is parsed into those headers, in order. */
  lemma HeadersRoundTrip(h: Hasher, headers: seq<Header>)
    requires Sized(|headers|)
    ensures var parsed := Entries(Encode(|headers|) + Flatten(EntryBytes, PlainEntries(headers)));
            && parsed == Some(PlainEntries(headers))
            && forall i :: 0 <= i < |headers| ==>
                 AnnouncementsOf(h, parsed.value)[i]
                 == Announcement(headers[i].prevHash, h(HeaderBytes(headers[i])), headers[i].time, headers[i].nbits)
  {
    RoundTrip(|headers|, []);
    assert Encode(|headers|) + [] == Encode(|headers|);
    CountedEntries(Encode(|headers|), PlainEntries(headers));
    forall i | 0 <= i < |headers|
      ensures AnnouncementOf(h, PlainEntries(headers)[i].raw)
              == Announcement(headers[i].prevHash, h(HeaderBytes(headers[i])), headers[i].time, headers[i].nbits)
    {
      AnnouncementOfHeader(h, headers[i]);
    }
  }

  function Prepend(done: seq<Entry>, tail: Parsed<seq<Entry>>): Parsed<seq<Entry>> {
    match tail
    case Malformed => Malformed
    case Parsed(others, rest) => Parsed(done + others, rest)
  }

  lemma PrependNothing(tail: Parsed<seq<Entry>>)
    ensures Prepend([], tail) == tail
  {
    assert tail.Parsed? ==> [] + tail.value == tail.value;
  }

  lemma PrependStep(done: seq<Entry>, n: nat, s: Bytes)
    requires n > 0 && ReadEntry(s).Parsed?
    ensures Prepend(done, ReadMany(ReadEntry, n, s))
            == Prepend(done + [ReadEntry(s).value], ReadMany(ReadEntry, n - 1, ReadEntry(s).rest))
  {
    var tail := ReadMany(ReadEntry, n - 1, ReadEntry(s).rest);
    if tail.Parsed? {
      assert done + ([ReadEntry(s).value] + tail.value) == (done + [ReadEntry(s).value]) + tail.value;
    }
  }

  /** One turn of the cursor loop. */
  method ParseEntry(h: Hasher, payload: Bytes, pos: nat) returns (announcement: Option<Announcement>, next: nat)
    requires pos <= |payload|
    ensures pos <= next <= |payload|
    ensures announcement.Some? <==> ReadEntry(payload[pos..]).Parsed?
    ensures announcement.Some? ==>
      && |ReadEntry(payload[pos..]).value.raw| == 80
      && announcement.value == AnnouncementOf(h, ReadEntry(payload[pos..]).value.raw)
      && ReadEntry(payload[pos..]).rest == payload[next..]
  {
    ghost var s := payload[pos..];
    if pos + 80 > |payload| {
      return None, pos;
    }
    var raw := payload[pos..pos + 80];
    assert raw == s[..80] && payload[pos + 80..] == s[80..];
    var txnCount, next' := ReadVarint(payload, pos + 80);
    if txnCount.None? {
      return None, next';
    }
    if txnCount.value != 0 {
      return None, next';
    }
    return Some(AnnouncementOf(h, raw)), next';
  }

  /** The loop over the announced count; `None` is a refused payload. */
  method ParseHeadersAnnouncements(h: Hasher, payload: Bytes) returns (announcements: Option<seq<Announcement>>)
    ensures announcements.Some? <==> Entries(payload).Some?
    ensures announcements.Some? ==>
      AllGood(Entries(payload).value) && announcements.value == AnnouncementsOf(h, Entries(payload).value)
  {
    hide ReadEntry, AnnouncementOf, Decode, GoodEntry;
    assert payload[0..] == payload;
    var count, pos := ReadVarint(payload, 0);
    if count.None? {
      return None;
    }
    ghost var all := ReadMany(ReadEntry, count.value, payload[pos..]);
    ghost var done: seq<Entry> := [];
    var list: seq<Announcement> := [];
    PrependNothing(all);
    for i := 0 to count.value
      invariant pos <= |payload|
      invariant |done| == i && AllGood(done)
      invariant list == AnnouncementsOf(h, done)
      invariant all == Prepend(done, ReadMany(ReadEntry, count.value - i, payload[pos..]))
    {
      ghost var s := payload[pos..];
      var announcement, next := ParseEntry(h, payload, pos);
      if announcement.None? {
        return None;
      }
      EntryConsumes(s);
      PrependStep(done, count.value - i, s);
      pos := next;
      list := list + [announcement.value];
      done := done + [ReadEntry(s).value];
      assert list == AnnouncementsOf(h, done);
    }
    assert all == Parsed(done + [], payload[pos..]);
    assert done + [] == done;
    if pos != |payload| {
      return None;
    }
    return Some(list);
  }
}
