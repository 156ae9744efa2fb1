/** The byte stream a provider's hash is taken of, and how to read it back. */
module HashFraming {
  import opened Wrappers
  import opened Utf8

  datatype Entry = Entry(key: string, value: string)

  const SEPARATOR: byte := 0xFF

  /** What hashing a string feeds the hasher. */
  function StringBytes(s: string): seq<byte> {
    Encode(s) + [SEPARATOR]
  }

  function EntryBytes(e: Entry): seq<byte> {
    StringBytes(e.key) + StringBytes(e.value)
  }

  function MapBytes(entries: seq<Entry>): seq<byte> {
    if entries == [] then [] else EntryBytes(entries[0]) + MapBytes(entries[1..])
  }

  function HashStream(credentials: seq<Entry>, config: seq<Entry>): seq<byte> {
    MapBytes(credentials) + [SEPARATOR] + MapBytes(config)
  }

  /** What has been fed when both maps have been walked in order. */
  method HashMaterial(credentials: seq<Entry>, config: seq<Entry>) returns (fed: seq<byte>)
    ensures fed == HashStream(credentials, config)
  {
    fed := FeedMap([], credentials);
    fed := fed + [SEPARATOR];
    fed := FeedMap(fed, config);
    assert [] + MapBytes(credentials) == MapBytes(credentials);
  }

  method FeedMap(start: seq<byte>, entries: seq<Entry>) returns (fed: seq<byte>)
    ensures fed == start + MapBytes(entries)
  {
    fed := start;
    for i := 0 to |entries|
      invariant fed + MapBytes(entries[i..]) == start + MapBytes(entries)
    {
      ghost var before := fed;
      fed := fed + StringBytes(entries[i].key);
      fed := fed + StringBytes(entries[i].value);
      FedOneMore(before, entries[i], MapBytes(entries[i + 1..]));
      assert entries[i..][0] == entries[i] && entries[i..][1..] == entries[i + 1..];
    }
  }

  lemma FedOneMore(before: seq<byte>, e: Entry, rest: seq<byte>)
    ensures before + (EntryBytes(e) + rest) == before + StringBytes(e.key) + StringBytes(e.value) + rest
  {
  }

  // ----- Reading it back -----

  function FirstSeparator(bytes: seq<byte>): (i: nat)
    ensures i <= |bytes|
    ensures forall j :: 0 <= j < i ==> bytes[j] != SEPARATOR
    ensures i < |bytes| ==> bytes[i] == SEPARATOR
  {
    if bytes == [] || bytes[0] == SEPARATOR then 0 else 1 + FirstSeparator(bytes[1..])
  }

  /** The string at the front and what follows its separator. */
  function ReadString(bytes: seq<byte>): (r: Option<(string, seq<byte>)>)
    ensures r.Some? ==> |r.value.1| < |bytes|
  {
    var i := FirstSeparator(bytes);
    if i == |bytes| || Decode(bytes[..i]).None? then None
    else Some((Decode(bytes[..i]).value, bytes[i + 1..]))
  }

  function ReadEntry(bytes: seq<byte>): (r: Option<(Entry, seq<byte>)>)
    ensures r.Some? ==> |r.value.1| < |bytes|
  {
    var key := ReadString(bytes);
    if key.None? then None
    else
      var value := ReadString(key.value.1);
      if value.None? then None else Some((Entry(key.value.0, value.value.0), value.value.1))
  }

  /** Entries up to a separator where a key would start, or up to the end. */
  function ReadMap(bytes: seq<byte>, toEnd: bool): Option<(seq<Entry>, seq<byte>)>
    decreases |bytes|
  {
    if bytes == [] then (if toEnd then Some(([], [])) else None)
    else if bytes[0] == SEPARATOR && !toEnd then Some(([], bytes[1..]))
    else
      var first := ReadEntry(bytes);
      if first.None? then None
      else
        var rest := ReadMap(first.value.1, toEnd);
        if rest.None? then None else Some(([first.value.0] + rest.value.0, rest.value.1))
  }

  function ReadStream(bytes: seq<byte>): Option<(seq<Entry>, seq<Entry>)> {
    var credentials := ReadMap(bytes, false);
    if credentials.None? then None
    else
      var config := ReadMap(credentials.value.1, true);
      if config.None? then None else Some((credentials.value.0, config.value.0))
  }

  lemma ReadsString(s: string, rest: seq<byte>)
    ensures ReadString(StringBytes(s) + rest) == Some((s, rest))
  {
    var bytes, code := StringBytes(s) + rest, Encode(s);
    NeverFF(s);
    RoundTrip(s);
    assert bytes[|code|] == SEPARATOR;
    assert forall j :: 0 <= j < |code| ==> bytes[j] == code[j] && code[j] in code;
    assert FirstSeparator(bytes) == |code|;
    assert bytes[..|code|] == code && bytes[|code| + 1..] == rest;
  }

  lemma ReadsEntry(e: Entry, rest: seq<byte>)
    ensures ReadEntry(EntryBytes(e) + rest) == Some((e, rest))
  {
    assert EntryBytes(e) + rest == StringBytes(e.key) + (StringBytes(e.value) + rest);
    ReadsString(e.key, StringBytes(e.value) + rest);
    ReadsString(e.value, rest);
  }

  predicate KeysNonEmpty(entries: seq<Entry>) {
    forall e <- entries :: e.key != ""
  }

  lemma StartsWithKey(e: Entry, rest: seq<byte>)
    requires e.key != ""
    ensures (EntryBytes(e) + rest)[0] != SEPARATOR
  {
  }

  lemma MapBytesSplit(entries: seq<Entry>, rest: seq<byte>)
    requires entries != []
    ensures MapBytes(entries) + rest == EntryBytes(entries[0]) + (MapBytes(entries[1..]) + rest)
  {
  }

  lemma ReadsOneMore(bytes: seq<byte>, e: Entry, more: seq<byte>, entries: seq<Entry>, after: seq<byte>, toEnd: bool)
    requires bytes != [] && (toEnd || bytes[0] != SEPARATOR)
    requires ReadEntry(bytes) == Some((e, more)) && ReadMap(more, toEnd) == Some((entries, after))
    ensures ReadMap(bytes, toEnd) == Some(([e] + entries, after))
  {
  }

  lemma {:induction false} ReadsMap(entries: seq<Entry>, rest: seq<byte>, toEnd: bool)
    requires if toEnd then rest == [] else KeysNonEmpty(entries) && rest != [] && rest[0] == SEPARATOR
    ensures ReadMap(MapBytes(entries) + rest, toEnd) == Some((entries, if toEnd then [] else rest[1..]))
  {
    if entries == [] {
      assert MapBytes(entries) + rest == rest;
    } else {
      var e, more := entries[0], MapBytes(entries[1..]) + rest;
      MapBytesSplit(entries, rest);
      ReadsEntry(e, more);
      ReadsMap(entries[1..], rest, toEnd);
      if !toEnd {
        assert e in entries;
        StartsWithKey(e, more);
      }
      ReadsOneMore(EntryBytes(e) + more, e, more, entries[1..], if toEnd then [] else rest[1..], toEnd);
      assert entries == [e] + entries[1..];
    }
  }

  /** The stream can be read back whenever every credential has a name. */
  lemma StreamReadsBack(credentials: seq<Entry>, config: seq<Entry>)
    requires KeysNonEmpty(credentials)
    ensures ReadStream(HashStream(credentials, config)) == Some((credentials, config))
  {
    assert HashStream(credentials, config) == MapBytes(credentials) + ([SEPARATOR] + MapBytes(config));
    ReadsMap(credentials, [SEPARATOR] + MapBytes(config), false);
    assert ([SEPARATOR] + MapBytes(config))[1..] == MapBytes(config);
    assert MapBytes(config) == MapBytes(config) + [];
    ReadsMap(config, [], true);
  }

  // ----- From entries to maps -----

  predicate Below(a: seq<byte>, b: seq<byte>) {
    b != [] && (a == [] || a[0] < b[0] || (a[0] == b[0] && Below(a[1..], b[1..])))
  }

  lemma {:induction false} BelowOneWay(a: seq<byte>, b: seq<byte>)
    ensures !(Below(a, b) && Below(b, a))
  {
    if a != [] && b != [] {
      BelowOneWay(a[1..], b[1..]);
    }
  }

  predicate InKeyOrder(entries: seq<Entry>) {
    forall i, j :: 0 <= i < j < |entries| ==> Below(Encode(entries[i].key), Encode(entries[j].key))
  }

  /** How an ordered map is walked: its entries, by key in byte order. */
  ghost predicate Lists(entries: seq<Entry>, m: map<string, string>) {
    && InKeyOrder(entries)
    && (forall e <- entries :: e.key in m && m[e.key] == e.value)
    && (forall k <- m :: Entry(k, m[k]) in entries)
  }

  lemma SameFirst(a: seq<Entry>, b: seq<Entry>, m: map<string, string>)
    requires Lists(a, m) && Lists(b, m) && a != [] && b != []
    ensures a[0] == b[0]
  {
    var i :| 0 <= i < |b| && b[i] == Entry(a[0].key, m[a[0].key]);
    var j :| 0 <= j < |a| && a[j] == Entry(b[0].key, m[b[0].key]);
    BelowOneWay(Encode(a[0].key), Encode(b[0].key));
  }

  lemma FirstOnce(entries: seq<Entry>, i: nat)
    requires InKeyOrder(entries) && 0 < i < |entries|
    ensures entries[i].key != entries[0].key
  {
    BelowOneWay(Encode(entries[0].key), Encode(entries[i].key));
  }

  lemma OrderOfRest(entries: seq<Entry>)
    requires InKeyOrder(entries) && entries != []
    ensures InKeyOrder(entries[1..])
    ensures forall e <- entries[1..] :: e.key != entries[0].key
  {
    forall e | e in entries[1..] ensures e.key != entries[0].key {
      var i :| 0 <= i < |entries[1..]| && entries[1..][i] == e;
      FirstOnce(entries, i + 1);
    }
  }

  lemma ListsRest(entries: seq<Entry>, m: map<string, string>)
    requires Lists(entries, m) && entries != []
    ensures Lists(entries[1..], m - {entries[0].key})
  {
    var rest, k := entries[1..], entries[0].key;
    OrderOfRest(entries);
    assert forall e <- rest :: e in entries;
    forall x | x in m && x != k ensures Entry(x, m[x]) in rest {
      assert Entry(x, m[x]) in entries;
    }
  }

  lemma ListsSome(entries: seq<Entry>, m: map<string, string>)
    requires Lists(entries, m)
    ensures entries == [] <==> m == map[]
  {
    if entries != [] {
      assert entries[0] in entries;
    }
  }

  /** There is one way to walk a map. */
  lemma {:induction false} ListsOnce(a: seq<Entry>, b: seq<Entry>, m: map<string, string>)
    requires Lists(a, m) && Lists(b, m)
    ensures a == b
    decreases |a|
  {
    ListsSome(a, m);
    ListsSome(b, m);
    if a != [] {
      SameFirst(a, b, m);
      ListsRest(a, m);
      ListsRest(b, m);
      ListsOnce(a[1..], b[1..], m - {a[0].key});
      assert a == [a[0]] + a[1..] && b == [b[0]] + b[1..];
    }
  }

  lemma ListsOneMap(entries: seq<Entry>, m: map<string, string>, n: map<string, string>)
    requires Lists(entries, m) && Lists(entries, n)
    ensures m == n
  {
  }

  // ----- Exactly when two streams are equal -----

  /** The strings after an unnamed first key, paired up one place along: what they look like
      if that key's separator is taken for the one between the maps. */
  function Shift(value: string, entries: seq<Entry>): seq<Entry>
    decreases |entries|
  {
    if entries == [] then [Entry(value, "")]
    else [Entry(value, entries[0].key)] + Shift(entries[0].value, entries[1..])
  }

  predicate Unnamed(credentials: seq<Entry>) {
    credentials != [] && credentials[0].key == ""
  }

  /** True of every ordered map: the empty key comes first. */
  predicate OnlyFirstUnnamed(credentials: seq<Entry>) {
    credentials != [] ==> KeysNonEmpty(credentials[1..])
  }

  /** The second pair of maps is the first with the boundary moved to the front. */
  predicate Moved(c: seq<Entry>, d: seq<Entry>, c': seq<Entry>, d': seq<Entry>) {
    Unnamed(c) && c' == [] && d' == Shift(c[0].value, c[1..]) + d
  }

  lemma OneMoreEntry(e: Entry, rest: seq<Entry>)
    ensures MapBytes([e] + rest) == EntryBytes(e) + MapBytes(rest)
  {
    assert ([e] + rest)[1..] == rest;
  }

  lemma PairedAnew(value: seq<byte>, key: seq<byte>, next: seq<byte>, rest: seq<byte>)
    ensures (value + key) + (next + rest + [SEPARATOR]) == value + ((key + next) + rest) + [SEPARATOR]
  {
  }

  lemma {:induction false} ShiftBytes(value: string, entries: seq<Entry>)
    ensures MapBytes(Shift(value, entries)) == StringBytes(value) + MapBytes(entries) + [SEPARATOR]
    decreases |entries|
  {
    if entries == [] {
      var only := Entry(value, "");
      assert Shift(value, entries) == [only] && [only][1..] == [] && StringBytes("") == [SEPARATOR];
    } else {
      var e, first := entries[0], Entry(value, entries[0].key);
      ShiftBytes(e.value, entries[1..]);
      OneMoreEntry(first, Shift(e.value, entries[1..]));
      PairedAnew(StringBytes(value), StringBytes(e.key), StringBytes(e.value), MapBytes(entries[1..]));
    }
  }

  lemma {:induction false} MapBytesConcat(a: seq<Entry>, b: seq<Entry>)
    ensures MapBytes(a + b) == MapBytes(a) + MapBytes(b)
  {
    if a == [] {
      assert a + b == b;
    } else {
      MapBytesConcat(a[1..], b);
      assert a + b == [a[0]] + (a[1..] + b);
      OneMoreEntry(a[0], a[1..] + b);
      MapBytesSplit(a, MapBytes(b));
    }
  }

  /** Moving the boundary leaves the bytes as they are. */
  lemma MovedCollides(c: seq<Entry>, d: seq<Entry>)
    requires Unnamed(c)
    ensures HashStream(c, d) == HashStream([], Shift(c[0].value, c[1..]) + d)
  {
    var value, rest := c[0].value, c[1..];
    ShiftBytes(value, rest);
    MapBytesConcat(Shift(value, rest), d);
    MovedBytes(StringBytes(value), MapBytes(rest), MapBytes(d));
    assert StringBytes("") == [SEPARATOR];
    assert EntryBytes(c[0]) == [SEPARATOR] + StringBytes(value);
  }

  lemma MovedBytes(value: seq<byte>, rest: seq<byte>, config: seq<byte>)
    ensures ([SEPARATOR] + value + rest) + [SEPARATOR] + config
         == [] + [SEPARATOR] + ((value + rest + [SEPARATOR]) + config)
  {
  }

  /** The boundary can be put back in one place only. */
  lemma {:induction false} ShiftUnique(
      v: string, es: seq<Entry>, d: seq<Entry>, v': string, es': seq<Entry>, d': seq<Entry>)
    requires KeysNonEmpty(es) && KeysNonEmpty(es') && Shift(v, es) + d == Shift(v', es') + d'
    ensures v == v' && es == es' && d == d'
    decreases |es|
  {
    var a, b := Shift(v, es) + d, Shift(v', es') + d';
    assert a[0] == Shift(v, es)[0] && b[0] == Shift(v', es')[0];
    assert es != [] ==> es[0] in es;
    assert es' != [] ==> es'[0] in es';
    if es == [] {
      assert a[1..] == d && b[1..] == d';
    } else {
      assert a[1..] == Shift(es[0].value, es[1..]) + d && b[1..] == Shift(es'[0].value, es'[1..]) + d';
      ShiftUnique(es[0].value, es[1..], d, es'[0].value, es'[1..], d');
      assert es == [es[0]] + es[1..] && es' == [es'[0]] + es'[1..];
    }
  }

  lemma FirstNamed(c: seq<Entry>)
    requires OnlyFirstUnnamed(c) && !Unnamed(c)
    ensures KeysNonEmpty(c)
  {
    assert forall e <- c :: e == c[0] || e in c[1..];
  }

  lemma MovedBack(c: seq<Entry>, d: seq<Entry>, c': seq<Entry>, d': seq<Entry>)
    requires Unnamed(c) && OnlyFirstUnnamed(c') && !Unnamed(c')
    ensures HashStream(c, d) == HashStream(c', d') <==> Moved(c, d, c', d')
  {
    var shifted := Shift(c[0].value, c[1..]) + d;
    MovedCollides(c, d);
    FirstNamed(c');
    StreamReadsBack([], shifted);
    StreamReadsBack(c', d');
  }

  lemma BothUnnamed(c: seq<Entry>, d: seq<Entry>, c': seq<Entry>, d': seq<Entry>)
    requires Unnamed(c) && Unnamed(c') && OnlyFirstUnnamed(c) && OnlyFirstUnnamed(c')
    ensures HashStream(c, d) == HashStream(c', d') <==> c == c' && d == d'
  {
    var x, y := Shift(c[0].value, c[1..]) + d, Shift(c'[0].value, c'[1..]) + d';
    MovedCollides(c, d);
    MovedCollides(c', d');
    StreamReadsBack([], x);
    StreamReadsBack([], y);
    if x == y {
      ShiftUnique(c[0].value, c[1..], d, c'[0].value, c'[1..], d');
      assert c == [c[0]] + c[1..] && c' == [c'[0]] + c'[1..];
    }
  }

  /** Two streams are equal exactly if both maps' entries are, or one pair is the other with
      the boundary moved. */
  lemma StreamsEqualExactly(c: seq<Entry>, d: seq<Entry>, c': seq<Entry>, d': seq<Entry>)
    requires OnlyFirstUnnamed(c) && OnlyFirstUnnamed(c')
    ensures HashStream(c, d) == HashStream(c', d') <==>
      (c == c' && d == d') || Moved(c, d, c', d') || Moved(c', d', c, d)
  {
    if Unnamed(c) && Unnamed(c') {
      BothUnnamed(c, d, c', d');
    } else if Unnamed(c) {
      MovedBack(c, d, c', d');
    } else if Unnamed(c') {
      MovedBack(c', d', c, d);
    } else {
      FirstNamed(c);
      FirstNamed(c');
      StreamReadsBack(c, d);
      StreamReadsBack(c', d');
    }
  }

  lemma ListsNamed(entries: seq<Entry>, m: map<string, string>)
    requires Lists(entries, m)
    ensures OnlyFirstUnnamed(entries) && (Unnamed(entries) <==> "" in m)
  {
    ListsSome(entries, m);
    if entries != [] {
      forall e | e in entries[1..] ensures e.key != "" {
        var i :| 0 <= i < |entries[1..]| && entries[1..][i] == e;
        assert Below(Encode(entries[0].key), Encode(entries[i + 1].key));
      }
    }
    if "" in m {
      assert Entry("", m[""]) in entries;
    }
  }

  /** Of ordered maps: two streams are equal exactly if both maps are, or the boundary has
      moved. For that, one side has no credentials at all and the other an unnamed one. */
  lemma StreamStandsForMaps(
    credentials: map<string, string>, config: map<string, string>, c: seq<Entry>, d: seq<Entry>,
    credentials': map<string, string>, config': map<string, string>, c': seq<Entry>, d': seq<Entry>)
    requires Lists(c, credentials) && Lists(d, config) && Lists(c', credentials') && Lists(d', config')
    ensures HashStream(c, d) == HashStream(c', d') <==>
      (credentials == credentials' && config == config') || Moved(c, d, c', d') || Moved(c', d', c, d)
    ensures Moved(c, d, c', d') ==> "" in credentials && credentials' == map[]
    ensures Moved(c', d', c, d) ==> "" in credentials' && credentials == map[]
  {
    ListsNamed(c, credentials);
    ListsNamed(c', credentials');
    ListsSome(c, credentials);
    ListsSome(c', credentials');
    StreamsEqualExactly(c, d, c', d');
    if credentials == credentials' && config == config' {
      ListsOnce(c, c', credentials);
      ListsOnce(d, d', config);
    } else if c == c' && d == d' {
      ListsOneMap(c, credentials, credentials');
      ListsOneMap(d, config, config');
    }
  }

  /** Such pairs of maps exist: an unnamed credential against a configuration key. */
  lemma UnnamedCredentialCollides(value: string)
    ensures Lists([Entry("", value)], map["" := value])
    ensures Lists([Entry(value, "")], map[value := ""]) && Lists([], map[])
    ensures Moved([Entry("", value)], [], [], [Entry(value, "")])
    ensures HashStream([Entry("", value)], []) == HashStream([], [Entry(value, "")])
  {
    var c := [Entry("", value)];
    assert c[1..] == [] && Shift(value, []) + [] == [Entry(value, "")];
    MovedCollides(c, []);
  }
}
