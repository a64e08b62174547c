/** What the bencode walker computes, the language it accepts, and the BEP 3 encoder it has to understand. */
module Bencode {
  import opened Octets
  import opened Options

  const LOWER_D: Byte := 0x64
  const LOWER_E: Byte := 0x65
  const LOWER_I: Byte := 0x69
  const LOWER_L: Byte := 0x6c
  const COLON: Byte := 0x3a
  const MINUS: Byte := 0x2d
  const INFO: Bytes := [0x69, 0x6e, 0x66, 0x6f]
  const NAME: Bytes := [0x6e, 0x61, 0x6d, 0x65]

  predicate IsDigit(b: Byte) {
    0x30 <= b <= 0x39
  }

  function Ascii(s: string): Bytes
    requires forall i :: 0 <= i < |s| ==> s[i] < 128 as char
  {
    seq(|s|, i requires 0 <= i < |s| => s[i] as int)
  }

  /** The marks of BEP 3 and the two keys looked for, as text. */
  lemma MarksAreText(c: char)
    requires c < 128 as char
    ensures [LOWER_D, LOWER_E, LOWER_I, LOWER_L, COLON, MINUS] == Ascii("deil:-")
    ensures INFO == Ascii("info") && NAME == Ascii("name")
    ensures IsDigit(c as int) <==> c in "0123456789"
  {
    if IsDigit(c as int) {
      assert c == "0123456789"[c as int - '0' as int];
    }
  }

  predicate AllDigits(s: Bytes) {
    forall i :: 0 <= i < |s| ==> IsDigit(s[i])
  }

  function Number(digits: Bytes): nat
    requires AllDigits(digits)
  {
    if digits == [] then 0 else 10 * Number(digits[..|digits| - 1]) + digits[|digits| - 1] - 0x30
  }

  // ----- The walker, as functions of the buffer and a position -----

  /** The first position from `p` on that does not hold a digit. */
  function DigitsEnd(buf: Bytes, p: nat): (c: nat)
    requires p <= |buf|
    ensures p <= c <= |buf| && AllDigits(buf[p..c]) && (c < |buf| ==> !IsDigit(buf[c]))
    decreases |buf| - p
  {
    if p < |buf| && IsDigit(buf[p]) then
      var c := DigitsEnd(buf, p + 1);
      assert forall i :: 0 < i < c - p ==> buf[p..c][i] == buf[p + 1..c][i - 1];
      c
    else p
  }

  /** The first position from `p` on that holds an 'e', or the end of the buffer. */
  function MarkEnd(buf: Bytes, p: nat): (c: nat)
    requires p <= |buf|
    ensures p <= c <= |buf| && LOWER_E !in buf[p..c] && (c < |buf| ==> buf[c] == LOWER_E)
    decreases |buf| - p
  {
    if p < |buf| && buf[p] != LOWER_E then
      var c := MarkEnd(buf, p + 1);
      assert buf[p..c] == [buf[p]] + buf[p + 1..c];
      c
    else p
  }

  datatype Token = Token(text: Bytes, end: nat)

  /** readString from `p`: a length, a colon and that many bytes. */
  function StringAt(buf: Bytes, p: nat): (r: Option<Token>)
    requires p <= |buf|
    ensures r.Some? ==> p < r.value.end <= |buf|
  {
    var c := DigitsEnd(buf, p);
    if c == |buf| || buf[c] != COLON || c == p then None
    else
      var n := Number(buf[p..c]);
      if c + 1 + n > |buf| then None else Some(Token(buf[c + 1..c + 1 + n], c + 1 + n))
  }

  /** skipValue from `p`: where the value that starts there ends. */
  function Skip(buf: Bytes, p: nat): (r: Option<nat>)
    requires p <= |buf|
    ensures r.Some? ==> p < r.value <= |buf|
    decreases |buf| - p, 0
  {
    if p == |buf| then None
    else if buf[p] == LOWER_I then
      var c := MarkEnd(buf, p + 1);
      if c < |buf| then Some(c + 1) else None
    else if buf[p] == LOWER_L then SkipItems(buf, p + 1)
    else if buf[p] == LOWER_D then SkipEntries(buf, p + 1)
    else if IsDigit(buf[p]) then
      var s := StringAt(buf, p);
      if s.Some? then Some(s.value.end) else None
    else None
  }

  /** The rest of a list, up to and including its 'e'. */
  function SkipItems(buf: Bytes, p: nat): (r: Option<nat>)
    requires p <= |buf|
    ensures r.Some? ==> p < r.value <= |buf|
    decreases |buf| - p, 1
  {
    if p == |buf| then None
    else if buf[p] == LOWER_E then Some(p + 1)
    else
      var q := Skip(buf, p);
      if q.Some? then SkipItems(buf, q.value) else None
  }

  /** The rest of a dictionary, up to and including its 'e'. */
  function SkipEntries(buf: Bytes, p: nat): (r: Option<nat>)
    requires p <= |buf|
    ensures r.Some? ==> p < r.value <= |buf|
    decreases |buf| - p, 1
  {
    if p == |buf| then None
    else if buf[p] == LOWER_E then Some(p + 1)
    else
      var k := StringAt(buf, p);
      if k.None? then None
      else
        var q := Skip(buf, k.value.end);
        if q.Some? then SkipEntries(buf, q.value) else None
  }

  datatype Search = Hit(start: nat, end: nat) | Missing | BadKey | BadValue(key: Bytes)

  /** The search for a key among the entries that start at `p`. */
  function Scan(buf: Bytes, p: nat, key: Bytes): (r: Search)
    requires p <= |buf|
    ensures r.Hit? ==> p < r.start < r.end <= |buf|
    decreases |buf| - p
  {
    if p == |buf| || buf[p] == LOWER_E then Missing
    else
      var k := StringAt(buf, p);
      if k.None? then BadKey
      else
        var q := Skip(buf, k.value.end);
        if q.None? then BadValue(k.value.text)
        else if k.value.text == key then Hit(k.value.end, q.value)
        else Scan(buf, q.value, key)
  }

  predicate IsDict(buf: Bytes) {
    buf != [] && buf[0] == LOWER_D
  }

  /** readDictString: an error, or the string under the key, empty if the key is missing. */
  function DictString(buf: Bytes, key: Bytes): Option<Bytes> {
    if !IsDict(buf) then None
    else
      match Scan(buf, 1, key)
      case Hit(start, end) =>
        var s := StringAt(buf[start..end], 0);
        if s.Some? then Some(s.value.text) else None
      case Missing => Some([])
      case _ => None
  }

  datatype Metainfo =
    | Found(start: nat, end: nat, name: Bytes)
    | NotADict
    | NoInfo
    | Unreadable(key: Option<Bytes>)

  /** findInfoSpan, which drops the error of its search for the name. */
  function InfoSpan(buf: Bytes): (r: Metainfo)
    ensures r.Found? ==> 1 < r.start < r.end <= |buf|
  {
    if !IsDict(buf) then NotADict
    else
      match Scan(buf, 1, INFO)
      case Hit(start, end) => Found(start, end, DictString(buf[start..end], NAME).GetOr([]))
      case Missing => NoInfo
      case BadKey => Unreadable(None)
      case BadValue(key) => Unreadable(Some(key))
  }

  // ----- The language the walker accepts -----

  /** A byte string as written; its length may have leading zeros. */
  datatype Str = Str(digits: Bytes, text: Bytes) {
    predicate IsWell() {
      digits != [] && AllDigits(digits) && Number(digits) == |text|
    }

    function Flat(): Bytes {
      digits + [COLON] + text
    }
  }

  datatype Entry = Entry(key: Str, value: Tree)

  /** A value as written; an integer may hold anything but an 'e'. */
  datatype Tree =
    | TInt(body: Bytes)
    | TStr(s: Str)
    | TList(items: seq<Tree>)
    | TDict(entries: seq<Entry>)

  predicate IsWell(t: Tree) {
    match t
    case TInt(body) => LOWER_E !in body
    case TStr(s) => s.IsWell()
    case TList(items) => AreWell(items)
    case TDict(entries) => EntriesAreWell(entries)
  }

  predicate AreWell(ts: seq<Tree>) {
    ts == [] || (IsWell(ts[0]) && AreWell(ts[1..]))
  }

  predicate EntriesAreWell(es: seq<Entry>) {
    es == [] ||
    (assert (es decreases to es[0]); es[0].key.IsWell() && IsWell(es[0].value) && EntriesAreWell(es[1..]))
  }

  function Flat(t: Tree): Bytes {
    match t
    case TInt(body) => [LOWER_I] + body + [LOWER_E]
    case TStr(s) => s.Flat()
    case TList(items) => [LOWER_L] + FlatItems(items) + [LOWER_E]
    case TDict(entries) => [LOWER_D] + FlatEntries(entries) + [LOWER_E]
  }

  function FlatItems(ts: seq<Tree>): Bytes {
    if ts == [] then [] else Flat(ts[0]) + FlatItems(ts[1..])
  }

  function FlatEntries(es: seq<Entry>): Bytes {
    if es == [] then []
    else assert (es decreases to es[0]); es[0].key.Flat() + Flat(es[0].value) + FlatEntries(es[1..])
  }

  /** `w` stands in the buffer at `p`. */
  predicate At(buf: Bytes, p: nat, w: Bytes) {
    p + |w| <= |buf| && buf[p..p + |w|] == w
  }

  lemma AtSplit(buf: Bytes, p: nat, a: Bytes, b: Bytes)
    ensures At(buf, p, a + b) <==> At(buf, p, a) && At(buf, p + |a|, b)
  {
    if At(buf, p, a + b) {
      assert buf[p..p + |a|] == (a + b)[..|a|] && buf[p + |a|..p + |a| + |b|] == (a + b)[|a|..];
    }
    if At(buf, p, a) && At(buf, p + |a|, b) {
      assert buf[p..p + |a + b|] == buf[p..p + |a|] + buf[p + |a|..p + |a| + |b|];
    }
  }

  lemma AtOne(buf: Bytes, p: nat, b: Byte)
    ensures At(buf, p, [b]) <==> p < |buf| && buf[p] == b
  {
    if p < |buf| {
      assert buf[p..p + 1] == [buf[p]];
    }
  }

  // ----- Everything in the language is read, whatever follows it -----

  lemma {:induction false} DigitsEndIs(buf: Bytes, p: nat, c: nat)
    requires p <= c <= |buf| && AllDigits(buf[p..c]) && (c < |buf| ==> !IsDigit(buf[c]))
    ensures DigitsEnd(buf, p) == c
    decreases c - p
  {
    if p < c {
      assert IsDigit(buf[p..c][0]);
      assert buf[p + 1..c] == buf[p..c][1..];
      DigitsEndIs(buf, p + 1, c);
    }
  }

  lemma {:induction false} MarkEndIs(buf: Bytes, p: nat, c: nat)
    requires p <= c < |buf| && LOWER_E !in buf[p..c] && buf[c] == LOWER_E
    ensures MarkEnd(buf, p) == c
    decreases c - p
  {
    if p < c {
      assert buf[p] == buf[p..c][0];
      assert buf[p + 1..c] == buf[p..c][1..];
      MarkEndIs(buf, p + 1, c);
    }
  }

  lemma StringIsRead(buf: Bytes, p: nat, s: Str)
    requires p <= |buf| && s.IsWell() && At(buf, p, s.Flat())
    ensures StringAt(buf, p) == Some(Token(s.text, p + |s.Flat()|))
    ensures IsDigit(buf[p])
  {
    var c := p + |s.digits|;
    AtSplit(buf, p, s.digits + [COLON], s.text);
    AtSplit(buf, p, s.digits, [COLON]);
    AtOne(buf, c, COLON);
    assert buf[p] == buf[p..c][0];
    DigitsEndIs(buf, p, c);
  }

  lemma AtBracket(buf: Bytes, p: nat, open: Byte, body: Bytes, close: Byte)
    requires At(buf, p, [open] + body + [close])
    ensures p + 1 + |body| < |buf| && buf[p] == open && At(buf, p + 1, body) && buf[p + 1 + |body|] == close
  {
    AtSplit(buf, p, [open] + body, [close]);
    AtSplit(buf, p, [open], body);
    AtOne(buf, p, open);
    AtOne(buf, p + 1 + |body|, close);
  }

  lemma {:induction false} ValueIsRead(buf: Bytes, p: nat, t: Tree)
    requires p <= |buf| && IsWell(t) && At(buf, p, Flat(t))
    ensures Skip(buf, p) == Some(p + |Flat(t)|)
    ensures p < |buf| && buf[p] != LOWER_E
    decreases t, 0
  {
    hide At, StringAt, DigitsEnd;
    match t
    case TInt(body) =>
      AtBracket(buf, p, LOWER_I, body, LOWER_E);
      assert buf[p + 1..p + 1 + |body|] == body by { AtMeans(buf, p + 1, body); }
      MarkEndIs(buf, p + 1, p + 1 + |body|);
    case TStr(s) =>
      StringIsRead(buf, p, s);
    case TList(items) =>
      AtBracket(buf, p, LOWER_L, FlatItems(items), LOWER_E);
      ItemsAreRead(buf, p + 1, items);
    case TDict(entries) =>
      AtBracket(buf, p, LOWER_D, FlatEntries(entries), LOWER_E);
      EntriesAreRead(buf, p + 1, entries);
  }

  lemma AtMeans(buf: Bytes, p: nat, w: Bytes)
    requires At(buf, p, w)
    ensures p + |w| <= |buf| && buf[p..p + |w|] == w
  {
  }

  lemma {:induction false} ItemsAreRead(buf: Bytes, p: nat, ts: seq<Tree>)
    requires AreWell(ts) && At(buf, p, FlatItems(ts))
    requires p + |FlatItems(ts)| < |buf| && buf[p + |FlatItems(ts)|] == LOWER_E
    ensures SkipItems(buf, p) == Some(p + |FlatItems(ts)| + 1)
    decreases ts, 1
  {
    hide At, Skip, Flat, IsWell;
    if ts != [] {
      AtSplit(buf, p, Flat(ts[0]), FlatItems(ts[1..]));
      ValueIsRead(buf, p, ts[0]);
      ItemsAreRead(buf, p + |Flat(ts[0])|, ts[1..]);
    }
  }

  lemma {:induction false} EntriesAreRead(buf: Bytes, p: nat, es: seq<Entry>)
    requires EntriesAreWell(es) && At(buf, p, FlatEntries(es))
    requires p + |FlatEntries(es)| < |buf| && buf[p + |FlatEntries(es)|] == LOWER_E
    ensures SkipEntries(buf, p) == Some(p + |FlatEntries(es)| + 1)
    decreases es, 2
  {
    hide Str.Flat, Str.IsWell, At, Flat, IsWell, EntriesAreWell, FlatEntries, SkipEntries, Scan;
    if es == [] {
      EmptyEntries();
      EndIsRead(buf, p, []);
    } else {
      var q := HeadIsPassed(buf, p, es, []);
      EntriesAreRead(buf, q, es[1..]);
    }
  }

  /** One round of the loops over a dictionary. */
  lemma {:induction false} EntryIsPassed(buf: Bytes, p: nat, e: Entry, rest: Bytes, key: Bytes)
    requires e.key.IsWell() && IsWell(e.value) && At(buf, p, e.key.Flat() + Flat(e.value) + rest)
    ensures var k := p + |e.key.Flat()|; var q := k + |Flat(e.value)|;
            && q <= |buf| && At(buf, q, rest)
            && SkipEntries(buf, p) == SkipEntries(buf, q)
            && Scan(buf, p, key) == if e.key.text == key then Hit(k, q) else Scan(buf, q, key)
    decreases e, 1
  {
    hide Str.Flat, Str.IsWell, At, Flat, IsWell, StringAt, Skip;
    EntryIsRead(buf, p, e, rest);
  }

  lemma {:induction false} HeadIsPassed(buf: Bytes, p: nat, es: seq<Entry>, key: Bytes) returns (q: nat)
    requires es != [] && EntriesAreWell(es) && At(buf, p, FlatEntries(es))
    ensures p <= q <= |buf| && q + |FlatEntries(es[1..])| == p + |FlatEntries(es)|
    ensures EntriesAreWell(es[1..]) && At(buf, q, FlatEntries(es[1..]))
    ensures SkipEntries(buf, p) == SkipEntries(buf, q)
    ensures es[0].key.text != key ==> Scan(buf, p, key) == Scan(buf, q, key)
    decreases es, 1
  {
    hide Str.Flat, Str.IsWell, At, Flat, IsWell, EntriesAreWell, FlatEntries, SkipEntries, Scan;
    EntriesHead(es);
    assert (es decreases to es[0]);
    q := p + |es[0].key.Flat()| + |Flat(es[0].value)|;
    EntryIsPassed(buf, p, es[0], FlatEntries(es[1..]), key);
  }

  lemma EmptyEntries()
    ensures FlatEntries([]) == [] && EntriesAreWell([])
  {
  }

  lemma EndIsRead(buf: Bytes, p: nat, key: Bytes)
    requires p <= |buf|
    ensures p < |buf| && buf[p] == LOWER_E ==> SkipEntries(buf, p) == Some(p + 1)
    ensures p == |buf| || buf[p] == LOWER_E ==> Scan(buf, p, key) == Missing
  {
  }

  lemma EntriesHead(es: seq<Entry>)
    requires es != [] && EntriesAreWell(es)
    ensures es[0].key.IsWell() && IsWell(es[0].value) && EntriesAreWell(es[1..])
    ensures FlatEntries(es) == es[0].key.Flat() + Flat(es[0].value) + FlatEntries(es[1..])
    ensures |FlatEntries(es)| == |es[0].key.Flat()| + |Flat(es[0].value)| + |FlatEntries(es[1..])|
  {
  }

  lemma {:induction false} EntryIsRead(buf: Bytes, p: nat, e: Entry, rest: Bytes)
    requires e.key.IsWell() && IsWell(e.value) && At(buf, p, e.key.Flat() + Flat(e.value) + rest)
    ensures var k := p + |e.key.Flat()|; var q := k + |Flat(e.value)|;
            && q <= |buf| && StringAt(buf, p) == Some(Token(e.key.text, k)) && IsDigit(buf[p])
            && Skip(buf, k) == Some(q) && At(buf, q, rest)
    decreases e, 0
  {
    hide Str.Flat, Str.IsWell, At, Flat, IsWell, StringAt, Skip;
    AtSplitThree(buf, p, e.key.Flat(), Flat(e.value), rest);
    StringIsRead(buf, p, e.key);
    ValueIsRead(buf, p + |e.key.Flat()|, e.value);
  }

  lemma AtSplitThree(buf: Bytes, p: nat, a: Bytes, b: Bytes, c: Bytes)
    requires At(buf, p, a + b + c)
    ensures p + |a| + |b| + |c| <= |buf|
    ensures At(buf, p, a) && At(buf, p + |a|, b) && At(buf, p + |a| + |b|, c)
  {
    AtSplit(buf, p, a + b, c);
    AtSplit(buf, p, a, b);
  }

  // ----- Only what is in the language is read -----

  lemma StringWasThere(buf: Bytes, p: nat) returns (s: Str)
    requires p <= |buf| && StringAt(buf, p).Some?
    ensures s.IsWell() && s.Flat() == buf[p..StringAt(buf, p).value.end] && s.text == StringAt(buf, p).value.text
  {
    var c := DigitsEnd(buf, p);
    s := Str(buf[p..c], StringAt(buf, p).value.text);
  }

  lemma Cut(buf: Bytes, p: nat, q: nat)
    requires p + 1 < q <= |buf|
    ensures buf[p..q] == [buf[p]] + buf[p + 1..q]
    ensures buf[p + 1..q] == buf[p + 1..q - 1] + [buf[q - 1]]
  {
  }

  lemma Bracketed(buf: Bytes, p: nat, q: nat, body: Bytes, close: Byte)
    requires p < q <= |buf| && body + [close] == buf[p + 1..q]
    ensures [buf[p]] + body + [close] == buf[p..q]
  {
    assert buf[p..q] == [buf[p]] + buf[p + 1..q];
  }

  lemma {:induction false} ValueWasThere(buf: Bytes, p: nat) returns (t: Tree)
    requires p <= |buf| && Skip(buf, p).Some?
    ensures IsWell(t) && Flat(t) == buf[p..Skip(buf, p).value]
    decreases |buf| - p, 0
  {
    hide StringAt, FlatItems, FlatEntries, AreWell, EntriesAreWell, SkipItems, SkipEntries;
    var q := Skip(buf, p).value;
    if buf[p] == LOWER_I {
      t := TInt(buf[p + 1..q - 1]);
      Cut(buf, p, q);
    } else if buf[p] == LOWER_L {
      var items := ItemsWereThere(buf, p + 1);
      t := TList(items);
      Bracketed(buf, p, q, FlatItems(items), LOWER_E);
    } else if buf[p] == LOWER_D {
      var entries := EntriesWereThere(buf, p + 1);
      t := TDict(entries);
      Bracketed(buf, p, q, FlatEntries(entries), LOWER_E);
    } else {
      var s := StringWasThere(buf, p);
      t := TStr(s);
    }
  }

  lemma {:induction false} ItemsWereThere(buf: Bytes, p: nat) returns (ts: seq<Tree>)
    requires p <= |buf| && SkipItems(buf, p).Some?
    ensures AreWell(ts) && FlatItems(ts) + [LOWER_E] == buf[p..SkipItems(buf, p).value]
    decreases |buf| - p, 1
  {
    if buf[p] == LOWER_E {
      ts := [];
    } else {
      var q := Skip(buf, p).value;
      var head := ValueWasThere(buf, p);
      var tail := ItemsWereThere(buf, q);
      ts := [head] + tail;
      assert ts[1..] == tail;
      assert buf[p..q] + buf[q..SkipItems(buf, q).value] == buf[p..SkipItems(buf, q).value];
    }
  }

  lemma PrependEntry(buf: Bytes, p: nat, k: nat, q: nat, end: nat, e: Entry, tail: seq<Entry>, rest: Bytes)
    requires p <= k <= q <= end <= |buf|
    requires e.key.IsWell() && e.key.Flat() == buf[p..k] && IsWell(e.value) && Flat(e.value) == buf[k..q]
    requires EntriesAreWell(tail) && FlatEntries(tail) + rest == buf[q..end]
    ensures EntriesAreWell([e] + tail) && FlatEntries([e] + tail) + rest == buf[p..end]
  {
    hide Flat, IsWell;
    assert ([e] + tail)[1..] == tail;
    assert buf[p..k] + buf[k..q] + buf[q..end] == buf[p..end];
  }

  lemma {:induction false} EntriesWereThere(buf: Bytes, p: nat) returns (es: seq<Entry>)
    requires p <= |buf| && SkipEntries(buf, p).Some?
    ensures EntriesAreWell(es) && FlatEntries(es) + [LOWER_E] == buf[p..SkipEntries(buf, p).value]
    decreases |buf| - p, 1
  {
    hide StringAt, Skip, Flat, IsWell, FlatEntries, EntriesAreWell;
    if buf[p] == LOWER_E {
      es := [];
      EmptyEntries();
    } else {
      var k := StringAt(buf, p).value.end;
      var q := Skip(buf, k).value;
      var key := StringWasThere(buf, p);
      var value := ValueWasThere(buf, k);
      var tail := EntriesWereThere(buf, q);
      es := [Entry(key, value)] + tail;
      PrependEntry(buf, p, k, q, SkipEntries(buf, q).value, Entry(key, value), tail, [LOWER_E]);
    }
  }

  /**
    The walker stops at `q` exactly when the bytes from `p` to `q` are one value of the language. So it
    accepts nothing else, and no value of the language has another end.
   */
  lemma SkipIsExact(buf: Bytes, p: nat, q: nat)
    requires p <= q <= |buf|
    ensures Skip(buf, p) == Some(q) <==> exists t :: IsWell(t) && Flat(t) == buf[p..q]
  {
    if Skip(buf, p) == Some(q) {
      var t := ValueWasThere(buf, p);
      assert IsWell(t) && Flat(t) == buf[p..q];
    }
    if t :| IsWell(t) && Flat(t) == buf[p..q] {
      ValueIsRead(buf, p, t);
    }
  }

  /** No value of the language is a proper beginning of another. */
  lemma ValuesArePrefixFree(t: Tree, u: Tree, rest: Bytes)
    requires IsWell(t) && IsWell(u) && Flat(t) + rest == Flat(u)
    ensures rest == []
  {
    var buf := Flat(u);
    assert buf[0..|Flat(t)|] == Flat(t) && buf[0..|buf|] == buf;
    ValueIsRead(buf, 0, t);
    ValueIsRead(buf, 0, u);
  }

  // ----- The search for a key -----

  lemma EntryIsHit(buf: Bytes, p: nat, e: Entry)
    requires e.key.IsWell() && IsWell(e.value) && At(buf, p, e.key.Flat()) && At(buf, p + |e.key.Flat()|, Flat(e.value))
    ensures var k := p + |e.key.Flat()|; p <= |buf| && Scan(buf, p, e.key.text) == Hit(k, k + |Flat(e.value)|)
  {
    hide StringAt, Skip, Flat, IsWell, Str.Flat, Str.IsWell;
    StringIsRead(buf, p, e.key);
    ValueIsRead(buf, p + |e.key.Flat()|, e.value);
  }

  lemma {:induction false} KeyIsFound(buf: Bytes, p: nat, before: seq<Entry>, e: Entry)
    requires EntriesAreWell(before) && forall j :: 0 <= j < |before| ==> before[j].key.text != e.key.text
    requires e.key.IsWell() && IsWell(e.value)
    requires At(buf, p, FlatEntries(before)) && At(buf, p + |FlatEntries(before)|, e.key.Flat())
    requires At(buf, p + |FlatEntries(before)| + |e.key.Flat()|, Flat(e.value))
    ensures var start := p + |FlatEntries(before)| + |e.key.Flat()|;
            p <= |buf| && Scan(buf, p, e.key.text) == Hit(start, start + |Flat(e.value)|)
    decreases |before|
  {
    hide Str.Flat, Str.IsWell, At, Flat, IsWell, EntriesAreWell, FlatEntries, Scan, SkipEntries;
    if before == [] {
      EmptyEntries();
      EntryIsHit(buf, p, e);
    } else {
      var q := HeadIsPassed(buf, p, before, e.key.text);
      KeyIsFound(buf, q, before[1..], e);
    }
  }

  lemma {:induction false} KeyIsMissing(buf: Bytes, p: nat, es: seq<Entry>, key: Bytes)
    requires p <= |buf| && EntriesAreWell(es) && At(buf, p, FlatEntries(es))
    requires p + |FlatEntries(es)| == |buf| || buf[p + |FlatEntries(es)|] == LOWER_E
    requires forall j :: 0 <= j < |es| ==> es[j].key.text != key
    ensures Scan(buf, p, key) == Missing
    decreases |es|
  {
    hide Str.Flat, Str.IsWell, At, Flat, IsWell, EntriesAreWell, FlatEntries, Scan, SkipEntries;
    if es == [] {
      EmptyEntries();
      EndIsRead(buf, p, key);
    } else {
      var q := HeadIsPassed(buf, p, es, key);
      KeyIsMissing(buf, q, es[1..], key);
    }
  }

  /** What a hit means: well-formed entries without the key, then the key, then a value that fills the span. */
  lemma {:induction false} HitWasThere(buf: Bytes, p: nat, key: Bytes) returns (before: seq<Entry>, hit: Entry)
    requires p <= |buf| && Scan(buf, p, key).Hit?
    ensures var r := Scan(buf, p, key);
            && EntriesAreWell(before) && (forall j :: 0 <= j < |before| ==> before[j].key.text != key)
            && hit.key.IsWell() && hit.key.text == key && IsWell(hit.value)
            && FlatEntries(before) + hit.key.Flat() == buf[p..r.start] && Flat(hit.value) == buf[r.start..r.end]
    decreases |buf| - p
  {
    hide StringAt, Skip, Flat, IsWell, FlatEntries, EntriesAreWell;
    var k := StringAt(buf, p).value;
    var q := Skip(buf, k.end).value;
    var s := StringWasThere(buf, p);
    var t := ValueWasThere(buf, k.end);
    if k.text == key {
      before, hit := [], Entry(s, t);
      assert FlatEntries(before) == [] && EntriesAreWell(before) by { EmptyEntries(); }
    } else {
      var tail;
      tail, hit := HitWasThere(buf, q, key);
      before := [Entry(s, t)] + tail;
      PrependEntry(buf, p, k.end, q, Scan(buf, q, key).start, Entry(s, t), tail, hit.key.Flat());
    }
  }

  // ----- The BEP 3 encoder -----

  datatype Pair = Pair(key: Bytes, value: Value)

  datatype Value =
    | VInt(n: int)
    | VStr(s: Bytes)
    | VList(items: seq<Value>)
    | VDict(pairs: seq<Pair>)

  function Decimal(n: nat): Bytes {
    if n < 10 then [0x30 + n] else Decimal(n / 10) + [0x30 + n % 10]
  }

  function EncodeString(s: Bytes): Bytes {
    Decimal(|s|) + [COLON] + s
  }

  /** Section "bencoding" of BEP 3; dictionaries keep whatever order their pairs have. */
  function Encode(v: Value): Bytes {
    match v
    case VInt(n) => [LOWER_I] + (if n < 0 then [MINUS] + Decimal(-n) else Decimal(n)) + [LOWER_E]
    case VStr(s) => EncodeString(s)
    case VList(items) => [LOWER_L] + EncodeItems(items) + [LOWER_E]
    case VDict(pairs) => [LOWER_D] + EncodePairs(pairs) + [LOWER_E]
  }

  function EncodeItems(vs: seq<Value>): Bytes {
    if vs == [] then [] else Encode(vs[0]) + EncodeItems(vs[1..])
  }

  function EncodePairs(ps: seq<Pair>): Bytes {
    if ps == [] then [] else EncodeString(ps[0].key) + Encode(ps[0].value) + EncodePairs(ps[1..])
  }

  lemma {:induction false} DecimalRoundTrip(n: nat)
    ensures Decimal(n) != [] && AllDigits(Decimal(n)) && Number(Decimal(n)) == n
  {
    if n < 10 {
      assert Decimal(n)[..0] == [];
    } else {
      DecimalRoundTrip(n / 10);
      assert Decimal(n)[..|Decimal(n)| - 1] == Decimal(n / 10);
    }
  }

  lemma StringIsWritten(s: Bytes) returns (w: Str)
    ensures w.IsWell() && w.text == s && w.Flat() == EncodeString(s)
  {
    DecimalRoundTrip(|s|);
    w := Str(Decimal(|s|), s);
  }

  lemma {:induction false} ValueIsWritten(v: Value) returns (t: Tree)
    ensures IsWell(t) && Flat(t) == Encode(v)
    decreases v, 0
  {
    match v
    case VInt(n) =>
      DecimalRoundTrip(if n < 0 then -n else n);
      t := TInt(if n < 0 then [MINUS] + Decimal(-n) else Decimal(n));
    case VStr(s) =>
      var w := StringIsWritten(s);
      t := TStr(w);
    case VList(items) =>
      var ts := ItemsAreWritten(items);
      t := TList(ts);
    case VDict(pairs) =>
      var es := PairsAreWritten(pairs);
      t := TDict(es);
  }

  lemma {:induction false} ItemsAreWritten(vs: seq<Value>) returns (ts: seq<Tree>)
    ensures AreWell(ts) && FlatItems(ts) == EncodeItems(vs)
    decreases vs, 1
  {
    ts := [];
    if vs != [] {
      var head := ValueIsWritten(vs[0]);
      var tail := ItemsAreWritten(vs[1..]);
      ts := [head] + tail;
      assert ts[1..] == tail;
    }
  }

  lemma {:induction false} PairsAreWritten(ps: seq<Pair>) returns (es: seq<Entry>)
    ensures EntriesAreWell(es) && FlatEntries(es) == EncodePairs(ps)
    ensures |es| == |ps|
    ensures forall i :: 0 <= i < |ps| ==> es[i].key.text == ps[i].key && es[i].key.Flat() == EncodeString(ps[i].key)
    ensures forall i :: 0 <= i < |ps| ==> Flat(es[i].value) == Encode(ps[i].value)
    decreases ps, 1
  {
    es := [];
    if ps != [] {
      var key := StringIsWritten(ps[0].key);
      var value := ValueIsWritten(ps[0].value);
      var tail := PairsAreWritten(ps[1..]);
      es := [Entry(key, value)] + tail;
      assert es[1..] == tail;
      assert forall i :: 0 < i < |ps| ==> es[i] == tail[i - 1] && ps[i] == ps[1..][i - 1];
    }
  }

  /** Whatever surrounds an encoded value, the walker started on it stops exactly behind it. */
  lemma EncodedValueIsSkipped(before: Bytes, v: Value, after: Bytes)
    ensures Skip(before + Encode(v) + after, |before|) == Some(|before| + |Encode(v)|)
  {
    var t := ValueIsWritten(v);
    var buf := before + Encode(v) + after;
    assert buf[|before|..|before| + |Encode(v)|] == Encode(v);
    ValueIsRead(buf, |before|, t);
  }

  /** The first pair with the key, or the number of pairs. */
  function FirstPair(ps: seq<Pair>, key: Bytes): (i: nat)
    ensures i <= |ps| && (i < |ps| ==> ps[i].key == key) && forall j :: 0 <= j < i ==> ps[j].key != key
  {
    if ps == [] || ps[0].key == key then 0 else 1 + FirstPair(ps[1..], key)
  }

  /** The string under the first such key of a dictionary, empty if there is no such key; None for anything else. */
  function StringUnder(v: Value, key: Bytes): Option<Bytes> {
    if !v.VDict? then None
    else
      var i := FirstPair(v.pairs, key);
      if i == |v.pairs| then Some([])
      else if v.pairs[i].value.VStr? then Some(v.pairs[i].value.s)
      else None
  }

  lemma StringIsRetrieved(v: Value)
    ensures var r := StringAt(Encode(v), 0);
            if v.VStr? then r == Some(Token(v.s, |Encode(v)|)) else r == None
  {
    if v.VStr? {
      var w := StringIsWritten(v.s);
      assert At(Encode(v), 0, w.Flat());
      StringIsRead(Encode(v), 0, w);
    } else {
      assert Encode(v)[0] in {LOWER_I, LOWER_L, LOWER_D};
    }
  }

  /** The search in encoded pairs finds the first value under the key, whatever follows. */
  lemma PairIsFound(lead: Byte, ps: seq<Pair>, key: Bytes, v: Value, after: Bytes)
    requires forall j :: 0 <= j < |ps| ==> ps[j].key != key
    ensures var start := 1 + |EncodePairs(ps)| + |EncodeString(key)|;
            Scan([lead] + EncodePairs(ps) + EncodeString(key) + Encode(v) + after, 1, key) ==
              Hit(start, start + |Encode(v)|)
  {
    var es := PairsAreWritten(ps);
    var k := StringIsWritten(key);
    var value := ValueIsWritten(v);
    hide At, Scan, Flat, IsWell, EncodePairs, EncodeString, Encode, FlatEntries, EntriesAreWell;
    var x, y, z := EncodePairs(ps), EncodeString(key), Encode(v);
    var buf := [lead] + x + y + z + after;
    assert buf == [lead] + (x + y + z) + after;
    Inside([lead], x + y + z, after);
    AtSplitThree(buf, 1, x, y, z);
    KeyIsFound(buf, 1, es, Entry(k, value));
  }

  /**
    Looking a name up in an encoded value finds the string under the first such key, reports a missing key
    as empty, and fails for anything but a dictionary and any other value under the key.
   */
  lemma NameIsRetrieved(v: Value, key: Bytes)
    ensures DictString(Encode(v), key) == StringUnder(v, key)
  {
    if v.VDict? {
      NameInDictionary(v.pairs, key);
    } else if v.VStr? {
      DecimalRoundTrip(|v.s|);
      assert IsDigit(Encode(v)[0]);
    }
  }

  lemma NameInDictionary(ps: seq<Pair>, key: Bytes)
    ensures DictString(Encode(VDict(ps)), key) == StringUnder(VDict(ps), key)
  {
    var i := FirstPair(ps, key);
    var buf := Encode(VDict(ps));
    assert IsDict(buf);
    if i < |ps| {
      DictionaryIsCut(ps, i);
      var start, z := 1 + |EncodePairs(ps[..i])| + |EncodeString(key)|, Encode(ps[i].value);
      PairIsFound(LOWER_D, ps[..i], key, ps[i].value, EncodePairs(ps[i + 1..]) + [LOWER_E]);
      hide StringAt, Scan, EncodePairs, EncodeString, Encode;
      assert buf[start..start + |z|] == z;
      StringIsRetrieved(ps[i].value);
    } else {
      KeyIsAbsent(ps, key);
    }
  }

  lemma KeyIsAbsent(ps: seq<Pair>, key: Bytes)
    requires FirstPair(ps, key) == |ps|
    ensures Scan(Encode(VDict(ps)), 1, key) == Missing
  {
    var es := PairsAreWritten(ps);
    hide FlatEntries, EntriesAreWell, Scan, EncodePairs;
    var buf := [LOWER_D] + FlatEntries(es) + [LOWER_E];
    assert Encode(VDict(ps)) == buf;
    Inside([LOWER_D], FlatEntries(es), [LOWER_E]);
    hide At;
    KeyIsMissing(buf, 1, es, key);
  }

  /**
    In a dictionary whose pairs up to its first "info" are encoded, the search returns exactly the bytes of
    that value, and the string under that value's first "name". What follows the value is never looked at,
    so it may be anything.
   */
  lemma InfoSpanIsExact(before: seq<Pair>, v: Value, after: Bytes)
    requires forall j :: 0 <= j < |before| ==> before[j].key != INFO
    ensures var start := 1 + |EncodePairs(before)| + |EncodeString(INFO)|;
            InfoSpan([LOWER_D] + EncodePairs(before) + EncodeString(INFO) + Encode(v) + after) ==
            Found(start, start + |Encode(v)|, StringUnder(v, NAME).GetOr([]))
  {
    var start, z := 1 + |EncodePairs(before)| + |EncodeString(INFO)|, Encode(v);
    var buf := [LOWER_D] + EncodePairs(before) + EncodeString(INFO) + z + after;
    PairIsFound(LOWER_D, before, INFO, v, after);
    NameIsRetrieved(v, NAME);
    hide Scan, DictString, StringUnder, EncodePairs, EncodeString, Encode;
    assert buf[start..start + |z|] == z;
  }

  lemma Inside(a: Bytes, w: Bytes, b: Bytes)
    ensures At(a + w + b, |a|, w)
  {
  }

  /** For every metainfo dictionary: the span of its first "info" value, or the report that it has none. */
  lemma MetainfoIsRead(ps: seq<Pair>)
    ensures var i := FirstPair(ps, INFO);
            InfoSpan(Encode(VDict(ps))) ==
            if i == |ps| then NoInfo
            else
              var start := 1 + |EncodePairs(ps[..i])| + |EncodeString(INFO)|;
              Found(start, start + |Encode(ps[i].value)|, StringUnder(ps[i].value, NAME).GetOr([]))
  {
    var i := FirstPair(ps, INFO);
    if i == |ps| {
      hide InfoSpan;
      NoInfoIsReported(ps);
    } else {
      hide InfoSpan, Encode, EncodePairs, EncodeString, StringUnder, FirstPair;
      InfoSpanIsExact(ps[..i], ps[i].value, EncodePairs(ps[i + 1..]) + [LOWER_E]);
      DictionaryIsCut(ps, i);
    }
  }

  lemma DictionaryIsCut(ps: seq<Pair>, i: nat)
    requires i < |ps|
    ensures Encode(VDict(ps)) ==
            [LOWER_D] + EncodePairs(ps[..i]) + EncodeString(ps[i].key) + Encode(ps[i].value) +
            (EncodePairs(ps[i + 1..]) + [LOWER_E])
  {
    SplitPairs(ps, i);
    hide EncodePairs, EncodeString;
  }

  lemma NoInfoIsReported(ps: seq<Pair>)
    requires FirstPair(ps, INFO) == |ps|
    ensures InfoSpan(Encode(VDict(ps))) == NoInfo
  {
    KeyIsAbsent(ps, INFO);
    hide Scan, FirstPair, EncodePairs;
  }

  lemma {:induction false} SplitPairs(ps: seq<Pair>, i: nat)
    requires i < |ps|
    ensures EncodePairs(ps) ==
            EncodePairs(ps[..i]) + EncodeString(ps[i].key) + Encode(ps[i].value) + EncodePairs(ps[i + 1..])
    decreases i
  {
    hide Encode, EncodeString;
    if i == 0 {
      assert ps[..0] == [];
    } else {
      SplitPairs(ps[1..], i - 1);
      assert ps[..i][1..] == ps[1..][..i - 1] && ps[1..][i - 1 + 1..] == ps[i + 1..];
    }
  }

  /** Conversely, a span is reported only for a dictionary whose first "info" value is the bytes of the span. */
  lemma InfoSpanWasThere(buf: Bytes) returns (before: seq<Entry>, hit: Entry)
    requires InfoSpan(buf).Found?
    ensures var r := InfoSpan(buf);
            && EntriesAreWell(before) && (forall j :: 0 <= j < |before| ==> before[j].key.text != INFO)
            && hit.key.IsWell() && hit.key.text == INFO && IsWell(hit.value)
            && [LOWER_D] + FlatEntries(before) + hit.key.Flat() + Flat(hit.value) == buf[..r.end]
            && Flat(hit.value) == buf[r.start..r.end]
  {
    hide Scan, Flat, IsWell, FlatEntries, EntriesAreWell, DictString;
    before, hit := HitWasThere(buf, 1, INFO);
    var r := InfoSpan(buf);
    assert buf[..r.end] == [buf[0]] + buf[1..r.start] + buf[r.start..r.end];
  }
}
