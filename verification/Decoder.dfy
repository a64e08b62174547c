/** The bencode walker: a cursor over the bytes of a torrent file. */
module Decoder {
  import opened Octets
  import opened Options
  import opened Bencode

  /** strconv.Atoi on a run of digits. */
  function ParseLength(digits: Bytes): Option<nat>
    requires AllDigits(digits)
  {
    if digits == [] then None else Some(Number(digits))
  }

  class BDecoder {
    const buf: Bytes
    var pos: nat

    ghost predicate Valid()
      reads this
    {
      pos <= |buf|
    }

    constructor (buf: Bytes)
      ensures this.buf == buf && pos == 0 && Valid()
    {
      this.buf, pos := buf, 0;
    }

    function Peek(): Byte
      reads this
    {
      if pos >= |buf| then 0 else buf[pos]
    }

    method ReadString() returns (s: Option<Bytes>)
      requires Valid()
      modifies this
      ensures Valid()
      ensures var r := StringAt(buf, old(pos));
              if r.Some? then s == Some(r.value.text) && pos == r.value.end else s == None && pos == old(pos)
    {
      var colon := -1;
      var i := pos;
      while i < |buf|
        invariant pos <= i <= |buf| && colon == -1 && pos == old(pos)
        invariant AllDigits(buf[pos..i])
      {
        if buf[i] == COLON {
          colon := i;
          break;
        }
        if buf[i] < 0x30 || buf[i] > 0x39 {
          OtherByteStops(buf, pos, i);
          return None;
        }
        assert buf[pos..i + 1] == buf[pos..i] + [buf[i]];
        i := i + 1;
      }
      if colon == -1 {
        assert buf[pos..|buf|] == buf[pos..];
        NoByteStops(buf, pos);
        return None;
      }
      DigitsEndIs(buf, pos, colon);
      var n := ParseLength(buf[pos..colon]);
      if n.None? || colon + 1 + n.value > |buf| {
        return None;
      }
      s := Some(buf[colon + 1..colon + 1 + n.value]);
      pos := colon + 1 + n.value;
    }

    /** Moves past one value; after an error the cursor may rest anywhere. */
    method SkipValue() returns (ok: bool)
      requires Valid()
      modifies this
      ensures Valid()
      ensures ok <==> Skip(buf, old(pos)).Some?
      ensures ok ==> pos == Skip(buf, old(pos)).value
      decreases |buf| - pos
    {
      hide StringAt, DigitsEnd;
      if pos >= |buf| {
        return false;
      }
      ghost var p := pos;
      var c := buf[pos];
      if c == LOWER_I {
        pos := pos + 1;
        while pos < |buf| && buf[pos] != LOWER_E
          invariant p < pos <= |buf| && MarkEnd(buf, p + 1) == MarkEnd(buf, pos)
        {
          pos := pos + 1;
        }
        if pos >= |buf| {
          return false;
        }
        pos := pos + 1;
        return true;
      } else if c == LOWER_L {
        pos := pos + 1;
        while Peek() != LOWER_E && pos < |buf|
          invariant p < pos <= |buf| && SkipItems(buf, p + 1) == SkipItems(buf, pos)
          decreases |buf| - pos
        {
          var item := SkipValue();
          if !item {
            return false;
          }
        }
        if pos >= |buf| {
          return false;
        }
        pos := pos + 1;
        return true;
      } else if c == LOWER_D {
        pos := pos + 1;
        while Peek() != LOWER_E && pos < |buf|
          invariant p < pos <= |buf| && SkipEntries(buf, p + 1) == SkipEntries(buf, pos)
          decreases |buf| - pos
        {
          var key := ReadString();
          if key.None? {
            return false;
          }
          var value := SkipValue();
          if !value {
            return false;
          }
        }
        if pos >= |buf| {
          return false;
        }
        pos := pos + 1;
        return true;
      } else if 0x30 <= c <= 0x39 {
        var s := ReadString();
        return s.Some?;
      }
      return false;
    }

    /** Locates the value of the top-level "info" key and, as far as it can be read, its name. */
    method FindInfoSpan() returns (r: Metainfo)
      requires pos == 0
      modifies this
      ensures r == InfoSpan(buf)
    {
      if Peek() != LOWER_D {
        return NotADict;
      }
      pos := pos + 1;
      hide StringAt, Skip, DictString;
      while Peek() != LOWER_E && pos < |buf|
        invariant 0 < pos <= |buf| && Scan(buf, 1, INFO) == Scan(buf, pos, INFO)
        decreases |buf| - pos
      {
        var key := ReadString();
        if key.None? {
          return Unreadable(None);
        }
        var valStart := pos;
        var ok := SkipValue();
        if !ok {
          return Unreadable(key);
        }
        var valEnd := pos;
        if key.value == INFO {
          var name := ReadDictString(buf[valStart..valEnd], NAME);
          return Found(valStart, valEnd, name.GetOr([]));
        }
      }
      return NoInfo;
    }
  }

  /** The string under the first such key of a dictionary; an absent key reads as empty. */
  method ReadDictString(buf: Bytes, key: Bytes) returns (s: Option<Bytes>)
    ensures s == DictString(buf, key)
  {
    var d := new BDecoder(buf);
    if d.Peek() != LOWER_D {
      return None;
    }
    d.pos := d.pos + 1;
    hide StringAt, Skip;
    while d.Peek() != LOWER_E && d.pos < |buf|
      invariant d.buf == buf && 0 < d.pos <= |buf| && Scan(buf, 1, key) == Scan(buf, d.pos, key)
      decreases |buf| - d.pos
    {
      var k := d.ReadString();
      if k.None? {
        return None;
      }
      var valStart := d.pos;
      var ok := d.SkipValue();
      if !ok {
        return None;
      }
      if k.value == key {
        var vd := new BDecoder(buf[valStart..d.pos]);
        s := vd.ReadString();
        return;
      }
    }
    return Some([]);
  }

  // ----- Lengths in 64-bit arithmetic -----

  const MAX_INT := 0x7fff_ffff_ffff_ffff

  /** A sum as 64-bit arithmetic leaves it. */
  function Wrapped(x: int): int {
    (x + MAX_INT + 1) % (2 * (MAX_INT + 1)) - MAX_INT - 1
  }

  /** Whether readString refuses a length: strconv.Atoi has no such number, or the text would end behind the buffer. */
  predicate IsRefused(colon: nat, n: nat, size: nat) {
    n > MAX_INT || Wrapped(colon + 1 + n) > size
  }

  /**
    In 64-bit arithmetic a length is refused exactly if the text would end behind the buffer, save for the
    lengths whose end is beyond the largest integer: those are accepted, with an end before the beginning.
   */
  lemma LengthTestIsExact(colon: nat, n: nat, size: nat)
    requires colon < size <= MAX_INT
    ensures (IsRefused(colon, n, size) <==> colon + 1 + n > size) <==> !(MAX_INT - colon - 1 < n <= MAX_INT)
    ensures MAX_INT - colon - 1 < n <= MAX_INT ==> Wrapped(colon + 1 + n) < 0
  {
    var x := colon + 1 + n;
    if n <= MAX_INT {
      if x <= MAX_INT {
        assert Wrapped(x) == x;
      } else {
        assert Wrapped(x) == x - 2 * (MAX_INT + 1);
      }
    }
  }

  lemma OtherByteStops(buf: Bytes, p: nat, i: nat)
    requires p <= i < |buf| && AllDigits(buf[p..i]) && !IsDigit(buf[i]) && buf[i] != COLON
    ensures StringAt(buf, p) == None
  {
    DigitsEndIs(buf, p, i);
  }

  lemma NoByteStops(buf: Bytes, p: nat)
    requires p <= |buf| && AllDigits(buf[p..])
    ensures StringAt(buf, p) == None
  {
    assert buf[p..] == buf[p..|buf|];
    DigitsEndIs(buf, p, |buf|);
  }
}
