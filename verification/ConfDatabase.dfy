// The files that keep the bans over a restart: what is written is what is read back.
module ConfDatabase {
  import opened Strings

  type Octet = x: int | 0 <= x < 256

  const DB_VERSION := 1  // KLINE_DB_VERSION
  const MAX32: nat := 0xFFFF_FFFF
  const LONGEST: nat := 4294967294  // longer strings are cut

  // ---------------------------------------------------------------- numbers, most significant octet first

  function Power(n: nat): (r: nat)
    ensures r > 0
  {
    if n == 0 then 1 else 256 * Power(n - 1)
  }

  function Bytes(v: nat, n: nat): (r: seq<Octet>)
    ensures |r| == n
  {
    if n == 0 then [] else Bytes(v / 256, n - 1) + [v % 256]
  }

  function Number(b: seq<Octet>): nat {
    if b == [] then 0 else Number(b[..|b| - 1]) * 256 + b[|b| - 1]
  }

  /** A number is read back exactly if and only if it fits; otherwise it is cut to the lowest octets. */
  lemma {:induction false} NumberBytes(v: nat, n: nat)
    ensures Number(Bytes(v, n)) == v % Power(n)
    ensures Number(Bytes(v, n)) == v <==> v < Power(n)
  {
    if n > 0 {
      NumberBytes(v / 256, n - 1);
      assert Bytes(v, n)[..n - 1] == Bytes(v / 256, n - 1);
      ModSplit(v, Power(n - 1));
    }
  }

  lemma ModSplit(v: nat, p: nat)
    requires p > 0
    ensures (v / 256) % p * 256 + v % 256 == v % (256 * p)
  {
    var q, r := v / 256, v % 256;
    var a, b := q / p, q % p;
    assert v == 256 * q + r && q == a * p + b;
    assert 256 * (a * p) == a * (256 * p);
    assert v == a * (256 * p) + (256 * b + r);
    assert b <= p - 1;
    DivModUnique(v, 256 * p, a, 256 * b + r);
  }

  lemma DivModUnique(v: nat, d: nat, q: nat, r: nat)
    requires d > 0 && v == q * d + r && r < d
    ensures v % d == r
  {
    var k := v / d;
    assert v == k * d + v % d;
    if k < q {
      Multiples(k + 1, q, d);
      assert false;
    } else if k > q {
      Multiples(q + 1, k, d);
      assert false;
    }
  }

  lemma Multiples(a: nat, b: nat, d: nat)
    requires a <= b
    ensures a * d <= b * d
    ensures (a + 1) * d == a * d + d
  {
    assert b * d == a * d + (b - a) * d;
  }

  // ---------------------------------------------------------------- strings and records

  /** A C string: no NUL in it, and octets only. */
  predicate Printable(s: string) {
    forall i :: 0 <= i < |s| ==> 0 < s[i] as int < 256
  }

  function Octets(s: string): (r: seq<Octet>)
    requires Printable(s)
    ensures |r| == |s| && forall i :: 0 <= i < |s| ==> r[i] == s[i] as int
  {
    seq(|s|, i requires 0 <= i < |s| => s[i] as int)
  }

  /** What is written of a string: its length is first taken modulo 2^32, and then cut. */
  function Written(s: string): (t: string)
    ensures |t| <= |s| && |t| <= LONGEST && t == s[..|t|]
    ensures t == s <==> |s| <= LONGEST
  {
    var len := |s| % 0x1_0000_0000;
    Truncate(s[..len], LONGEST)
  }

  /** A pointer to a string, which may be NULL: its length with the terminator, or 0, and the octets. */
  function StringBytes(s: Option<string>): seq<Octet>
    requires s.Some? ==> Printable(s.value)
  {
    if s.None? then Bytes(0, 4)
    else
      var t := Written(s.value);
      Bytes(|t| + 1, 4) + Octets(t) + [0]
  }

  /** What the octets are as a C string. */
  function CString(b: seq<Octet>): string {
    if b == [] || b[0] == 0 then "" else [b[0] as char] + CString(b[1..])
  }

  lemma {:induction false} CStringOf(s: string)
    requires Printable(s)
    ensures CString(Octets(s) + [0]) == s
  {
    if s != "" {
      CStringOf(s[1..]);
      assert (Octets(s) + [0])[1..] == Octets(s[1..]) + [0];
      assert s == [s[0]] + s[1..];
    }
  }

  /** A ban: its strings (user, host and reason, or mask and reason) and two times. */
  datatype Record = Record(fields: seq<Option<string>>, setat: nat, until: nat)

  predicate RecordOk(r: Record, arity: nat) {
    && |r.fields| == arity && r.setat < Power(8) && r.until < Power(8)
    && forall i :: 0 <= i < arity && r.fields[i].Some? ==> Printable(r.fields[i].value)
  }

  function FieldBytes(fields: seq<Option<string>>): seq<Octet>
    requires forall i :: 0 <= i < |fields| && fields[i].Some? ==> Printable(fields[i].value)
  {
    if fields == [] then [] else StringBytes(fields[0]) + FieldBytes(fields[1..])
  }

  function RecordBytes(r: Record, arity: nat): seq<Octet>
    requires RecordOk(r, arity)
  {
    FieldBytes(r.fields) + (Bytes(r.setat, 8) + Bytes(r.until, 8))
  }

  function AllBytes(records: seq<Record>, arity: nat): seq<Octet>
    requires forall i :: 0 <= i < |records| ==> RecordOk(records[i], arity)
  {
    if records == [] then [] else RecordBytes(records[0], arity) + AllBytes(records[1..], arity)
  }

  /** A whole file. */
  function FileBytes(records: seq<Record>, arity: nat): seq<Octet>
    requires forall i :: 0 <= i < |records| ==> RecordOk(records[i], arity)
  {
    Bytes(DB_VERSION, 4) + Bytes(|records|, 4) + AllBytes(records, arity)
  }

  // ---------------------------------------------------------------- reading back, as functions

  datatype Parsed<T> = Parsed(value: T, rest: seq<Octet>) | Failed

  function ParseNumber(b: seq<Octet>, n: nat): Parsed<nat> {
    if |b| < n then Failed else Parsed(Number(b[..n]), b[n..])
  }

  function ParseString(b: seq<Octet>): Parsed<Option<string>> {
    match ParseNumber(b, 4)
    case Failed => Failed
    case Parsed(len, t) =>
      if len == 0 then Parsed(None, t)
      else if |t| < len then Failed
      else Parsed(Some(CString(t[..len])), t[len..])
  }

  lemma NumberBack(v: nat, n: nat, more: seq<Octet>)
    requires v < Power(n)
    ensures ParseNumber(Bytes(v, n) + more, n) == Parsed(v, more)
  {
    NumberBytes(v, n);
    assert (Bytes(v, n) + more)[..n] == Bytes(v, n) && (Bytes(v, n) + more)[n..] == more;
  }

  lemma PowerFour()
    ensures Power(4) == 0x1_0000_0000
  {
    assert Power(0) == 1 && Power(1) == 256 && Power(2) == 0x1_0000 && Power(3) == 0x100_0000;
  }

  /** A string, or the absence of one, is read back as what was written of it. */
  lemma StringBack(s: Option<string>, more: seq<Octet>)
    requires s.Some? ==> Printable(s.value)
    ensures ParseString(StringBytes(s) + more) == Parsed(if s.None? then None else Some(Written(s.value)), more)
  {
    PowerFour();
    if s.None? {
      NumberBack(0, 4, more);
    } else {
      var t := Written(s.value);
      var body := Octets(t) + [0];
      var len := |t| + 1;
      NumberBack(len, 4, body + more);
      assert StringBytes(s) + more == Bytes(len, 4) + (body + more);
      assert (body + more)[..len] == body && (body + more)[len..] == more;
      CStringOf(t);
    }
  }

  // ---------------------------------------------------------------- the stream

  class DbFile {
    var data: seq<Octet>
    var pos: nat

    constructor (data: seq<Octet>)
      ensures this.data == data && pos == 0
    {
      this.data, pos := data, 0;
    }

    /** What is still to be read. */
    ghost function Rest(): seq<Octet>
      requires pos <= |data|
      reads this
    {
      data[pos..]
    }

    /** fgetc */
    method Get() returns (c: int)
      requires pos <= |data|
      modifies this`pos
      ensures pos <= |data|
      ensures old(pos) < |data| ==> c == data[old(pos)] && pos == old(pos) + 1
      ensures old(pos) == |data| ==> c == -1 && pos == old(pos)
    {
      if pos < |data| {
        c := data[pos];
        pos := pos + 1;
      } else {
        c := -1;
      }
    }

    method Put(c: Octet)
      modifies this`data
      ensures data == old(data) + [c]
    {
      data := data + [c];
    }

    method WriteUint32(val: nat)
      modifies this`data
      ensures data == old(data) + Bytes(val, 4)
    {
      BytesFour(val, 4);
      Put(val / 0x100_0000 % 256);
      Put(val / 0x1_0000 % 256);
      Put(val / 0x100 % 256);
      Put(val % 256);
    }

    method ReadUint32() returns (ok: bool, ret: nat)
      requires pos <= |data|
      modifies this`pos
      ensures pos <= |data|
      ensures match ParseNumber(old(Rest()), 4)
        case Failed => !ok
        case Parsed(v, rest) => ok && ret == v && Rest() == rest
    {
      var c1 := Get();
      var c2 := Get();
      var c3 := Get();
      var c4 := Get();
      if c1 == -1 || c2 == -1 || c3 == -1 || c4 == -1 {
        return false, 0;
      }
      NumberFour(old(Rest())[..4]);
      return true, c1 * 0x100_0000 + c2 * 0x1_0000 + c3 * 0x100 + c4;
    }

    method WriteUint64(val: nat)
      modifies this`data
      ensures data == old(data) + Bytes(val, 8)
    {
      BytesEight(val);
      Put(val / 0x100_0000_0000_0000 % 256);
      Put(val / 0x1_0000_0000_0000 % 256);
      Put(val / 0x100_0000_0000 % 256);
      Put(val / 0x1_0000_0000 % 256);
      Put(val / 0x100_0000 % 256);
      Put(val / 0x1_0000 % 256);
      Put(val / 0x100 % 256);
      Put(val % 256);
    }

    method ReadUint64() returns (ok: bool, ret: nat)
      requires pos <= |data|
      modifies this`pos
      ensures pos <= |data|
      ensures match ParseNumber(old(Rest()), 8)
        case Failed => !ok
        case Parsed(v, rest) => ok && ret == v && Rest() == rest
    {
      var c1 := Get();
      var c2 := Get();
      var c3 := Get();
      var c4 := Get();
      var c5 := Get();
      var c6 := Get();
      var c7 := Get();
      var c8 := Get();
      if c1 == -1 || c2 == -1 || c3 == -1 || c4 == -1 || c5 == -1 || c6 == -1 || c7 == -1 || c8 == -1 {
        return false, 0;
      }
      NumberEight(old(Rest())[..8]);
      return true, c1 * 0x100_0000_0000_0000 + c2 * 0x1_0000_0000_0000 + c3 * 0x100_0000_0000 + c4 * 0x1_0000_0000 +
                   c5 * 0x100_0000 + c6 * 0x1_0000 + c7 * 0x100 + c8;
    }

    method WriteUint16(val: nat)
      modifies this`data
      ensures data == old(data) + Bytes(val, 2)
    {
      BytesTwo(val, 2);
      Put(val / 0x100 % 256);
      Put(val % 256);
    }

    method ReadUint16() returns (ok: bool, ret: nat)
      requires pos <= |data|
      modifies this`pos
      ensures pos <= |data|
      ensures match ParseNumber(old(Rest()), 2)
        case Failed => !ok
        case Parsed(v, rest) => ok && ret == v && Rest() == rest
    {
      var c1 := Get();
      var c2 := Get();
      if c1 == -1 || c2 == -1 {
        return false, 0;
      }
      assert old(Rest())[..2][..1] == [c1] && [c1][..0] == [];
      assert Number([c1]) == c1;
      return true, c1 * 0x100 + c2;
    }

    /** fwrite */
    method PutAll(s: string)
      requires Printable(s)
      modifies this`data
      ensures data == old(data) + Octets(s)
    {
      for i := 0 to |s|
        invariant data == old(data) + Octets(s[..i])
      {
        assert Octets(s[..i + 1]) == Octets(s[..i]) + [s[i] as int];
        Put(s[i] as int);
      }
      assert s[..|s|] == s;
    }

    method WriteString(s: Option<string>)
      requires s.Some? ==> Printable(s.value)
      modifies this`data
      ensures data == old(data) + StringBytes(s)
    {
      hide Bytes, Octets;
      if s.None? {
        WriteUint32(0);
        return;
      }
      var len := |s.value| % 0x1_0000_0000;
      if len > LONGEST {
        len := LONGEST;
      }
      WriteUint32(len + 1);
      assert Written(s.value) == s.value[..len];
      PutAll(s.value[..len]);
      Put(0);
    }

    method ReadString() returns (ok: bool, ret: Option<string>)
      requires pos <= |data|
      modifies this`pos
      ensures pos <= |data|
      ensures match ParseString(old(Rest())) case Failed => !ok case Parsed(v, rest) => ok && ret == v && Rest() == rest
    {
      var got, len := ReadUint32();
      if !got {
        return false, None;
      }
      if len == 0 {
        return true, None;
      }
      if pos + len > |data| {
        pos := |data|;
        return false, None;
      }
      Slices(data, pos, len);
      ret := Some(CString(data[pos..pos + len]));
      pos := pos + len;
      ok := true;
    }

    // -------------------------------------------------------------- records

    method WriteRecord(r: Record, arity: nat)
      requires RecordOk(r, arity)
      modifies this`data
      ensures data == old(data) + RecordBytes(r, arity)
    {
      hide Bytes, FieldBytes;
      WriteFields(r.fields);
      WriteUint64(r.setat);
      WriteUint64(r.until);
      Assoc(old(data) + FieldBytes(r.fields), Bytes(r.setat, 8), Bytes(r.until, 8));
      Assoc(old(data), FieldBytes(r.fields), Bytes(r.setat, 8) + Bytes(r.until, 8));
    }

    method WriteFields(fields: seq<Option<string>>)
      requires forall i :: 0 <= i < |fields| && fields[i].Some? ==> Printable(fields[i].value)
      modifies this`data
      ensures data == old(data) + FieldBytes(fields)
    {
      hide FieldBytes, StringBytes;
      ghost var all := data + FieldBytes(fields);
      assert fields[0..] == fields;
      for i := 0 to |fields|
        invariant data + FieldBytes(fields[i..]) == all
      {
        FieldsSplit(fields, i);
        Assoc(data, StringBytes(fields[i]), FieldBytes(fields[i + 1..]));
        WriteString(fields[i]);
      }
      NoFields(fields);
      assert data + [] == data;
    }

    /** SAFE_READ of every field: one that cannot be read keeps the value of the record before. If the next record
        lies ahead, it is what has been read. */
    method ReadRecord(arity: nat, before: Record, ghost next: Option<Record>, ghost more: seq<Octet>)
      returns (r: Record)
      requires pos <= |data| && |before.fields| == arity
      requires next.Some? ==> RecordOk(next.value, arity) && Short(next.value)
      requires next.Some? ==> Rest() == RecordBytes(next.value, arity) + more
      modifies this`pos
      ensures pos <= |data| && |r.fields| == arity
      ensures next.Some? ==> r == next.value && Rest() == more
    {
      hide Bytes, FieldBytes, ParseNumber, Power;
      if next.Some? {
        Assoc(FieldBytes(next.value.fields), Bytes(next.value.setat, 8) + Bytes(next.value.until, 8), more);
      }
      var fields := ReadFields(arity, before.fields, if next.Some? then Some(next.value.fields) else None,
                               if next.None? then []
                               else Bytes(next.value.setat, 8) + Bytes(next.value.until, 8) + more);
      var setat, until := before.setat, before.until;
      if next.Some? { TimesBack(next.value, more); }
      var ok, v := ReadUint64();
      if ok {
        setat := v;
      }
      ok, v := ReadUint64();
      if ok {
        until := v;
      }
      r := Record(fields, setat, until);
    }

    method ReadFields(arity: nat, before: seq<Option<string>>, ghost next: Option<seq<Option<string>>>,
        ghost more: seq<Octet>)
      returns (fields: seq<Option<string>>)
      requires pos <= |data| && |before| == arity
      requires next.Some? ==> FieldsOk(next.value) && |next.value| == arity && Rest() == FieldBytes(next.value) + more
      modifies this`pos
      ensures pos <= |data| && |fields| == arity
      ensures next.Some? ==> fields == next.value && Rest() == more
    {
      hide FieldBytes, StringBytes, ParseString, Printable;
      fields := before;
      if next.Some? { assert next.value[0..] == next.value; }
      for i := 0 to arity
        invariant pos <= |data| && |fields| == arity
        invariant next.Some? ==> fields[..i] == next.value[..i] && Rest() == FieldBytes(next.value[i..]) + more
      {
        if next.Some? {
          FieldsSplit(next.value, i);
          StringBack(next.value[i], FieldBytes(next.value[i + 1..]) + more);
          Assoc(StringBytes(next.value[i]), FieldBytes(next.value[i + 1..]), more);
        }
        var ok, s := ReadString();
        if ok {
          fields := fields[i := s];
        }
      }
      if next.Some? {
        NoFields(next.value);
        assert [] + more == more;
        assert fields == next.value;
      }
    }
  }

  lemma FieldsSplit(fields: seq<Option<string>>, i: nat)
    requires i < |fields| && forall k :: 0 <= k < |fields| && fields[k].Some? ==> Printable(fields[k].value)
    ensures FieldBytes(fields[i..]) == StringBytes(fields[i]) + FieldBytes(fields[i + 1..])
  {
    assert fields[i..][1..] == fields[i + 1..];
  }

  lemma NoFields(fields: seq<Option<string>>)
    ensures FieldBytes(fields[|fields|..]) == []
  {
  }

  lemma Assoc(a: seq<Octet>, b: seq<Octet>, c: seq<Octet>)
    ensures a + (b + c) == a + b + c
  {
  }

  predicate FieldsOk(fields: seq<Option<string>>) {
    forall i :: 0 <= i < |fields| && fields[i].Some? ==> Printable(fields[i].value) && |fields[i].value| <= LONGEST
  }

  lemma TimesBack(r: Record, more: seq<Octet>)
    requires r.setat < Power(8) && r.until < Power(8)
    ensures ParseNumber(Bytes(r.setat, 8) + Bytes(r.until, 8) + more, 8) == Parsed(r.setat, Bytes(r.until, 8) + more)
    ensures ParseNumber(Bytes(r.until, 8) + more, 8) == Parsed(r.until, more)
  {
    NumberBack(r.setat, 8, Bytes(r.until, 8) + more);
    assert Bytes(r.setat, 8) + Bytes(r.until, 8) + more == Bytes(r.setat, 8) + (Bytes(r.until, 8) + more);
    NumberBack(r.until, 8, more);
  }

  /** No string of the record is so long that it would be cut. */
  predicate Short(r: Record) {
    forall i :: 0 <= i < |r.fields| && r.fields[i].Some? ==> |r.fields[i].value| <= LONGEST
  }

  // ---------------------------------------------------------------- whole files

  /** An entry of a list of bans, and whether it belongs in the file. */
  datatype Entry = Entry(record: Record, inDatabase: bool)

  function Kept(list: seq<Entry>): seq<Record> {
    if list == [] then []
    else Kept(list[..|list| - 1]) + if list[|list| - 1].inDatabase then [list[|list| - 1].record] else []
  }

  lemma Slices(data: seq<Octet>, pos: nat, len: nat)
    requires pos + len <= |data|
    ensures data[pos..][..len] == data[pos..pos + len] && data[pos..][len..] == data[pos + len..]
  {
  }

  /** Exactly the records of the entries that belong in the file are kept, as often and in the order they are listed:
      their places in the list can be told, growing, and every such entry has one. */
  lemma {:induction false} KeptPlaces(list: seq<Entry>) returns (places: seq<nat>)
    ensures |places| == |Kept(list)|
    ensures forall k :: 0 <= k < |places| ==>
      places[k] < |list| && list[places[k]].inDatabase && Kept(list)[k] == list[places[k]].record
    ensures forall k, l :: 0 <= k < l < |places| ==> places[k] < places[l]
    ensures forall i :: 0 <= i < |list| && list[i].inDatabase ==> i in places
  {
    places := [];
    if list == [] {
      assert Kept(list) == [];
    } else {
      var n := |list| - 1;
      assert Kept(list) == Kept(list[..n]) + if list[n].inDatabase then [list[n].record] else [];
      hide Kept;
      places := KeptPlaces(list[..n]);
      if list[n].inDatabase { places := places + [n]; }
    }
  }

  /** The entries that go into the file, list after list. */
  function AllKept(lists: seq<seq<Entry>>): seq<Record> {
    if lists == [] then [] else AllKept(lists[..|lists| - 1]) + Kept(lists[|lists| - 1])
  }

  ghost predicate EntriesOk(lists: seq<seq<Entry>>, arity: nat) {
    forall i, j :: 0 <= i < |lists| && 0 <= j < |lists[i]| ==> RecordOk(lists[i][j].record, arity)
  }

  lemma BytesTwo(v: nat, n: nat)
    requires n >= 2
    ensures Bytes(v, n) == Bytes(v / 0x1_0000, n - 2) + [v / 0x100 % 256, v % 256]
  {
    assert v / 256 / 256 == v / 0x1_0000;
    assert Bytes(v, n) == Bytes(v / 256, n - 1) + [v % 256];
    assert Bytes(v / 256, n - 1) == Bytes(v / 256 / 256, n - 2) + [v / 256 % 256];
  }

  lemma BytesFour(v: nat, n: nat)
    requires n >= 4
    ensures Bytes(v, n) ==
      Bytes(v / 0x1_0000_0000, n - 4) + [v / 0x100_0000 % 256, v / 0x1_0000 % 256, v / 0x100 % 256, v % 256]
  {
    hide Bytes;
    BytesTwo(v, n);
    var h := v / 0x1_0000;
    BytesTwo(h, n - 2);
    assert h / 0x1_0000 == v / 0x1_0000_0000 && h / 0x100 == v / 0x100_0000;
  }

  lemma BytesEight(v: nat)
    ensures Bytes(v, 8) == [v / 0x100_0000_0000_0000 % 256, v / 0x1_0000_0000_0000 % 256, v / 0x100_0000_0000 % 256,
      v / 0x1_0000_0000 % 256, v / 0x100_0000 % 256, v / 0x1_0000 % 256, v / 0x100 % 256, v % 256]
  {
    hide Bytes;
    BytesFour(v, 8);
    var h := v / 0x1_0000_0000;
    BytesFour(h, 4);
    assert h / 0x100_0000 == v / 0x100_0000_0000_0000 && h / 0x1_0000 == v / 0x1_0000_0000_0000;
    assert h / 0x100 == v / 0x100_0000_0000;
    assert Bytes(h / 0x1_0000_0000, 0) == [];
  }

  lemma NumberFour(b: seq<Octet>)
    requires |b| == 4
    ensures Number(b) == b[0] as int * 0x100_0000 + b[1] as int * 0x1_0000 + b[2] as int * 0x100 + b[3] as int
  {
    assert b[..3][..2] == b[..2] && b[..2][..1] == b[..1] && b[..1][..0] == [];
    assert Number(b[..1]) == b[0] && Number(b[..2]) == b[0] as int * 256 + b[1] as int;
    assert Number(b[..3]) == Number(b[..2]) * 256 + b[2];
  }

  lemma NumberEight(b: seq<Octet>)
    requires |b| == 8
    ensures Number(b) ==
      b[0] as int * 0x100_0000_0000_0000 + b[1] as int * 0x1_0000_0000_0000 + b[2] as int * 0x100_0000_0000 +
      b[3] as int * 0x1_0000_0000 + b[4] as int * 0x100_0000 + b[5] as int * 0x1_0000 + b[6] as int * 0x100 +
        b[7] as int
  {
    NumberFour(b[..4]);
    assert b[..7][..6] == b[..6] && b[..6][..5] == b[..5] && b[..5][..4] == b[..4];
    assert Number(b[..5]) == Number(b[..4]) * 256 + b[4];
    assert Number(b[..6]) == Number(b[..5]) * 256 + b[5];
    assert Number(b[..7]) == Number(b[..6]) * 256 + b[6];
  }

  lemma KeptSnoc(list: seq<Entry>, i: nat)
    requires i < |list|
    ensures Kept(list[..i + 1]) == if list[i].inDatabase then Kept(list[..i]) + [list[i].record] else Kept(list[..i])
  {
    assert list[..i + 1][..i] == list[..i];
  }

  lemma AllKeptSnoc(lists: seq<seq<Entry>>, i: nat)
    requires i < |lists|
    ensures AllKept(lists[..i + 1]) == AllKept(lists[..i]) + Kept(lists[i])
  {
    assert lists[..i + 1][..i] == lists[..i];
  }

  lemma {:induction false} KeptOk(list: seq<Entry>, arity: nat)
    requires forall j :: 0 <= j < |list| ==> RecordOk(list[j].record, arity)
    ensures RecordsOk(Kept(list), arity)
  {
    if list != [] { KeptOk(list[..|list| - 1], arity); }
  }

  lemma {:induction false} AllKeptOk(lists: seq<seq<Entry>>, arity: nat)
    requires EntriesOk(lists, arity)
    ensures RecordsOk(AllKept(lists), arity)
  {
    if lists != [] {
      AllKeptOk(lists[..|lists| - 1], arity);
      KeptOk(lists[|lists| - 1], arity);
    }
  }

  predicate RecordsOk(records: seq<Record>, arity: nat) {
    forall i :: 0 <= i < |records| ==> RecordOk(records[i], arity)
  }

  lemma {:induction false} AllBytesSnoc(records: seq<Record>, r: Record, arity: nat)
    requires RecordsOk(records, arity) && RecordOk(r, arity)
    ensures RecordsOk(records + [r], arity)
    ensures AllBytes(records + [r], arity) == AllBytes(records, arity) + RecordBytes(r, arity)
  {
    if records == [] {
      assert [] + [r] == [r] && [r][1..] == [];
      assert AllBytes([r], arity) == RecordBytes(r, arity) + AllBytes([], arity);
    } else {
      AllBytesSnoc(records[1..], r, arity);
      assert (records + [r])[1..] == records[1..] + [r];
      Assoc(RecordBytes(records[0], arity), AllBytes(records[1..], arity), RecordBytes(r, arity));
    }
  }

  /** The first pass of a save. */
  method CountKept(lists: seq<seq<Entry>>) returns (records: nat)
    ensures records == |AllKept(lists)|
  {
    records := 0;
    for i := 0 to |lists|
      invariant records == |AllKept(lists[..i])|
    {
      for j := 0 to |lists[i]|
        invariant records == |AllKept(lists[..i])| + |Kept(lists[i][..j])|
      {
        KeptSnoc(lists[i], j);
        if lists[i][j].inDatabase {
          records := records + 1;
        }
      }
      assert lists[i][..|lists[i]|] == lists[i];
      AllKeptSnoc(lists, i);
    }
    assert lists[..|lists|] == lists;
  }

  /** The second pass: every entry counted is written, in the same order. */
  method WriteKept(f: DbFile, lists: seq<seq<Entry>>, arity: nat)
    requires EntriesOk(lists, arity)
    modifies f`data
    ensures RecordsOk(AllKept(lists), arity) && f.data == old(f.data) + AllBytes(AllKept(lists), arity)
  {
    hide AllBytes, RecordBytes, RecordOk, EntriesOk, Kept, AllKept;
    NoneKept();
    ghost var done: seq<Record> := [];
    NothingWritten(arity);
    assert f.data + [] == f.data;
    for i := 0 to |lists|
      invariant done == AllKept(lists[..i]) && RecordsOk(done, arity) && f.data == old(f.data) + AllBytes(done, arity)
    {
      ghost var before := done;
      for j := 0 to |lists[i]|
        invariant done == before + Kept(lists[i][..j]) && RecordsOk(done, arity)
        invariant f.data == old(f.data) + AllBytes(done, arity)
      {
        KeptSnoc(lists[i], j);
        EntryOk(lists, arity, i, j);
        done := WriteEntry(f, lists[i][j], old(f.data), done, arity);
      }
      assert lists[i][..|lists[i]|] == lists[i];
      AllKeptSnoc(lists, i);
    }
    assert lists[..|lists|] == lists;
  }

  /** One entry, if it belongs in the file. */
  method WriteEntry(f: DbFile, entry: Entry, ghost start: seq<Octet>, ghost done: seq<Record>, arity: nat)
    returns (ghost after: seq<Record>)
    requires RecordsOk(done, arity) && RecordOk(entry.record, arity) && f.data == start + AllBytes(done, arity)
    modifies f`data
    ensures after == if entry.inDatabase then done + [entry.record] else done
    ensures RecordsOk(after, arity) && f.data == start + AllBytes(after, arity)
  {
    hide AllBytes, RecordBytes, RecordOk;
    after := done;
    if entry.inDatabase {
      AllBytesSnoc(done, entry.record, arity);
      Assoc(start, AllBytes(done, arity), RecordBytes(entry.record, arity));
      f.WriteRecord(entry.record, arity);
      after := done + [entry.record];
    }
  }

  lemma NoneKept()
    ensures Kept([]) == [] && AllKept([]) == []
  {
  }

  lemma EntryOk(lists: seq<seq<Entry>>, arity: nat, i: nat, j: nat)
    requires EntriesOk(lists, arity) && i < |lists| && j < |lists[i]|
    ensures RecordOk(lists[i][j].record, arity)
  {
  }

  lemma NothingWritten(arity: nat)
    ensures RecordsOk([], arity) && AllBytes([], arity) == []
  {
  }

  /** save_kline_database and its three siblings: the count that is stored is that of the records that follow. */
  method SaveDatabase(f: DbFile, lists: seq<seq<Entry>>, arity: nat)
    requires f.data == [] && EntriesOk(lists, arity)
    modifies f`data
    ensures RecordsOk(AllKept(lists), arity) && f.data == FileBytes(AllKept(lists), arity)
  {
    hide Bytes, AllBytes, EntriesOk;
    f.WriteUint32(DB_VERSION);
    var records := CountKept(lists);
    f.WriteUint32(records);
    WriteKept(f, lists, arity);
    assert [] + Bytes(DB_VERSION, 4) == Bytes(DB_VERSION, 4);
  }

  /** These records can be stored without loss. */
  ghost predicate Storable(records: seq<Record>, arity: nat) {
    RecordsOk(records, arity) && |records| <= MAX32 && forall i :: 0 <= i < |records| ==> Short(records[i])
  }

  /** load_kline_database and its siblings: as many records as the file says it has, and for a file that was
      written whole exactly the records that were written. */
  method LoadDatabase(f: DbFile, arity: nat, ghost written: seq<Record>) returns (loaded: seq<Record>)
    requires f.pos == 0
    modifies f`pos
    ensures Storable(written, arity) && f.data == FileBytes(written, arity) ==> loaded == written
    ensures |f.data| >= 8 ==> |loaded| == if Number(f.data[..4]) < 1 then 0 else Number(f.data[4..8])
  {
    hide Bytes, AllBytes, RecordBytes, Number, RecordOk;
    ghost var whole := Storable(written, arity) && f.data == FileBytes(written, arity);
    if whole { HeaderBack(written, arity); }
    hide Storable, FileBytes;
    assert f.Rest() == f.data && (|f.data| >= 8 ==> f.data[4..][..4] == f.data[4..8]);
    var ok, version := f.ReadUint32();
    if !ok || version < 1 {
      return [];
    }
    var got, n := f.ReadUint32();
    loaded := LoadRecords(f, arity, if got then n else 0, whole, written);
  }

  /** The loop over the announced number of records. */
  method LoadRecords(f: DbFile, arity: nat, records: nat, ghost whole: bool, ghost written: seq<Record>)
    returns (loaded: seq<Record>)
    requires f.pos <= |f.data|
    requires whole ==> Storable(written, arity) && records == |written| && f.Rest() == AllBytes(written, arity)
    modifies f`pos
    ensures |loaded| == records && (whole ==> loaded == written)
  {
    hide Bytes, AllBytes, RecordBytes, RecordOk, Short;
    loaded := [];
    var last := Record(seq(arity, _ => None), 0, 0);
    assert written[0..] == written;
    for i := 0 to records
      invariant f.pos <= |f.data| && |last.fields| == arity && |loaded| == i
      invariant whole ==> loaded == written[..i] && f.Rest() == AllBytes(written[i..], arity)
    {
      if whole { RecordsSplit(written, arity, i); }
      last := f.ReadRecord(arity, last, if whole then Some(written[i]) else None,
                           if whole then AllBytes(written[i + 1..], arity) else []);
      loaded := loaded + [last];
    }
    assert written[..|written|] == written;
  }

  lemma RecordsSplit(records: seq<Record>, arity: nat, i: nat)
    requires Storable(records, arity) && i < |records|
    ensures RecordOk(records[i], arity) && Short(records[i]) && RecordsOk(records[i + 1..], arity)
    ensures AllBytes(records[i..], arity) == RecordBytes(records[i], arity) + AllBytes(records[i + 1..], arity)
  {
    assert records[i..][1..] == records[i + 1..];
  }

  lemma HeaderBack(records: seq<Record>, arity: nat)
    requires Storable(records, arity)
    ensures var b := FileBytes(records, arity); var t := Bytes(|records|, 4) + AllBytes(records, arity);
      ParseNumber(b, 4) == Parsed(DB_VERSION, t) && ParseNumber(t, 4) == Parsed(|records|, AllBytes(records, arity))
  {
    hide Bytes, AllBytes;
    PowerFour();
    NumberBack(|records|, 4, AllBytes(records, arity));
    NumberBack(DB_VERSION, 4, Bytes(|records|, 4) + AllBytes(records, arity));
    Assoc(Bytes(DB_VERSION, 4), Bytes(|records|, 4), AllBytes(records, arity));
  }

  /** Saving and loading: whatever was in the lists and belonged in the file comes back, in order, with missing
      strings and empty ones kept apart and every time exact. */
  method SaveThenLoad(lists: seq<seq<Entry>>, arity: nat) returns (loaded: seq<Record>)
    requires EntriesOk(lists, arity) && Storable(AllKept(lists), arity)
    ensures loaded == AllKept(lists)
  {
    var f := new DbFile([]);
    SaveDatabase(f, lists, arity);
    loaded := LoadDatabase(f, arity, AllKept(lists));
  }
}
