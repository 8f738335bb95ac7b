/** The hand-written protobuf wire format of the reflection service: varints, tags,
    length-delimited and varint fields, and the reader that looks one field up. */
module ProtoWire {
  import opened Windows

  type Byte = x: int | 0 <= x < 256

  const UINT64: int := 0x1_0000_0000_0000_0000
  const INT63: int := 0x8000_0000_0000_0000 // beyond the largest int
  const FIELDS: int := 0x2000_0000_0000_0000 // 2^61 field numbers survive the tag

  // ---------------------------------------------------------------- varints

  /** Base 128, least significant digit first, a continuation bit on all but the last. */
  function Varint(v: nat): (r: seq<Byte>)
    ensures |r| >= 1
    decreases v
  {
    if v < 128 then [v] else [v % 128 + 128] + Varint(v / 128)
  }

  method AppendVarint(buf: seq<Byte>, v: nat) returns (r: seq<Byte>)
    ensures r == buf + Varint(v)
  {
    r := buf;
    var rest := v;
    while rest >= 128
      invariant r + Varint(rest) == buf + Varint(v)
      decreases rest
    {
      assert r + Varint(rest) == (r + [rest % 128 + 128]) + Varint(rest / 128);
      r := r + [rest % 128 + 128];
      rest := rest / 128;
    }
    r := r + [rest];
  }

  /** How many bytes the first varint takes; 0 if it never ends. */
  function Ends(data: seq<Byte>): (e: nat)
    ensures e <= |data|
  {
    if data == [] then 0
    else if data[0] < 128 then 1
    else if Ends(data[1..]) == 0 then 0 else Ends(data[1..]) + 1
  }

  /** The number the first n digits spell. */
  function Digits(data: seq<Byte>, n: nat): nat
    requires n <= |data|
  {
    if n == 0 then 0 else data[0] % 128 + 128 * Digits(data[1..], n - 1)
  }

  /** A varint of at most ten bytes, its value cut to 64 bits, with the bytes it took;
      (0, 0) for one that is longer or does not end. */
  function Decoded(data: seq<Byte>): (nat, nat) {
    var e := Ends(data);
    if 1 <= e <= 10 then (Digits(data, e) % UINT64, e) else (0, 0)
  }

  function Pow128(i: nat): nat {
    if i == 0 then 1 else 128 * Pow128(i - 1)
  }

  lemma Shift(d: nat, p: nat)
    ensures 128 * (d * p) == d * (128 * p)
  {
  }

  lemma {:induction false} DigitsSnoc(data: seq<Byte>, n: nat)
    requires n < |data|
    ensures Digits(data, n + 1) == Digits(data, n) + data[n] % 128 * Pow128(n)
  {
    if n > 0 {
      DigitsSnoc(data[1..], n - 1);
      Shift(data[n] % 128, Pow128(n - 1));
    }
  }

  lemma {:induction false} DigitsBound(data: seq<Byte>, n: nat)
    requires n <= |data|
    ensures Digits(data, n) < Pow128(n)
  {
    if n > 0 {
      DigitsBound(data[1..], n - 1);
    }
  }

  lemma {:induction false} EndsAt(data: seq<Byte>, i: nat)
    requires i < |data| && (forall j :: 0 <= j < i ==> data[j] >= 128) && data[i] < 128
    ensures Ends(data) == i + 1
  {
    if i > 0 {
      assert forall j :: 0 <= j < i - 1 ==> data[1..][j] == data[j + 1];
      EndsAt(data[1..], i - 1);
    }
  }

  lemma {:induction false} EndsLate(data: seq<Byte>, i: nat)
    requires i <= |data| && (forall j :: 0 <= j < i ==> data[j] >= 128)
    ensures Ends(data) == 0 || Ends(data) > i
  {
    if i > 0 {
      assert forall j :: 0 <= j < i - 1 ==> data[1..][j] == data[j + 1];
      EndsLate(data[1..], i - 1);
    }
  }

  lemma Powers()
    ensures Pow128(0) == 1 && Pow128(1) == 0x80 && Pow128(2) == 0x4000 && Pow128(3) == 0x20_0000 && Pow128(4) == 0x1000_0000
    ensures Pow128(5) == 0x8_0000_0000 && Pow128(6) == 0x400_0000_0000 && Pow128(7) == 0x2_0000_0000_0000
    ensures Pow128(8) == 0x100_0000_0000_0000 && Pow128(9) == 0x8000_0000_0000_0000 && Pow128(10) == 64 * UINT64
  {
    assert Pow128(2) == 128 * Pow128(1) && Pow128(3) == 128 * Pow128(2) && Pow128(4) == 128 * Pow128(3);
    assert Pow128(5) == 128 * Pow128(4) && Pow128(6) == 128 * Pow128(5) && Pow128(7) == 128 * Pow128(6);
    assert Pow128(8) == 128 * Pow128(7) && Pow128(9) == 128 * Pow128(8) && Pow128(10) == 128 * Pow128(9);
  }

  lemma SmallDigit(r: nat, d: nat, i: nat)
    requires i <= 8 && d < 128 && r < Pow128(i)
    ensures r + d * Pow128(i) < UINT64
  {
    Powers();
    var p := Pow128(i);
    assert d * p <= 127 * p;
    assert p <= Pow128(8);
  }

  /** The tenth digit reaches past bit 63 and is cut to one bit. */
  lemma LastDigit(r: nat, d: nat)
    requires d < 128 && r < Pow128(9)
    ensures (r + d * Pow128(9)) % UINT64 == r + d * Pow128(9) % UINT64
  {
    Powers();
    var half := d / 2;
    assert d * Pow128(9) == half * UINT64 + d % 2 * Pow128(9);
  }

  lemma SumFits(r: nat, x: nat, sum: nat)
    requires r + x == sum < UINT64
    ensures sum % UINT64 == r + x % UINT64 && sum % UINT64 == sum
  {
  }

  lemma DigitAdds(r: nat, d: nat, i: nat, sum: nat)
    requires i <= 9 && d < 128 && r < Pow128(i) && sum == r + d * Pow128(i)
    ensures sum % UINT64 == r + d * Pow128(i) % UINT64
    ensures i + 1 <= 9 ==> sum % UINT64 == sum
  {
    if i == 9 {
      LastDigit(r, d);
    } else {
      SmallDigit(r, d, i);
      SumFits(r, d * Pow128(i), sum);
    }
  }

  /** One more digit: a shift cut to 64 bits, put into bits that are still clear. */
  lemma NextDigit(data: seq<Byte>, i: nat)
    requires i <= 9 && i < |data|
    ensures Digits(data, i + 1) % UINT64 == Digits(data, i) + data[i] % 128 * Pow128(i) % UINT64
    ensures i + 1 <= 9 ==> Digits(data, i + 1) % UINT64 == Digits(data, i + 1)
  {
    DigitsSnoc(data, i);
    DigitsBound(data, i);
    DigitAdds(Digits(data, i), data[i] % 128, i, Digits(data, i + 1));
  }

  method DecodeVarint(data: seq<Byte>) returns (value: nat, consumed: nat)
    ensures (value, consumed) == Decoded(data)
  {
    var result, unit := 0, 1;
    for i := 0 to |data|
      invariant i <= 10 && unit == Pow128(i) && result == Digits(data, i) % UINT64
      invariant i <= 9 ==> result == Digits(data, i)
      invariant forall j :: 0 <= j < i ==> data[j] >= 128
    {
      if i >= 10 {
        EndsLate(data, 10);
        return 0, 0;
      }
      var b := data[i];
      NextDigit(data, i);
      result := result + b % 128 * unit % UINT64;
      if b < 128 {
        EndsAt(data, i);
        return result, i + 1;
      }
      unit := 128 * unit;
    }
    EndsLate(data, |data|);
    return 0, 0;
  }

  // ---------------------------------------------------------------- varint round trip

  lemma {:induction false} VarintLength(v: nat, k: nat)
    requires k >= 1 && v < Pow128(k)
    ensures |Varint(v)| <= k
    decreases k
  {
    if v >= 128 {
      assert k > 1;
      VarintLength(v / 128, k - 1);
    }
  }

  lemma {:induction false} VarintReads(v: nat, rest: seq<Byte>)
    ensures Ends(Varint(v) + rest) == |Varint(v)| && Digits(Varint(v) + rest, |Varint(v)|) == v
    decreases v
  {
    var data := Varint(v) + rest;
    if v < 128 {
      assert data[0] == v;
      assert Digits(data, 1) == data[0] % 128 + 128 * Digits(data[1..], 0);
    } else {
      assert data[1..] == Varint(v / 128) + rest;
      VarintReads(v / 128, rest);
    }
  }

  /** Every uint64 comes back, whatever follows it. */
  lemma VarintRoundTrip(v: nat, rest: seq<Byte>)
    requires v < UINT64
    ensures Decoded(Varint(v) + rest) == (v, |Varint(v)|)
  {
    Powers();
    VarintLength(v, 10);
    VarintReads(v, rest);
  }

  /** No value is read if and only if none of the first ten bytes ends the varint; otherwise
      the first that does is the last byte read. */
  lemma VarintRefusedIff(data: seq<Byte>)
    ensures Decoded(data).1 == 0 <==> forall i :: 0 <= i < |data| && i < 10 ==> data[i] >= 128
    ensures var n := Decoded(data).1; n > 0 ==> n <= |data| && data[n - 1] < 128 && forall i :: 0 <= i < n - 1 ==> data[i] >= 128
  {
    EndsFirst(data);
  }

  lemma {:induction false} EndsFirst(data: seq<Byte>)
    ensures Ends(data) == 0 ==> forall i :: 0 <= i < |data| ==> data[i] >= 128
    ensures var n := Ends(data); n > 0 ==> data[n - 1] < 128 && forall i :: 0 <= i < n - 1 ==> data[i] >= 128
  {
    if data != [] && data[0] >= 128 {
      EndsFirst(data[1..]);
      assert forall i :: 0 < i < |data| ==> data[i] == data[1..][i - 1];
    }
  }

  // ---------------------------------------------------------------- fields

  /** The calls that build a message: strings, bytes and nested messages all go in
      with a length, numbers as varints. Fixed: what other writers may put in between, four
      or eight bytes as they are. */
  datatype Field = Len(number: int, body: seq<Byte>) | Num(number: int, value: nat) | Fixed(number: int, bytes: seq<Byte>)

  /** Go ints are 64 bits wide, and so are lengths and values. */
  predicate Fits(f: Field) {
    && -INT63 <= f.number < INT63
    && match f
       case Len(_, body) => |body| < INT63
       case Num(_, value) => value < UINT64
       case Fixed(_, bytes) => |bytes| == 4 || |bytes| == 8
  }

  /** uint64(fieldNum) << 3 | wireType. */
  function Tag(number: int, wireType: nat): nat
    requires wireType < 8
  {
    number % UINT64 * 8 % UINT64 + wireType
  }

  /** The field number a reader sees. */
  function Wire(number: int): nat { number % FIELDS }

  /** The tag keeps the number if and only if it is one of the first 2^61. */
  lemma TagRoundTrip(number: int, wireType: nat)
    requires wireType < 8
    ensures Tag(number, wireType) < UINT64
    ensures Tag(number, wireType) / 8 == Wire(number) && Tag(number, wireType) % 8 == wireType
    ensures Wire(number) == number <==> 0 <= number < FIELDS
  {
    var u := number % UINT64;
    assert number % FIELDS == u % FIELDS;
    assert u * 8 % UINT64 == u % FIELDS * 8;
  }

  function Encoded(f: Field): seq<Byte> {
    match f
    case Len(n, body) => Varint(Tag(n, 2)) + Varint(|body|) + body
    case Num(n, v) => Varint(Tag(n, 0)) + Varint(v)
    case Fixed(n, bytes) => Varint(Tag(n, FixedType(bytes))) + bytes
  }

  function FixedType(bytes: seq<Byte>): nat { if |bytes| == 8 then 1 else 5 }

  method AppendTag(buf: seq<Byte>, number: int, wireType: nat) returns (r: seq<Byte>)
    requires wireType < 8
    ensures r == buf + Varint(Tag(number, wireType))
  {
    r := AppendVarint(buf, number % UINT64 * 8 % UINT64 + wireType);
  }

  /** appendStringField, appendBytesField and appendMessageField. */
  method AppendLenField(buf: seq<Byte>, number: int, body: seq<Byte>) returns (r: seq<Byte>)
    ensures r == buf + Encoded(Len(number, body))
  {
    ghost var tag, length := Varint(Tag(number, 2)), Varint(|body|);
    r := AppendTag(buf, number, 2);
    r := AppendVarint(r, |body|);
    r := r + body;
    assert ((buf + tag) + length) + body == buf + (tag + length + body);
  }

  method AppendVarintField(buf: seq<Byte>, number: int, v: nat) returns (r: seq<Byte>)
    ensures r == buf + Encoded(Num(number, v))
  {
    ghost var tag, value := Varint(Tag(number, 0)), Varint(v);
    r := AppendTag(buf, number, 0);
    r := AppendVarint(r, v);
    assert (buf + tag) + value == buf + (tag + value);
  }

  // ---------------------------------------------------------------- skipping

  /** Where the field after the tag ends, if that can be told. */
  function Skipped(data: seq<Byte>, wireType: nat): Option<nat> {
    if wireType == 0 then if Ends(data) == 0 then None else Some(Ends(data))
    else if wireType == 1 then Some(8)
    else if wireType == 5 then Some(4)
    else if wireType == 2 then
      var (length, n) := Decoded(data);
      if n == 0 || length >= INT63 || n + length > |data| then None else Some(n + length)
    else None
  }

  /** A 64-bit int. */
  function Int64(x: int): (r: int)
    ensures -INT63 <= r < INT63
    ensures -INT63 <= x < INT63 ==> r == x
    ensures INT63 <= x < INT63 + UINT64 ==> r == x - UINT64
  {
    (x + INT63) % UINT64 - INT63
  }

  /** skipField: the end of the field where it can be told. Otherwise a negative number,
      except that a length of 2^63 or more turns negative and may lead back. */
  method SkipField(data: seq<Byte>, pos: nat, wireType: nat) returns (r: int)
    requires pos <= |data| < INT63
    ensures Skipped(data[pos..], wireType).Some? ==> r == pos + Skipped(data[pos..], wireType).value
    ensures Skipped(data[pos..], wireType).None? && r >= 0 ==>
      wireType == 2 && Decoded(data[pos..]).0 >= INT63 && r == pos + Decoded(data[pos..]).1 + Decoded(data[pos..]).0 - UINT64
  {
    if wireType == 0 {
      var p := pos;
      while p < |data|
        invariant pos <= p <= |data| && (forall j :: 0 <= j < p - pos ==> data[pos..][j] >= 128)
      {
        if data[p] < 128 {
          EndsAt(data[pos..], p - pos);
          return p + 1;
        }
        p := p + 1;
      }
      EndsLate(data[pos..], |data| - pos);
      return -1;
    } else if wireType == 2 {
      var length, n := DecodeVarint(data[pos..]);
      if n == 0 {
        return -1;
      }
      var end := Int64(pos + n + length);
      return if end > |data| then -1 else end;
    } else if wireType == 1 {
      return pos + 8;
    } else if wireType == 5 {
      return pos + 4;
    }
    return -1;
  }

  // ---------------------------------------------------------------- looking a field up

  /** Overrun: the source slices out of range or steps backwards. */
  datatype Extracted = Text(value: seq<Byte>) | Overrun

  /** What reading one field comes to: an answer, or where to go on. */
  datatype Read = Done(r: Extracted) | Pass(next: nat)

  /** A length-delimited field from its length on. */
  function ReadLen(data: seq<Byte>, pos: nat, wanted: bool): (r: Read)
    requires pos <= |data|
    ensures r.Pass? ==> r.next > pos
  {
    var (length, m) := Decoded(data[pos..]);
    var start := pos + m;
    if m == 0 then Done(Text([]))
    else if wanted then Done(if start + length <= |data| then Text(data[start..start + length]) else Overrun)
    else if start + length < INT63 then Pass(start + length)
    else Done(Overrun)
  }

  function ReadOther(data: seq<Byte>, pos: nat, wireType: nat): (r: Read)
    requires pos <= |data|
    ensures r.Pass? ==> r.next >= pos
  {
    var n := Skipped(data[pos..], wireType);
    if n.None? then Done(Text([])) else Pass(pos + n.value)
  }

  function ReadField(data: seq<Byte>, pos: nat, number: int): (r: Read)
    requires pos <= |data|
    ensures r.Pass? ==> r.next > pos
  {
    var (tag, k) := Decoded(data[pos..]);
    if k == 0 then Done(Text([]))
    else if tag % 8 == 2 then ReadLen(data, pos + k, tag / 8 == number)
    else ReadOther(data, pos + k, tag % 8)
  }

  function Reader(data: seq<Byte>, number: int): nat -> Read {
    (pos: nat) => if pos <= |data| then ReadField(data, pos, number) else Done(Text([]))
  }

  /** A walk over fields that only goes forward; it ends where the data does. */
  function Walk(read: nat -> Read, len: nat, pos: nat): Extracted
    decreases len - pos
  {
    if pos >= len then Text([])
    else
      match read(pos)
      case Done(r) => r
      case Pass(next) => if next > pos then Walk(read, len, next) else Overrun
  }

  /** The first length-delimited field with the number, "" if there is none. */
  function Extract(data: seq<Byte>, number: int): Extracted { Walk(Reader(data, number), |data|, 0) }

  method ReadLenAt(data: seq<Byte>, pos: nat, wanted: bool) returns (r: Read)
    requires pos <= |data| < INT63
    ensures r == ReadLen(data, pos, wanted)
  {
    var length, m := DecodeVarint(data[pos..]);
    if m == 0 {
      return Done(Text([]));
    }
    var start := pos + m;
    var end := Int64(start + length);
    if wanted {
      return Done(if start <= end <= |data| then Text(data[start..end]) else Overrun);
    }
    return if end < start then Done(Overrun) else Pass(end);
  }

  /** One turn of the loop; a break is an empty answer. */
  method ReadFieldAt(data: seq<Byte>, pos: nat, number: int) returns (r: Read)
    requires pos <= |data| < INT63
    ensures r == ReadField(data, pos, number)
  {
    var tag, k := DecodeVarint(data[pos..]);
    if k == 0 {
      return Done(Text([]));
    }
    if tag % 8 == 2 {
      r := ReadLenAt(data, pos + k, tag / 8 == number);
    } else {
      var next := SkipField(data, pos + k, tag % 8);
      r := if next < 0 then Done(Text([])) else Pass(next);
    }
  }

  method ExtractStringField(data: seq<Byte>, number: int) returns (r: Extracted)
    requires |data| < INT63
    ensures r == Extract(data, number)
  {
    ghost var read := Reader(data, number);
    var pos := 0;
    while pos < |data|
      invariant Walk(read, |data|, pos) == Extract(data, number)
      decreases |data| - pos
    {
      var field := ReadFieldAt(data, pos, number);
      if field.Done? {
        return field.r;
      }
      pos := field.next;
    }
    return Text([]);
  }

  // ---------------------------------------------------------------- which bytes are out of range

  /** The walk gets to a field at position `at`. */
  predicate Meets(read: nat -> Read, len: nat, pos: nat, at: nat)
    decreases len - pos
  {
    pos < len && (pos == at || (read(pos).Pass? && read(pos).next > pos && Meets(read, len, read(pos).next, at)))
  }

  predicate Stuck(r: Read, pos: nat) { r == Done(Overrun) || (r.Pass? && r.next <= pos) }

  lemma {:induction false} WalkStuckIff(read: nat -> Read, len: nat, pos: nat)
    ensures Walk(read, len, pos).Overrun? <==> exists at: nat :: Meets(read, len, pos, at) && Stuck(read(at), at)
    decreases len - pos
  {
    if pos < len {
      assert Meets(read, len, pos, pos);
      if read(pos).Pass? && read(pos).next > pos {
        var next := read(pos).next;
        WalkStuckIff(read, len, next);
        if Walk(read, len, next).Overrun? {
          var at: nat :| Meets(read, len, next, at) && Stuck(read(at), at);
          assert Meets(read, len, pos, at);
        }
      }
    }
  }

  lemma {:induction false} MeetsInside(read: nat -> Read, len: nat, pos: nat, at: nat)
    requires Meets(read, len, pos, at)
    ensures at < len
    decreases len - pos
  {
    if pos != at {
      MeetsInside(read, len, read(pos).next, at);
    }
  }

  /** There is a length there that the reader cannot take: more than the data holds, if
      it wants the field, and past the largest position, if it does not. */
  predicate OutOfRange(data: seq<Byte>, at: nat, number: int)
    requires at <= |data|
  {
    var (tag, k) := Decoded(data[at..]);
    k > 0 && tag % 8 == 2 &&
    var (length, m) := Decoded(data[at + k..]);
    m > 0 && at + k + m + length >= if tag / 8 == number then |data| + 1 else INT63
  }

  lemma OutOfRangeIsStuck(data: seq<Byte>, at: nat, number: int)
    requires at <= |data|
    ensures OutOfRange(data, at, number) <==> Stuck(Reader(data, number)(at), at)
  {
  }

  /** On which bytes the reader answers: it slices out of range or steps backwards if
      and only if it meets a field whose length it cannot take. */
  lemma OverrunIff(data: seq<Byte>, number: int)
    ensures Extract(data, number).Overrun? <==>
              exists at: nat :: at < |data| && Meets(Reader(data, number), |data|, 0, at) && OutOfRange(data, at, number)
  {
    var read := Reader(data, number);
    WalkStuckIff(read, |data|, 0);
    forall at: nat | Meets(read, |data|, 0, at)
      ensures at < |data| && (OutOfRange(data, at, number) <==> Stuck(read(at), at))
    {
      MeetsInside(read, |data|, 0, at);
      OutOfRangeIsStuck(data, at, number);
    }
  }

  /** Field 1 with a length of 5 and nothing after it. */
  lemma TruncatedFieldOverruns()
    ensures Extract([10, 5], 1) == Overrun
  {
    var data: seq<Byte> := [10, 5];
    assert data[0..] == data && Digits(data, 1) == 10 % 128 + 128 * Digits(data[1..], 0);
    assert Decoded(data) == (10, 1);
    assert data[1..] == [5] && Digits([5], 1) == 5 % 128 + 128 * Digits([5][1..], 0);
    assert Decoded(data[1..]) == (5, 1);
    assert Reader(data, 1)(0) == ReadField(data, 0, 1) == Done(Overrun);
  }

  // ---------------------------------------------------------------- round trip

  function Message(fields: seq<Field>): seq<Byte> {
    if fields == [] then [] else Encoded(fields[0]) + Message(fields[1..])
  }

  predicate Matches(f: Field, number: int) { f.Len? && Wire(f.number) == number }

  /** The body of the first length-delimited field a reader sees under the number. */
  function FirstBody(fields: seq<Field>, number: int): seq<Byte> {
    if fields == [] then []
    else if Matches(fields[0], number) then fields[0].body
    else FirstBody(fields[1..], number)
  }

  lemma Grouped(a: seq<Byte>, b: seq<Byte>, c: seq<Byte>, d: seq<Byte>)
    ensures (a + b + c) + d == a + (b + (c + d)) && (a + b) + d == a + (b + d) && |a + b + c| == |a| + |b| + |c|
  {
  }

  lemma TagReads(data: seq<Byte>, pos: nat, number: int, wireType: nat, tail: seq<Byte>)
    requires pos <= |data| && wireType < 8 && data[pos..] == Varint(Tag(number, wireType)) + tail
    ensures Decoded(data[pos..]) == (Tag(number, wireType), |Varint(Tag(number, wireType))|)
    ensures pos + |Varint(Tag(number, wireType))| <= |data| && data[pos + |Varint(Tag(number, wireType))|..] == tail
  {
    TagRoundTrip(number, wireType);
    VarintRoundTrip(Tag(number, wireType), tail);
    assert data[pos..][|Varint(Tag(number, wireType))|..] == tail;
  }

  lemma LenReads(data: seq<Byte>, pos: nat, body: seq<Byte>, rest: seq<Byte>, wanted: bool)
    requires pos <= |data| < INT63 && data[pos..] == Varint(|body|) + (body + rest)
    ensures ReadLen(data, pos, wanted) == if wanted then Done(Text(body)) else Pass(pos + |Varint(|body|)| + |body|)
  {
    VarintRoundTrip(|body|, body + rest);
    var m := |Varint(|body|)|;
    assert data[pos..][m..m + |body|] == body;
    assert data[pos + m..pos + m + |body|] == data[pos..][m..m + |body|];
  }

  lemma LenFieldReads(data: seq<Byte>, pos: nat, number: int, tag: nat, k: nat, body: seq<Byte>, rest: seq<Byte>)
    requires pos + k <= |data| < INT63 && Decoded(data[pos..]) == (tag, k) && k > 0 && tag % 8 == 2
    requires data[pos + k..] == Varint(|body|) + (body + rest)
    ensures ReadField(data, pos, number) ==
              if tag / 8 == number then Done(Text(body)) else Pass(pos + k + |Varint(|body|)| + |body|)
  {
    LenReads(data, pos + k, body, rest, tag / 8 == number);
  }

  lemma LenStep(data: seq<Byte>, pos: nat, f: Field, rest: seq<Byte>, number: int)
    requires f.Len? && Fits(f) && pos <= |data| < INT63 && data[pos..] == Encoded(f) + rest
    ensures ReadField(data, pos, number) == if Matches(f, number) then Done(Text(f.body)) else Pass(pos + |Encoded(f)|)
  {
    var tag, tail := Tag(f.number, 2), Varint(|f.body|) + (f.body + rest);
    Grouped(Varint(tag), Varint(|f.body|), f.body, rest);
    TagRoundTrip(f.number, 2);
    TagReads(data, pos, f.number, 2, tail);
    LenFieldReads(data, pos, number, tag, |Varint(tag)|, f.body, rest);
  }

  lemma NumFieldReads(data: seq<Byte>, pos: nat, number: int, tag: nat, k: nat, value: nat, rest: seq<Byte>)
    requires pos + k <= |data| && Decoded(data[pos..]) == (tag, k) && k > 0 && tag % 8 == 0
    requires data[pos + k..] == Varint(value) + rest
    ensures ReadField(data, pos, number) == Pass(pos + k + |Varint(value)|)
  {
    VarintReads(value, rest);
  }

  lemma NumStep(data: seq<Byte>, pos: nat, f: Field, rest: seq<Byte>, number: int)
    requires f.Num? && Fits(f) && pos <= |data| && data[pos..] == Encoded(f) + rest
    ensures ReadField(data, pos, number) == Pass(pos + |Encoded(f)|)
  {
    var tag, tail := Tag(f.number, 0), Varint(f.value) + rest;
    Grouped(Varint(tag), Varint(f.value), [], rest);
    TagRoundTrip(f.number, 0);
    TagReads(data, pos, f.number, 0, tail);
    NumFieldReads(data, pos, number, tag, |Varint(tag)|, f.value, rest);
  }

  lemma FixedFieldReads(data: seq<Byte>, pos: nat, number: int, tag: nat, k: nat)
    requires pos + k <= |data| && Decoded(data[pos..]) == (tag, k) && k > 0 && (tag % 8 == 1 || tag % 8 == 5)
    ensures ReadField(data, pos, number) == Pass(pos + k + if tag % 8 == 1 then 8 else 4)
  {
  }

  lemma FixedStep(data: seq<Byte>, pos: nat, f: Field, rest: seq<Byte>, number: int)
    requires f.Fixed? && Fits(f) && pos <= |data| && data[pos..] == Encoded(f) + rest
    ensures ReadField(data, pos, number) == Pass(pos + |Encoded(f)|)
  {
    var wireType := FixedType(f.bytes);
    var tag, tail := Tag(f.number, wireType), f.bytes + rest;
    Grouped(Varint(tag), f.bytes, [], rest);
    TagRoundTrip(f.number, wireType);
    TagReads(data, pos, f.number, wireType, tail);
    FixedFieldReads(data, pos, number, tag, |Varint(tag)|);
  }

  lemma FieldStep(data: seq<Byte>, pos: nat, f: Field, rest: seq<Byte>, number: int) returns (next: nat)
    requires Fits(f) && pos <= |data| < INT63 && data[pos..] == Encoded(f) + rest
    ensures pos < next <= |data| && data[next..] == rest
    ensures ReadField(data, pos, number) == if Matches(f, number) then Done(Text(f.body)) else Pass(next)
  {
    next := pos + |Encoded(f)|;
    assert data[pos..][|Encoded(f)|..] == rest;
    if f.Len? {
      LenStep(data, pos, f, rest, number);
    } else if f.Num? {
      NumStep(data, pos, f, rest, number);
    } else {
      FixedStep(data, pos, f, rest, number);
    }
  }

  predicate AllFit(fields: seq<Field>) { fields == [] || (Fits(fields[0]) && AllFit(fields[1..])) }

  lemma {:induction false} EachFits(fields: seq<Field>)
    requires forall i :: 0 <= i < |fields| ==> Fits(fields[i])
    ensures AllFit(fields)
  {
    if fields != [] {
      EachFits(fields[1..]);
    }
  }

  /** From pos on the walk sees these fields, up to the first that matches. */
  predicate Sees(read: nat -> Read, len: nat, pos: nat, fields: seq<Field>, number: int)
    decreases |fields|
  {
    if fields == [] then pos == len
    else if Matches(fields[0], number) then pos < len && read(pos) == Done(Text(fields[0].body))
    else pos < len && read(pos).Pass? && read(pos).next > pos && Sees(read, len, read(pos).next, fields[1..], number)
  }

  lemma {:induction false} SeenIsFound(read: nat -> Read, len: nat, pos: nat, fields: seq<Field>, number: int)
    requires Sees(read, len, pos, fields, number)
    ensures Walk(read, len, pos) == Text(FirstBody(fields, number))
    decreases |fields|
  {
    if fields != [] && !Matches(fields[0], number) {
      SeenIsFound(read, len, read(pos).next, fields[1..], number);
    }
  }

  lemma {:induction false} SeesMessage(data: seq<Byte>, read: nat -> Read, pos: nat, fields: seq<Field>, number: int)
    requires AllFit(fields) && pos <= |data| < INT63 && data[pos..] == Message(fields) && read == Reader(data, number)
    ensures Sees(read, |data|, pos, fields, number)
    decreases |fields|
  {
    if fields != [] {
      var next := FieldStep(data, pos, fields[0], Message(fields[1..]), number);
      assert read(pos) == ReadField(data, pos, number);
      SeesMessage(data, read, next, fields[1..], number);
    }
  }

  /** Writer and reader undo each other: from any message built by any calls, the
      reader gets the first length-delimited value with the number, or "". */
  lemma ExtractFinds(fields: seq<Field>, number: int)
    requires (forall i :: 0 <= i < |fields| ==> Fits(fields[i])) && |Message(fields)| < INT63
    ensures Extract(Message(fields), number) == Text(FirstBody(fields, number))
  {
    EachFits(fields);
    assert Message(fields)[0..] == Message(fields);
    SeesMessage(Message(fields), Reader(Message(fields), number), 0, fields, number);
    SeenIsFound(Reader(Message(fields), number), |Message(fields)|, 0, fields, number);
  }

  /** For numbers that survive the tag, "with the number" means just that. */
  lemma {:induction false} ExtractFindsNumber(fields: seq<Field>, number: int, k: nat)
    requires (forall i :: 0 <= i < |fields| ==> Fits(fields[i]) && 0 <= fields[i].number < FIELDS) && |Message(fields)| < INT63
    requires k < |fields| && fields[k].Len? && fields[k].number == number
    requires forall i :: 0 <= i < k ==> !(fields[i].Len? && fields[i].number == number)
    ensures Extract(Message(fields), number) == Text(fields[k].body)
  {
    ExtractFinds(fields, number);
    FirstBodyAt(fields, number, k);
  }

  lemma {:induction false} FirstBodyAt(fields: seq<Field>, number: int, k: nat)
    requires forall i :: 0 <= i < |fields| ==> 0 <= fields[i].number < FIELDS
    requires k < |fields| && fields[k].Len? && fields[k].number == number
    requires forall i :: 0 <= i < k ==> !(fields[i].Len? && fields[i].number == number)
    ensures FirstBody(fields, number) == fields[k].body
  {
    if k > 0 {
      FirstBodyAt(fields[1..], number, k - 1);
    }
  }

  // ---------------------------------------------------------------- every field

  /** The first field of some bytes, with its wire number, and the bytes it takes. */
  function FirstField(data: seq<Byte>): Option<(Field, nat)> {
    var (tag, k) := Decoded(data);
    if k == 0 then None
    else if tag % 8 == 0 then FirstNum(data, tag / 8, k)
    else if tag % 8 == 2 then FirstLen(data, tag / 8, k)
    else if tag % 8 == 1 then FirstFixed(data, tag / 8, k, 8)
    else if tag % 8 == 5 then FirstFixed(data, tag / 8, k, 4)
    else None
  }

  function FirstFixed(data: seq<Byte>, number: nat, k: nat, width: nat): Option<(Field, nat)> {
    if k + width > |data| then None else Some((Fixed(number, data[k..k + width]), k + width))
  }

  function FirstNum(data: seq<Byte>, number: nat, k: nat): Option<(Field, nat)> {
    if k > |data| then None
    else
      var (v, m) := Decoded(data[k..]);
      if m == 0 then None else Some((Num(number, v), k + m))
  }

  function FirstLen(data: seq<Byte>, number: nat, k: nat): Option<(Field, nat)> {
    if k > |data| then None
    else
      var (n, m) := Decoded(data[k..]);
      if m == 0 || k + m + n > |data| then None else Some((Len(number, data[k + m..k + m + n]), k + m + n))
  }

  /** A reader of whole messages: the fields, or nothing if the bytes are no message. */
  function Parsed(data: seq<Byte>, first: seq<Byte> -> Option<(Field, nat)>): Option<seq<Field>>
    decreases |data|
  {
    if data == [] then Some([])
    else if first(data).None? || !(0 < first(data).value.1 <= |data|) then None
    else
      var rest := Parsed(data[first(data).value.1..], first);
      if rest.None? then None else Some([first(data).value.0] + rest.value)
  }

  const FIRST: seq<Byte> -> Option<(Field, nat)> := data => FirstField(data)

  /** The field as its number arrives. */
  function Renumbered(f: Field): Field { f.(number := Wire(f.number)) }

  function AllRenumbered(fields: seq<Field>): seq<Field> {
    if fields == [] then [] else [Renumbered(fields[0])] + AllRenumbered(fields[1..])
  }

  lemma FirstNumReads(data: seq<Byte>, number: nat, k: nat, value: nat, rest: seq<Byte>)
    requires k <= |data| && value < UINT64 && data[k..] == Varint(value) + rest
    ensures FirstNum(data, number, k) == Some((Num(number, value), k + |Varint(value)|))
  {
    VarintRoundTrip(value, rest);
  }

  lemma FirstLenReads(data: seq<Byte>, number: nat, k: nat, body: seq<Byte>, rest: seq<Byte>)
    requires k <= |data| && |body| < INT63 && data[k..] == Varint(|body|) + (body + rest)
    ensures FirstLen(data, number, k) == Some((Len(number, body), k + |Varint(|body|)| + |body|))
  {
    VarintRoundTrip(|body|, body + rest);
    var m := |Varint(|body|)|;
    assert data[k..][m..m + |body|] == body;
    assert data[k + m..k + m + |body|] == data[k..][m..m + |body|];
  }

  lemma FirstFieldIs(data: seq<Byte>, tag: nat, k: nat)
    requires Decoded(data) == (tag, k) && k > 0
    ensures tag % 8 == 0 ==> FirstField(data) == FirstNum(data, tag / 8, k)
    ensures tag % 8 == 2 ==> FirstField(data) == FirstLen(data, tag / 8, k)
    ensures tag % 8 == 1 ==> FirstField(data) == FirstFixed(data, tag / 8, k, 8)
    ensures tag % 8 == 5 ==> FirstField(data) == FirstFixed(data, tag / 8, k, 4)
  {
  }

  lemma TagFirst(data: seq<Byte>, number: int, wireType: nat, tail: seq<Byte>)
    requires (wireType == 0 || wireType == 1 || wireType == 2 || wireType == 5) && data == Varint(Tag(number, wireType)) + tail
    ensures var k := |Varint(Tag(number, wireType))|;
      && k <= |data| && data[k..] == tail
      && FirstField(data) == (if wireType == 0 then FirstNum(data, Wire(number), k) else if wireType == 2 then FirstLen(data, Wire(number), k)
                              else FirstFixed(data, Wire(number), k, if wireType == 1 then 8 else 4))
  {
    TagRoundTrip(number, wireType);
    assert data[0..] == data;
    TagReads(data, 0, number, wireType, tail);
    FirstFieldIs(data, Tag(number, wireType), |Varint(Tag(number, wireType))|);
  }

  lemma NumRoundTrip(data: seq<Byte>, number: int, value: nat, rest: seq<Byte>)
    requires value < UINT64 && data == Varint(Tag(number, 0)) + (Varint(value) + rest)
    ensures FirstField(data) == Some((Num(Wire(number), value), |Varint(Tag(number, 0))| + |Varint(value)|))
  {
    TagFirst(data, number, 0, Varint(value) + rest);
    FirstNumReads(data, Wire(number), |Varint(Tag(number, 0))|, value, rest);
  }

  lemma LenRoundTrip(data: seq<Byte>, number: int, body: seq<Byte>, rest: seq<Byte>)
    requires |body| < INT63 && data == Varint(Tag(number, 2)) + (Varint(|body|) + (body + rest))
    ensures FirstField(data) == Some((Len(Wire(number), body), |Varint(Tag(number, 2))| + |Varint(|body|)| + |body|))
  {
    TagFirst(data, number, 2, Varint(|body|) + (body + rest));
    FirstLenReads(data, Wire(number), |Varint(Tag(number, 2))|, body, rest);
  }

  lemma FixedRoundTrip(data: seq<Byte>, number: int, bytes: seq<Byte>, rest: seq<Byte>)
    requires (|bytes| == 4 || |bytes| == 8) && data == Varint(Tag(number, FixedType(bytes))) + (bytes + rest)
    ensures FirstField(data) == Some((Fixed(Wire(number), bytes), |Varint(Tag(number, FixedType(bytes)))| + |bytes|))
  {
    TagFirst(data, number, FixedType(bytes), bytes + rest);
    var k := |Varint(Tag(number, FixedType(bytes)))|;
    assert data[k..][..|bytes|] == bytes && data[k..k + |bytes|] == data[k..][..|bytes|];
  }

  /** A written field is read back, whatever follows. */
  lemma FieldRoundTrip(f: Field, rest: seq<Byte>)
    requires Fits(f)
    ensures FirstField(Encoded(f) + rest) == Some((Renumbered(f), |Encoded(f)|))
  {
    if f.Len? {
      Grouped(Varint(Tag(f.number, 2)), Varint(|f.body|), f.body, rest);
      LenRoundTrip(Encoded(f) + rest, f.number, f.body, rest);
    } else if f.Num? {
      Grouped(Varint(Tag(f.number, 0)), Varint(f.value), [], rest);
      NumRoundTrip(Encoded(f) + rest, f.number, f.value, rest);
    } else {
      Grouped(Varint(Tag(f.number, FixedType(f.bytes))), f.bytes, [], rest);
      FixedRoundTrip(Encoded(f) + rest, f.number, f.bytes, rest);
    }
  }

  lemma ParsedCons(code: seq<Byte>, rest: seq<Byte>, f: Field, first: seq<Byte> -> Option<(Field, nat)>)
    requires code != [] && first(code + rest) == Some((f, |code|)) && Parsed(rest, first).Some?
    ensures Parsed(code + rest, first) == Some([f] + Parsed(rest, first).value)
  {
    assert (code + rest)[|code|..] == rest;
  }

  /** Any calls build a message that reads back as exactly those fields, in order: the
      values of numbers, the bytes of bodies, and the numbers as far as a tag keeps them. */
  lemma {:induction false} MessageRoundTrip(fields: seq<Field>)
    requires forall i :: 0 <= i < |fields| ==> Fits(fields[i])
    ensures Parsed(Message(fields), FIRST) == Some(AllRenumbered(fields))
  {
    if fields != [] {
      MessageRoundTrip(fields[1..]);
      FieldRoundTrip(fields[0], Message(fields[1..]));
      ParsedCons(Encoded(fields[0]), Message(fields[1..]), Renumbered(fields[0]), FIRST);
    }
  }
}
