/** The CDR decoder of pkg/mcap_ros2 against an encoder written from the transfer syntax (section 15.3
    of CORBA 3.0.3, CDR Transfer Syntax).

    `DecodeMessage` and the functions under it specify CdrReader and readComplexType; the class and
    the methods at the end run them on a moving offset. A read that the code answers with an error
    or cannot finish inside the data is `Failed`. Floats are their bit patterns. */
module Cdr {
  import opened Wrappers

  type byte = x: int | 0 <= x < 256

  datatype Primitive = Bool | Uint8 | Int8 | Uint16 | Int16 | Uint32 | Int32 | Uint64 | Int64 | Float32 | Float64 | String

  datatype Shape = One | Fixed(length: nat) | Unbounded

  datatype Type = Prim(primitive: Primitive) | Message(fields: seq<Field>)

  datatype Field = Field(name: string, typ: Type, shape: Shape)

  datatype Value =
    | Truth(truth: bool)
    | Number(number: int)
    | Text(text: seq<byte>)
    | List(items: seq<Value>)
    | Record(entries: seq<Entry>)

  datatype Entry = Entry(name: string, value: Value)

  const MAX_UINT32 := 0xFFFF_FFFF

  predicate IsWidth(size: nat) {
    size == 1 || size == 2 || size == 4 || size == 8
  }

  // ---------- Values of a type ----------

  predicate FitsPrimitive(p: Primitive, v: Value) {
    match p
    case Bool => v.Truth?
    case String => v.Text? && |v.text| < MAX_UINT32
    case Uint8 => v.Number? && 0 <= v.number < 0x100
    case Int8 => v.Number? && -0x80 <= v.number < 0x80
    case Uint16 => v.Number? && 0 <= v.number < 0x1_0000
    case Int16 => v.Number? && -0x8000 <= v.number < 0x8000
    case Uint32 | Float32 => v.Number? && 0 <= v.number < 0x1_0000_0000
    case Int32 => v.Number? && -0x8000_0000 <= v.number < 0x8000_0000
    case Uint64 | Float64 => v.Number? && 0 <= v.number < 0x1_0000_0000_0000_0000
    case Int64 => v.Number? && -0x8000_0000_0000_0000 <= v.number < 0x8000_0000_0000_0000
  }

  predicate Fits(t: Type, v: Value)
    decreases t, 0
  {
    match t
    case Prim(p) => FitsPrimitive(p, v)
    case Message(fields) => v.Record? && FitsFields(fields, v.entries)
  }

  predicate FitsFields(fields: seq<Field>, entries: seq<Entry>)
    decreases fields, 1
  {
    if fields == [] then entries == []
    else
      && entries != []
      && entries[0].name == fields[0].name
      && FitsField(fields[0], entries[0].value)
      && FitsFields(fields[1..], entries[1..])
  }

  predicate FitsField(f: Field, v: Value)
    decreases f, 2
  {
    match f.shape
    case One => Fits(f.typ, v)
    case Fixed(n) => v.List? && |v.items| == n && FitsAll(f.typ, v.items)
    case Unbounded => v.List? && |v.items| <= MAX_UINT32 && FitsAll(f.typ, v.items)
  }

  predicate FitsAll(t: Type, items: seq<Value>)
    decreases t, 1, |items|
  {
    items == [] || (Fits(t, items[0]) && FitsAll(t, items[1..]))
  }

  // ---------- The transfer syntax ----------

  /** The choices a writer has: the byte order, what padding holds, and an empty string's length
      with or without its terminator. */
  datatype Writer = Writer(little: bool, pad: byte, bareEmpty: bool)

  function LittleBytes(n: nat, size: nat): (r: seq<byte>)
    ensures |r| == size
  {
    if size == 0 then [] else [n % 256] + LittleBytes(n / 256, size - 1)
  }

  function BigBytes(n: nat, size: nat): (r: seq<byte>)
    ensures |r| == size
  {
    if size == 0 then [] else BigBytes(n / 256, size - 1) + [n % 256]
  }

  function Bytes(w: Writer, n: nat, size: nat): (r: seq<byte>)
    ensures |r| == size
  {
    if w.little then LittleBytes(n, size) else BigBytes(n, size)
  }

  /** Up to the next multiple of `size` from the start of the stream. */
  function Padding(w: Writer, pos: nat, size: nat): (r: seq<byte>)
    requires IsWidth(size)
    ensures |r| < size && (pos + |r|) % size == 0
  {
    PaddingFits(pos, size);
    seq((size - pos % size) % size, _ => w.pad)
  }

  lemma {:induction false} PaddingFits(pos: nat, size: nat)
    requires IsWidth(size)
    ensures (pos + (size - pos % size) % size) % size == 0
  {
    if size == 1 || size == 2 {
    } else if size == 4 {
    } else {
    }
  }

  function EncodeWord(w: Writer, n: nat, size: nat, pos: nat): seq<byte>
    requires IsWidth(size)
  {
    Padding(w, pos, size) + Bytes(w, n, size)
  }

  /** Two's complement among `words` values. */
  function Complement(n: int, words: int): int {
    if n < 0 then n + words else n
  }

  function EncodePrimitive(w: Writer, p: Primitive, v: Value, pos: nat): seq<byte>
    requires FitsPrimitive(p, v)
  {
    match p
    case Bool => [if v.truth then 1 else 0]
    case String =>
      if w.bareEmpty && v.text == [] then EncodeWord(w, 0, 4, pos)
      else EncodeWord(w, |v.text| + 1, 4, pos) + v.text + [0]
    case Uint8 => EncodeWord(w, v.number, 1, pos)
    case Int8 => EncodeWord(w, Complement(v.number, 0x100), 1, pos)
    case Uint16 => EncodeWord(w, v.number, 2, pos)
    case Int16 => EncodeWord(w, Complement(v.number, 0x1_0000), 2, pos)
    case Uint32 | Float32 => EncodeWord(w, v.number, 4, pos)
    case Int32 => EncodeWord(w, Complement(v.number, 0x1_0000_0000), 4, pos)
    case Uint64 | Float64 => EncodeWord(w, v.number, 8, pos)
    case Int64 => EncodeWord(w, Complement(v.number, 0x1_0000_0000_0000_0000), 8, pos)
  }

  function Encode(w: Writer, t: Type, v: Value, pos: nat): seq<byte>
    requires Fits(t, v)
    decreases t, 0
  {
    match t
    case Prim(p) => EncodePrimitive(w, p, v, pos)
    case Message(fields) =>
      // a structure without members has one octet
      if fields == [] then [w.pad] else EncodeFields(w, fields, v.entries, pos)
  }

  function EncodeFields(w: Writer, fields: seq<Field>, entries: seq<Entry>, pos: nat): seq<byte>
    requires FitsFields(fields, entries)
    decreases fields, 1
  {
    if fields == [] then []
    else
      var first := EncodeField(w, fields[0], entries[0].value, pos);
      first + EncodeFields(w, fields[1..], entries[1..], pos + |first|)
  }

  function EncodeField(w: Writer, f: Field, v: Value, pos: nat): seq<byte>
    requires FitsField(f, v)
    decreases f, 2
  {
    match f.shape
    case One => Encode(w, f.typ, v, pos)
    case Fixed(_) => EncodeAll(w, f.typ, v.items, pos)
    case Unbounded =>
      var length := EncodeWord(w, |v.items|, 4, pos);
      length + EncodeAll(w, f.typ, v.items, pos + |length|)
  }

  function EncodeAll(w: Writer, t: Type, items: seq<Value>, pos: nat): seq<byte>
    requires FitsAll(t, items)
    decreases t, 1, |items|
  {
    if items == [] then []
    else
      var first := Encode(w, t, items[0], pos);
      first + EncodeAll(w, t, items[1..], pos + |first|)
  }

  /** A whole message: the encapsulation header, then the fields aligned to its end. */
  function EncodeMessage(w: Writer, fields: seq<Field>, v: Value): (r: seq<byte>)
    requires Fits(Message(fields), v)
    ensures |r| >= 4
  {
    [0, if w.little then 1 else 0, 0, 0] + Encode(w, Message(fields), v, 0)
  }

  // ---------- The reader ----------

  datatype Outcome<T> = Done(value: T, offset: nat) | Failed

  datatype Data = Data(bytes: seq<byte>, little: bool)

  /** How many bytes the reader takes. */
  function Width(p: Primitive): (size: nat)
    ensures IsWidth(size)
  {
    match p
    case Bool | Uint8 | Int8 => 1
    case Uint16 | Int16 => 2
    case Uint32 | Int32 | Float32 | String => 4
    case Uint64 | Int64 | Float64 => 8
  }

  /** The number of values of a word of `size` bytes. */
  function Words(size: nat): (r: int)
    ensures r > 0
  {
    if size == 0 then 1 else 256 * Words(size - 1)
  }

  function Align(offset: nat, size: nat): (r: nat)
    requires offset >= 4 && size > 0
    ensures r >= offset
  {
    var alignment := (offset - 4) % size;
    if alignment > 0 then offset + size - alignment else offset
  }

  /** read: the bounds are checked before the offset is aligned. */
  function Read(d: Data, offset: nat, size: nat): (r: Outcome<seq<byte>>)
    requires offset >= 4 && size > 0
    ensures r.Done? ==> |r.value| == size && r.offset >= 4
  {
    if offset + size > |d.bytes| then Failed
    else
      var at := if size > 1 then Align(offset, size) else offset;
      if at + size > |d.bytes| then Failed else Done(d.bytes[at..at + size], at + size)
  }

  function LittleNumber(s: seq<byte>): nat {
    if s == [] then 0 else s[0] + 256 * LittleNumber(s[1..])
  }

  function BigNumber(s: seq<byte>): nat {
    if s == [] then 0 else 256 * BigNumber(s[..|s| - 1]) + s[|s| - 1]
  }

  function ReadWord(d: Data, offset: nat, size: nat): (r: Outcome<nat>)
    requires offset >= 4 && size > 0
    ensures r.Done? ==> r.offset >= 4
  {
    var bytes := Read(d, offset, size);
    if bytes.Failed? then Failed
    else Done(if d.little then LittleNumber(bytes.value) else BigNumber(bytes.value), bytes.offset)
  }

  /** uint16ToInt16 and its wider versions: the low bits less the top bit times their mask. */
  function ToSigned(u: nat, size: nat): int
    requires size > 0
  {
    var half := Words(size) / 2;
    HalfPositive(size);
    u % half - u / half * (half - 1)
  }

  lemma {:induction false} HalfPositive(size: nat)
    requires size > 0
    ensures Words(size) == 2 * (Words(size) / 2) && Words(size) / 2 > 0
  {
  }

  function ReadString(d: Data, offset: nat): (r: Outcome<Value>)
    requires offset >= 4
    ensures r.Done? ==> r.offset >= 4
  {
    var length := ReadWord(d, offset, 4);
    if length.Failed? then Failed
    else if length.value <= 1 then Done(Text([]), length.offset + length.value)
    else if length.offset + length.value - 1 > |d.bytes| then Failed
    else
      var end := length.offset + length.value - 1;
      Done(Text(d.bytes[length.offset..end]), end + 1)
  }

  function ReadPrimitive(d: Data, p: Primitive, offset: nat): (r: Outcome<Value>)
    requires offset >= 4
    ensures r.Done? ==> r.offset >= 4
  {
    if p.String? then ReadString(d, offset)
    else
      var word := ReadWord(d, offset, Width(p));
      if word.Failed? then Failed
      else Done(FromWord(p, word.value), word.offset)
  }

  function FromWord(p: Primitive, u: nat): Value {
    match p
    case Bool => Truth(u != 0)
    case Int8 => Number(if u < 128 then u else u - 256)
    case Int16 | Int32 | Int64 => Number(ToSigned(u, Width(p)))
    case _ => Number(u)
  }

  function Decode(d: Data, t: Type, offset: nat): (r: Outcome<Value>)
    requires offset >= 4
    ensures r.Done? ==> r.offset >= 4
    decreases t, 0
  {
    match t
    case Prim(p) => ReadPrimitive(d, p, offset)
    case Message(fields) =>
      if fields == [] then
        var dummy := ReadWord(d, offset, 1);
        if dummy.Failed? then Failed else Done(Record([]), dummy.offset)
      else
        var entries := DecodeFields(d, fields, offset, []);
        if entries.Failed? then Failed else Done(Record(entries.value), entries.offset)
  }

  function DecodeFields(d: Data, fields: seq<Field>, offset: nat, read: seq<Entry>): (r: Outcome<seq<Entry>>)
    requires offset >= 4
    ensures r.Done? ==> r.offset >= 4
    decreases fields, 1
  {
    if fields == [] then Done(read, offset)
    else
      var value := DecodeField(d, fields[0], offset);
      if value.Failed? then Failed
      else DecodeFields(d, fields[1..], value.offset, read + [Entry(fields[0].name, value.value)])
  }

  function DecodeField(d: Data, f: Field, offset: nat): (r: Outcome<Value>)
    requires offset >= 4
    ensures r.Done? ==> r.offset >= 4
    decreases f, 2
  {
    match f.shape
    case One => Decode(d, f.typ, offset)
    case Fixed(n) => DecodeArray(d, f.typ, n, offset)
    case Unbounded =>
      var length := ReadWord(d, offset, 4);
      if length.Failed? then Failed else DecodeArray(d, f.typ, length.value, length.offset)
  }

  /** An array of bytes is one slice, every other array is read item by item. */
  function DecodeArray(d: Data, t: Type, n: nat, offset: nat): (r: Outcome<Value>)
    requires offset >= 4
    ensures r.Done? ==> r.offset >= 4
    decreases t, 2
  {
    if t == Prim(Uint8) then
      if offset + n > |d.bytes| then Failed else Done(List(Numbers(d.bytes[offset..offset + n])), offset + n)
    else
      var items := DecodeAll(d, t, n, offset, []);
      if items.Failed? then Failed else Done(List(items.value), items.offset)
  }

  function Numbers(s: seq<byte>): (r: seq<Value>)
    ensures |r| == |s| && forall i :: 0 <= i < |s| ==> r[i] == Number(s[i])
  {
    seq(|s|, i requires 0 <= i < |s| => Number(s[i]))
  }

  function DecodeAll(d: Data, t: Type, n: nat, offset: nat, read: seq<Value>): (r: Outcome<seq<Value>>)
    requires offset >= 4
    ensures r.Done? ==> r.offset >= 4
    decreases t, 1, n
  {
    if n == 0 then Done(read, offset)
    else
      var item := Decode(d, t, offset);
      if item.Failed? then Failed else DecodeAll(d, t, n - 1, item.offset, read + [item.value])
  }

  /** ReadMessage: the second header byte tells the byte order. */
  function DecodeMessage(fields: seq<Field>, bytes: seq<byte>): Outcome<Value> {
    if |bytes| < 4 then Failed else Decode(Data(bytes, bytes[1] % 2 == 1), Message(fields), 4)
  }

  // ---------- What reading gives back ----------

  /** The value that comes back: negative integers of more than one byte are read one too high. */
  function AsReadPrimitive(p: Primitive, v: Value): Value {
    if v.Number? && v.number < 0 && !p.Int8? then Number(v.number + 1) else v
  }

  function AsRead(t: Type, v: Value): Value
    requires Fits(t, v)
    decreases t, 0
  {
    match t
    case Prim(p) => AsReadPrimitive(p, v)
    case Message(fields) => Record(AsReadFields(fields, v.entries))
  }

  function AsReadFields(fields: seq<Field>, entries: seq<Entry>): seq<Entry>
    requires FitsFields(fields, entries)
    decreases fields, 1
  {
    if fields == [] then []
    else [Entry(fields[0].name, AsReadField(fields[0], entries[0].value))] + AsReadFields(fields[1..], entries[1..])
  }

  function AsReadField(f: Field, v: Value): Value
    requires FitsField(f, v)
    decreases f, 2
  {
    if f.shape.One? then AsRead(f.typ, v) else List(AsReadAll(f.typ, v.items))
  }

  function AsReadAll(t: Type, items: seq<Value>): seq<Value>
    requires FitsAll(t, items)
    decreases t, 1, |items|
  {
    if items == [] then [] else [AsRead(t, items[0])] + AsReadAll(t, items[1..])
  }

  /** `e` is in the data at `offset`. */
  predicate Holds(d: Data, offset: nat, e: seq<byte>) {
    offset + |e| <= |d.bytes| && d.bytes[offset..offset + |e|] == e
  }

  lemma {:induction false} HoldsSplit(d: Data, offset: nat, a: seq<byte>, b: seq<byte>)
    requires Holds(d, offset, a + b)
    ensures Holds(d, offset, a) && Holds(d, offset + |a|, b)
  {
    var whole := d.bytes[offset..offset + |a + b|];
    assert whole[..|a|] == a && whole[|a|..] == b;
    assert d.bytes[offset..offset + |a|] == whole[..|a|];
    assert d.bytes[offset + |a|..offset + |a| + |b|] == whole[|a|..];
  }

  lemma {:induction false} LittleInverse(n: nat, size: nat)
    requires n < Words(size)
    ensures LittleNumber(LittleBytes(n, size)) == n
  {
    if size > 0 {
      LittleInverse(n / 256, size - 1);
      assert LittleBytes(n, size)[1..] == LittleBytes(n / 256, size - 1);
    }
  }

  lemma {:induction false} BigInverse(n: nat, size: nat)
    requires n < Words(size)
    ensures BigNumber(BigBytes(n, size)) == n
  {
    if size > 0 {
      BigInverse(n / 256, size - 1);
      assert BigBytes(n, size)[..size - 1] == BigBytes(n / 256, size - 1);
    }
  }

  /** The reader's alignment, counted from byte 4, is the writer's, counted from the end of the header. */
  lemma {:induction false} AlignPads(w: Writer, offset: nat, size: nat)
    requires offset >= 4 && IsWidth(size)
    ensures Align(offset, size) == offset + |Padding(w, offset - 4, size)|
  {
    var pos := offset - 4;
    var r := pos % size;
    if r > 0 {
      assert (size - r) % size == size - r;
    } else {
      assert (size - r) % size == 0;
    }
  }

  lemma {:induction false} WordInverse(w: Writer, d: Data, n: nat, size: nat, offset: nat)
    requires offset >= 4 && IsWidth(size) && n < Words(size) && d.little == w.little
    requires Holds(d, offset, EncodeWord(w, n, size, offset - 4))
    ensures ReadWord(d, offset, size) == Done(n, offset + |EncodeWord(w, n, size, offset - 4)|)
  {
    var pad := Padding(w, offset - 4, size);
    HoldsSplit(d, offset, pad, Bytes(w, n, size));
    AlignPads(w, offset, size);
    assert size == 1 ==> |pad| == 0;
    assert Read(d, offset, size) == Done(Bytes(w, n, size), offset + |pad| + size);
    LittleInverse(n, size);
    BigInverse(n, size);
  }

  /** The signed conversion undoes two's complement for the values that are not negative, and only those. */
  lemma {:induction false} SignedOffByOne(n: int, size: nat)
    requires size > 0 && -Words(size) <= 2 * n < Words(size)
    ensures 0 <= Complement(n, Words(size)) < Words(size)
    ensures ToSigned(Complement(n, Words(size)), size) == if n < 0 then n + 1 else n
  {
    HalfPositive(size);
    TopBit(n, Words(size) / 2);
  }

  lemma {:induction false} TopBit(n: int, half: int)
    requires -half <= n < half
    ensures var u := if n < 0 then n + 2 * half else n;
      u % half - u / half * (half - 1) == if n < 0 then n + 1 else n
  {
    if n < 0 {
      var u := n + 2 * half;
      assert u / half == 1 && u % half == u - half by {
        Divided(u - half, half);
      }
      assert 1 * (half - 1) == half - 1;
    } else {
      assert n / half == 0 && n % half == n;
    }
  }

  lemma {:induction false} Divided(low: nat, half: nat)
    requires low < half
    ensures (low + half) / half == 1 && (low + half) % half == low
  {
  }

  lemma {:induction false} StringInverse(w: Writer, d: Data, v: Value, offset: nat)
    requires offset >= 4 && FitsPrimitive(String, v) && d.little == w.little
    requires Holds(d, offset, EncodePrimitive(w, String, v, offset - 4))
    ensures ReadString(d, offset) == Done(v, offset + |EncodePrimitive(w, String, v, offset - 4)|)
  {
    if w.bareEmpty && v.text == [] {
      WordInverse(w, d, 0, 4, offset);
    } else {
      var length := EncodeWord(w, |v.text| + 1, 4, offset - 4);
      HoldsSplit(d, offset, length + v.text, [0]);
      TerminatorUnread(w, d, v, offset);
    }
  }

  /** The terminator of a string is stepped over and never read: it may hold anything and may be missing. */
  lemma {:induction false} TerminatorUnread(w: Writer, d: Data, v: Value, offset: nat)
    requires offset >= 4 && FitsPrimitive(String, v) && d.little == w.little
    requires Holds(d, offset, EncodeWord(w, |v.text| + 1, 4, offset - 4) + v.text)
    ensures ReadPrimitive(d, String, offset) == Done(v, offset + |EncodeWord(w, |v.text| + 1, 4, offset - 4)| + |v.text| + 1)
  {
    WordsOf();
    var length := EncodeWord(w, |v.text| + 1, 4, offset - 4);
    HoldsSplit(d, offset, length, v.text);
    WordInverse(w, d, |v.text| + 1, 4, offset);
  }

  /** Every byte but 0 is true. */
  lemma {:induction false} NonzeroIsTrue(d: Data, b: byte, offset: nat)
    requires offset >= 4 && Holds(d, offset, [b])
    ensures ReadPrimitive(d, Bool, offset) == Done(Truth(b != 0), offset + 1)
  {
    BitInverse(d, b, offset);
  }

  lemma {:induction false} WordsOf()
    ensures Words(1) == 0x100 && Words(2) == 0x1_0000 && Words(4) == 0x1_0000_0000 && Words(8) == 0x1_0000_0000_0000_0000
  {
    assert Words(2) == 256 * Words(1) && Words(1) == 256 * Words(0);
    assert Words(4) == 256 * Words(3) && Words(3) == 256 * Words(2);
    assert Words(6) == 256 * Words(5) && Words(5) == 256 * Words(4);
    assert Words(8) == 256 * Words(7) && Words(7) == 256 * Words(6);
  }

  /** The word a number is written as, and its range, by the widths the transfer syntax gives. */
  lemma {:induction false} WrittenWord(w: Writer, p: Primitive, v: Value, pos: nat) returns (u: nat)
    requires !p.String? && !p.Bool? && FitsPrimitive(p, v)
    ensures u < Words(Width(p)) && EncodePrimitive(w, p, v, pos) == EncodeWord(w, u, Width(p), pos)
    ensures FromWord(p, u) == AsReadPrimitive(p, v)
  {
    hide EncodeWord, ToSigned, Words;
    WordsOf();
    if p.Int16? || p.Int32? || p.Int64? {
      SignedOffByOne(v.number, Width(p));
      u := Complement(v.number, Words(Width(p)));
    } else if p.Int8? {
      u := Complement(v.number, 0x100);
    } else {
      u := v.number;
    }
  }

  lemma {:induction false} PrimitiveInverse(w: Writer, d: Data, p: Primitive, v: Value, offset: nat)
    requires offset >= 4 && FitsPrimitive(p, v) && d.little == w.little
    requires Holds(d, offset, EncodePrimitive(w, p, v, offset - 4))
    ensures ReadPrimitive(d, p, offset) == Done(AsReadPrimitive(p, v), offset + |EncodePrimitive(w, p, v, offset - 4)|)
  {
    if p.String? {
      StringInverse(w, d, v, offset);
    } else if p.Bool? {
      var e: seq<byte> := [if v.truth then 1 else 0];
      NonzeroIsTrue(d, e[0], offset);
    } else {
      var u := WrittenWord(w, p, v, offset - 4);
      WordInverse(w, d, u, Width(p), offset);
    }
  }

  lemma {:induction false} BitInverse(d: Data, b: byte, offset: nat)
    requires offset >= 4 && Holds(d, offset, [b])
    ensures ReadWord(d, offset, 1) == Done(b, offset + 1)
  {
    var bytes := d.bytes[offset..offset + 1];
    assert Read(d, offset, 1) == Done(bytes, offset + 1);
    assert bytes == [b] && bytes[1..] == [] && bytes[..|bytes| - 1] == [];
    assert LittleNumber([]) == 0 && BigNumber([]) == 0;
    assert LittleNumber(bytes) == b && BigNumber(bytes) == b;
  }

  lemma {:induction false} DecodeInverse(w: Writer, d: Data, t: Type, v: Value, offset: nat)
    requires offset >= 4 && Fits(t, v) && d.little == w.little
    requires Holds(d, offset, Encode(w, t, v, offset - 4))
    ensures Decode(d, t, offset) == Done(AsRead(t, v), offset + |Encode(w, t, v, offset - 4)|)
    decreases t, 0
  {
    hide EncodePrimitive, ReadPrimitive, AsReadPrimitive, Holds, ReadWord;
    match t
    case Prim(p) => PrimitiveInverse(w, d, p, v, offset);
    case Message(fields) =>
      if fields == [] {
        BitInverse(d, w.pad, offset);
        assert AsReadFields(fields, v.entries) == [];
      } else {
        FieldsInverse(w, d, fields, v.entries, offset, []);
        assert [] + AsReadFields(fields, v.entries) == AsReadFields(fields, v.entries);
      }
  }

  lemma {:induction false} FieldsInverse(w: Writer, d: Data, fields: seq<Field>, entries: seq<Entry>, offset: nat, read: seq<Entry>)
    requires offset >= 4 && FitsFields(fields, entries) && d.little == w.little
    requires Holds(d, offset, EncodeFields(w, fields, entries, offset - 4))
    ensures DecodeFields(d, fields, offset, read)
         == Done(read + AsReadFields(fields, entries), offset + |EncodeFields(w, fields, entries, offset - 4)|)
    decreases fields, 1
  {
    hide EncodeField, DecodeField, AsReadField, Holds;
    if fields == [] {
      assert read + [] == read;
    } else {
      var first := EncodeField(w, fields[0], entries[0].value, offset - 4);
      HoldsSplit(d, offset, first, EncodeFields(w, fields[1..], entries[1..], offset - 4 + |first|));
      FieldInverse(w, d, fields[0], entries[0].value, offset);
      var entry := Entry(fields[0].name, AsReadField(fields[0], entries[0].value));
      FieldsInverse(w, d, fields[1..], entries[1..], offset + |first|, read + [entry]);
      assert read + [entry] + AsReadFields(fields[1..], entries[1..]) == read + ([entry] + AsReadFields(fields[1..], entries[1..]));
    }
  }

  lemma {:induction false} FieldInverse(w: Writer, d: Data, f: Field, v: Value, offset: nat)
    requires offset >= 4 && FitsField(f, v) && d.little == w.little
    requires Holds(d, offset, EncodeField(w, f, v, offset - 4))
    ensures DecodeField(d, f, offset) == Done(AsReadField(f, v), offset + |EncodeField(w, f, v, offset - 4)|)
    decreases f, 2
  {
    hide EncodeWord, ReadWord, Encode, Decode, AsRead, EncodeAll, AsReadAll, DecodeArray, Holds;
    match f.shape
    case One => DecodeInverse(w, d, f.typ, v, offset);
    case Fixed(n) => ArrayInverse(w, d, f.typ, v.items, offset);
    case Unbounded =>
      var length := EncodeWord(w, |v.items|, 4, offset - 4);
      HoldsSplit(d, offset, length, EncodeAll(w, f.typ, v.items, offset - 4 + |length|));
      WordsOf();
      WordInverse(w, d, |v.items|, 4, offset);
      ArrayInverse(w, d, f.typ, v.items, offset + |length|);
  }

  lemma {:induction false} ArrayInverse(w: Writer, d: Data, t: Type, items: seq<Value>, offset: nat)
    requires offset >= 4 && FitsAll(t, items) && d.little == w.little
    requires Holds(d, offset, EncodeAll(w, t, items, offset - 4))
    ensures DecodeArray(d, t, |items|, offset) == Done(List(AsReadAll(t, items)), offset + |EncodeAll(w, t, items, offset - 4)|)
    decreases t, 2
  {
    if t == Prim(Uint8) {
      ByteArray(w, items, offset - 4);
    } else {
      AllInverse(w, d, t, items, offset, []);
      assert [] + AsReadAll(t, items) == AsReadAll(t, items);
    }
  }

  lemma {:induction false} AllInverse(w: Writer, d: Data, t: Type, items: seq<Value>, offset: nat, read: seq<Value>)
    requires offset >= 4 && FitsAll(t, items) && d.little == w.little
    requires Holds(d, offset, EncodeAll(w, t, items, offset - 4))
    ensures DecodeAll(d, t, |items|, offset, read) == Done(read + AsReadAll(t, items), offset + |EncodeAll(w, t, items, offset - 4)|)
    decreases t, 1, |items|
  {
    hide Encode, Decode, AsRead, Holds;
    if items == [] {
      assert read + [] == read;
    } else {
      var first := Encode(w, t, items[0], offset - 4);
      HoldsSplit(d, offset, first, EncodeAll(w, t, items[1..], offset - 4 + |first|));
      DecodeInverse(w, d, t, items[0], offset);
      AllInverse(w, d, t, items[1..], offset + |first|, read + [AsRead(t, items[0])]);
      assert read + [AsRead(t, items[0])] + AsReadAll(t, items[1..]) == read + ([AsRead(t, items[0])] + AsReadAll(t, items[1..]));
    }
  }

  /** An array of bytes is written as those bytes, so one slice reads it. */
  lemma {:induction false} ByteArray(w: Writer, items: seq<Value>, pos: nat)
    requires FitsAll(Prim(Uint8), items)
    ensures Numbers(EncodeAll(w, Prim(Uint8), items, pos)) == AsReadAll(Prim(Uint8), items)
    ensures |EncodeAll(w, Prim(Uint8), items, pos)| == |items|
    decreases |items|
  {
    if items != [] {
      WordsOf();
      var first := Encode(w, Prim(Uint8), items[0], pos);
      OneByte(w, items[0], pos);
      ByteArray(w, items[1..], pos + 1);
      var rest := EncodeAll(w, Prim(Uint8), items[1..], pos + 1);
      assert Numbers(first + rest) == [items[0]] + Numbers(rest);
    }
  }

  lemma {:induction false} OneByte(w: Writer, v: Value, pos: nat)
    requires FitsPrimitive(Uint8, v)
    ensures 0 <= v.number < 256 && Encode(w, Prim(Uint8), v, pos) == [v.number]
  {
    WordsOf();
    assert Padding(w, pos, 1) == [];
    assert LittleBytes(v.number, 1) == [v.number] && BigBytes(v.number, 1) == [v.number];
  }

  /** Reading what a writer wrote, in either byte order and for every schema, gives the value as
      `AsRead` says and stops at the end of the data. */
  lemma {:induction false} ReadsWhatWasWritten(w: Writer, fields: seq<Field>, v: Value)
    requires Fits(Message(fields), v)
    ensures DecodeMessage(fields, EncodeMessage(w, fields, v)) == Done(AsRead(Message(fields), v), |EncodeMessage(w, fields, v)|)
  {
    hide Encode, Decode, AsRead, Fits;
    var bytes := EncodeMessage(w, fields, v);
    var body := Encode(w, Message(fields), v, 0);
    var d := Data(bytes, w.little);
    assert bytes[4..4 + |body|] == body;
    DecodeInverse(w, d, Message(fields), v, 4);
  }

  // ---------- The values that come back unchanged ----------

  /** No negative integer of 16, 32 or 64 bits anywhere in the value. */
  predicate NoWideNegative(t: Type, v: Value)
    requires Fits(t, v)
    decreases t, 0
  {
    match t
    case Prim(p) => p.Int16? || p.Int32? || p.Int64? ==> v.number >= 0
    case Message(fields) => NoWideNegativeFields(fields, v.entries)
  }

  predicate NoWideNegativeFields(fields: seq<Field>, entries: seq<Entry>)
    requires FitsFields(fields, entries)
    decreases fields, 1
  {
    fields == [] || (NoWideNegativeField(fields[0], entries[0].value) && NoWideNegativeFields(fields[1..], entries[1..]))
  }

  predicate NoWideNegativeField(f: Field, v: Value)
    requires FitsField(f, v)
    decreases f, 2
  {
    if f.shape.One? then NoWideNegative(f.typ, v) else NoWideNegativeAll(f.typ, v.items)
  }

  predicate NoWideNegativeAll(t: Type, items: seq<Value>)
    requires FitsAll(t, items)
    decreases t, 1, |items|
  {
    items == [] || (NoWideNegative(t, items[0]) && NoWideNegativeAll(t, items[1..]))
  }

  lemma {:induction false} UnchangedWhen(t: Type, v: Value)
    requires Fits(t, v)
    ensures AsRead(t, v) == v <==> NoWideNegative(t, v)
    decreases t, 0
  {
    match t
    case Prim(_) =>
    case Message(fields) => UnchangedFields(fields, v.entries);
  }

  lemma {:induction false} UnchangedFields(fields: seq<Field>, entries: seq<Entry>)
    requires FitsFields(fields, entries)
    ensures AsReadFields(fields, entries) == entries <==> NoWideNegativeFields(fields, entries)
    decreases fields, 1
  {
    if fields != [] {
      var first := Entry(fields[0].name, AsReadField(fields[0], entries[0].value));
      UnchangedField(fields[0], entries[0].value);
      UnchangedFields(fields[1..], entries[1..]);
      HeadAndTail(first, AsReadFields(fields[1..], entries[1..]), entries);
    }
  }

  lemma {:induction false} HeadAndTail<T>(x: T, xs: seq<T>, s: seq<T>)
    requires s != []
    ensures [x] + xs == s <==> x == s[0] && xs == s[1..]
  {
    assert ([x] + xs)[0] == x && ([x] + xs)[1..] == xs;
    assert s == [s[0]] + s[1..];
  }

  lemma {:induction false} UnchangedField(f: Field, v: Value)
    requires FitsField(f, v)
    ensures AsReadField(f, v) == v <==> NoWideNegativeField(f, v)
    decreases f, 2
  {
    if f.shape.One? {
      UnchangedWhen(f.typ, v);
    } else {
      UnchangedAll(f.typ, v.items);
    }
  }

  lemma {:induction false} UnchangedAll(t: Type, items: seq<Value>)
    requires FitsAll(t, items)
    ensures AsReadAll(t, items) == items <==> NoWideNegativeAll(t, items)
    decreases t, 1, |items|
  {
    if items != [] {
      UnchangedWhen(t, items[0]);
      UnchangedAll(t, items[1..]);
      HeadAndTail(AsRead(t, items[0]), AsReadAll(t, items[1..]), items);
    }
  }

  /** The round trip holds for exactly the values without a negative integer wider than a byte. */
  lemma {:induction false} RoundTripExactly(w: Writer, fields: seq<Field>, v: Value)
    requires Fits(Message(fields), v)
    ensures DecodeMessage(fields, EncodeMessage(w, fields, v)) == Done(v, |EncodeMessage(w, fields, v)|)
       <==> NoWideNegative(Message(fields), v)
  {
    hide AsRead, NoWideNegative, Fits, EncodeMessage, DecodeMessage;
    ReadsWhatWasWritten(w, fields, v);
    UnchangedWhen(Message(fields), v);
  }

  // ---------- Data that ends early ----------

  /** The data goes on as `e` does. */
  predicate Begins(d: Data, e: Data) {
    d.bytes <= e.bytes && d.little == e.little
  }

  /** What was read inside the data is read again where the data goes on, and lies inside it but for at
      most one byte. */
  predicate Stable<T(==)>(d: Data, o: Outcome<T>, p: Outcome<T>) {
    o.Done? ==> p == o && o.offset <= |d.bytes| + 1
  }

  lemma {:induction false} WordStable(d: Data, e: Data, offset: nat, size: nat)
    requires Begins(d, e) && offset >= 4 && size > 0
    ensures Stable(d, ReadWord(d, offset, size), ReadWord(e, offset, size))
    ensures ReadWord(d, offset, size).Done? ==> ReadWord(d, offset, size).offset <= |d.bytes|
  {
    hide LittleNumber, BigNumber;
    var at := if size > 1 then Align(offset, size) else offset;
    if at + size <= |d.bytes| {
      SliceSame(d.bytes, e.bytes, at, at + size);
    }
  }

  lemma {:induction false} SliceSame(a: seq<byte>, b: seq<byte>, i: nat, j: nat)
    requires a <= b && i <= j <= |a|
    ensures a[i..j] == b[i..j]
  {
  }

  lemma {:induction false} PrimitiveStable(d: Data, e: Data, p: Primitive, offset: nat)
    requires Begins(d, e) && offset >= 4
    ensures Stable(d, ReadPrimitive(d, p, offset), ReadPrimitive(e, p, offset))
  {
    hide ReadWord, FromWord;
    WordStable(d, e, offset, Width(p));
    if p.String? {
      var length := ReadWord(d, offset, 4);
      if length.Done? && length.value > 1 && length.offset + length.value - 1 <= |d.bytes| {
        SliceSame(d.bytes, e.bytes, length.offset, length.offset + length.value - 1);
      }
    }
  }

  lemma {:induction false} DecodeStable(d: Data, e: Data, t: Type, offset: nat)
    requires Begins(d, e) && 4 <= offset <= |d.bytes| + 1
    ensures Stable(d, Decode(d, t, offset), Decode(e, t, offset))
    decreases t, 0
  {
    hide ReadWord, ReadPrimitive;
    match t
    case Prim(p) => PrimitiveStable(d, e, p, offset);
    case Message(fields) =>
      WordStable(d, e, offset, 1);
      if fields != [] {
        FieldsStable(d, e, fields, offset, []);
      }
  }

  lemma {:induction false} FieldsStable(d: Data, e: Data, fields: seq<Field>, offset: nat, read: seq<Entry>)
    requires Begins(d, e) && 4 <= offset <= |d.bytes| + 1
    ensures Stable(d, DecodeFields(d, fields, offset, read), DecodeFields(e, fields, offset, read))
    decreases fields, 1
  {
    hide DecodeField;
    if fields != [] {
      FieldStable(d, e, fields[0], offset);
      var value := DecodeField(d, fields[0], offset);
      if value.Done? {
        FieldsStable(d, e, fields[1..], value.offset, read + [Entry(fields[0].name, value.value)]);
      }
    }
  }

  lemma {:induction false} FieldStable(d: Data, e: Data, f: Field, offset: nat)
    requires Begins(d, e) && 4 <= offset <= |d.bytes| + 1
    ensures Stable(d, DecodeField(d, f, offset), DecodeField(e, f, offset))
    decreases f, 2
  {
    hide ReadWord, Decode, DecodeArray;
    match f.shape
    case One => DecodeStable(d, e, f.typ, offset);
    case Fixed(n) => ArrayStable(d, e, f.typ, n, offset);
    case Unbounded =>
      WordStable(d, e, offset, 4);
      var length := ReadWord(d, offset, 4);
      if length.Done? {
        ArrayStable(d, e, f.typ, length.value, length.offset);
      }
  }

  lemma {:induction false} ArrayStable(d: Data, e: Data, t: Type, n: nat, offset: nat)
    requires Begins(d, e) && 4 <= offset <= |d.bytes| + 1
    ensures Stable(d, DecodeArray(d, t, n, offset), DecodeArray(e, t, n, offset))
    decreases t, 2
  {
    if t == Prim(Uint8) {
      if offset + n <= |d.bytes| {
        SliceSame(d.bytes, e.bytes, offset, offset + n);
      }
    } else {
      AllStable(d, e, t, n, offset, []);
    }
  }

  lemma {:induction false} AllStable(d: Data, e: Data, t: Type, n: nat, offset: nat, read: seq<Value>)
    requires Begins(d, e) && 4 <= offset <= |d.bytes| + 1
    ensures Stable(d, DecodeAll(d, t, n, offset, read), DecodeAll(e, t, n, offset, read))
    decreases t, 1, n
  {
    hide Decode;
    if n > 0 {
      DecodeStable(d, e, t, offset);
      var item := Decode(d, t, offset);
      if item.Done? {
        AllStable(d, e, t, n - 1, item.offset, read + [item.value]);
      }
    }
  }

  /** What was written is never misread when its end is missing: reading fails, unless only the last byte,
      which a string's end does not look at, is missing and the value is that of the whole. */
  lemma {:induction false} TruncatedFails(w: Writer, fields: seq<Field>, v: Value, n: nat)
    requires Fits(Message(fields), v) && n < |EncodeMessage(w, fields, v)|
    ensures var e := EncodeMessage(w, fields, v); var r := DecodeMessage(fields, e[..n]);
      && (n + 1 < |e| ==> r.Failed?)
      && (r.Done? ==> r == DecodeMessage(fields, e))
  {
    var e := EncodeMessage(w, fields, v);
    ReadsWhatWasWritten(w, fields, v);
    hide Encode, Decode, AsRead, Fits;
    if n >= 4 {
      DecodeStable(Data(e[..n], w.little), Data(e, w.little), Message(fields), 4);
    }
  }

  // ---------- The reader as it runs ----------

  class CdrReader {
    const data: seq<byte>
    const littleEndian: bool
    var offset: nat

    function Source(): Data {
      Data(data, littleEndian)
    }

    constructor (data: seq<byte>)
      requires |data| >= 4
      ensures Source() == Data(data, data[1] % 2 == 1) && offset == 4
    {
      this.data, offset, littleEndian := data, 4, data[1] % 2 == 1;
    }

    method AlignTo(size: nat)
      requires offset >= 4 && size > 0
      modifies this
      ensures offset == Align(old(offset), size)
    {
      var alignment := (offset - 4) % size;
      if alignment > 0 {
        offset := offset + size - alignment;
      }
    }

    method ReadBytes(size: nat) returns (bytes: Option<seq<byte>>)
      requires offset >= 4 && size > 0
      modifies this
      ensures Matches(bytes, offset, Read(Source(), old(offset), size))
      ensures offset >= 4 && (bytes.Some? ==> |bytes.value| == size)
    {
      if offset + size > |data| {
        return None;
      }
      if size > 1 {
        AlignTo(size);
      }
      if offset + size > |data| {
        return None;
      }
      bytes := Some(data[offset..offset + size]);
      offset := offset + size;
    }

    method Word(size: nat) returns (n: Option<nat>)
      requires offset >= 4 && size > 0
      modifies this
      ensures Matches(n, offset, ReadWord(Source(), old(offset), size))
      ensures offset >= 4
    {
      var bytes := ReadBytes(size);
      if bytes.None? {
        return None;
      }
      n := Some(if littleEndian then LittleNumber(bytes.value) else BigNumber(bytes.value));
    }

    method StringValue() returns (v: Option<Value>)
      requires offset >= 4
      modifies this
      ensures Matches(v, offset, ReadString(Source(), old(offset)))
      ensures offset >= 4
    {
      var length := Word(4);
      if length.None? {
        return None;
      }
      if length.value <= 1 {
        offset := offset + length.value;
        return Some(Text([]));
      }
      if offset + length.value - 1 > |data| {
        return None;
      }
      v := Some(Text(data[offset..offset + length.value - 1]));
      offset := offset + length.value - 1;
      offset := offset + 1;
    }

    method PrimitiveValue(p: Primitive) returns (v: Option<Value>)
      requires offset >= 4
      modifies this
      ensures Matches(v, offset, ReadPrimitive(Source(), p, old(offset)))
      ensures offset >= 4
    {
      if p.String? {
        v := StringValue();
        return;
      }
      var word := Word(Width(p));
      if word.None? {
        return None;
      }
      v := Some(FromWord(p, word.value));
    }

    /** readComplexType */
    method Complex(t: Type) returns (v: Option<Value>)
      requires offset >= 4
      modifies this
      ensures Matches(v, offset, Decode(Source(), t, old(offset)))
      ensures offset >= 4
      decreases t, 0
    {
      match t {
        case Prim(p) =>
          v := PrimitiveValue(p);
        case Message(fields) =>
          if |fields| == 0 {
            var dummy := Word(1);
            return if dummy.None? then None else Some(Record([]));
          }
          var entries: seq<Entry> := [];
          for i := 0 to |fields|
            invariant offset >= 4
            invariant DecodeFields(Source(), fields[i..], offset, entries) == DecodeFields(Source(), fields, old(offset), [])
          {
            assert fields[i..][0] == fields[i] && fields[i..][1..] == fields[i + 1..];
            var value := ReadField(fields[i]);
            if value.None? {
              return None;
            }
            entries := entries + [Entry(fields[i].name, value.value)];
          }
          v := Some(Record(entries));
      }
    }

    method ReadField(f: Field) returns (v: Option<Value>)
      requires offset >= 4
      modifies this
      ensures Matches(v, offset, DecodeField(Source(), f, old(offset)))
      ensures offset >= 4
      decreases f, 2
    {
      match f.shape {
        case One =>
          v := Complex(f.typ);
        case Fixed(n) =>
          v := ReadArray(f.typ, n);
        case Unbounded =>
          var length := Word(4);
          if length.None? {
            return None;
          }
          v := ReadArray(f.typ, length.value);
      }
    }

    method ReadArray(t: Type, n: nat) returns (v: Option<Value>)
      requires offset >= 4
      modifies this
      ensures Matches(v, offset, DecodeArray(Source(), t, n, old(offset)))
      ensures offset >= 4
      decreases t, 2
    {
      if t == Prim(Uint8) {
        if offset + n > |data| {
          return None;
        }
        v := Some(List(Numbers(data[offset..offset + n])));
        offset := offset + n;
        return;
      }
      var items: seq<Value> := [];
      for i := 0 to n
        invariant offset >= 4
        invariant DecodeAll(Source(), t, n - i, offset, items) == DecodeAll(Source(), t, n, old(offset), [])
      {
        var item := Complex(t);
        if item.None? {
          return None;
        }
        items := items + [item.value];
      }
      v := Some(List(items));
    }
  }

  /** A method's result and the offset after it are what the specification gives. */
  predicate Matches<T(==)>(r: Option<T>, offset: nat, o: Outcome<T>) {
    match o
    case Done(value, end) => r == Some(value) && offset == end
    case Failed => r == None
  }

  /** ReadMessage, from the header on. */
  method ReadMessage(fields: seq<Field>, bytes: seq<byte>) returns (v: Option<Value>)
    ensures v == match DecodeMessage(fields, bytes) case Done(value, _) => Some(value) case Failed => None
  {
    if |bytes| < 4 {
      return None;
    }
    var reader := new CdrReader(bytes);
    v := reader.Complex(Message(fields));
  }
}
