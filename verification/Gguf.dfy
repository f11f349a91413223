/**
 The GGUF container, version 3: what the fixture writer lays out and what the loader reads back.

 Text validity and the tensor name map are parameters; floats are carried as their bits. `FileRoundTrip` says that
 loading a written file recovers every key, value and descriptor, and for every tensor exactly the bytes written.
 */
module Gguf {
  import opened Basics
  import opened Bytes

  datatype Fault = Truncated | BadText | BadMagic | BadVersion | BadType | BadShape | PastEnd

  /** A parsed value and the bytes it took. */
  datatype Taken<+T> = Taken(value: T, used: nat)

  type Parse<T> = seq<Byte> -> Result<Taken<T>, Fault>

  type Text = seq<Byte> -> bool

  datatype Value =
    | U8(u: nat) | I8(i: int) | U16(u: nat) | I16(i: int) | U32(u: nat) | I32(i: int)
    | F32(bits: nat) | Bool(on: bool) | Str(s: seq<Byte>) | Arr(items: Items)
    | U64(u: nat) | I64(i: int) | F64(bits: nat)

  datatype Items =
    | U32s(us: seq<nat>) | I32s(ints: seq<int>) | U64s(us: seq<nat>) | F32s(bits: seq<nat>)
    | Strs(ss: seq<seq<Byte>>)

  datatype Kv = Kv(key: seq<Byte>, value: Value)

  datatype Ggml = GF32 | GF16 | GQ4_0 | GQ4_1 | GQ6_K | GBF16

  datatype Desc = Desc(name: seq<Byte>, shape: seq<nat>, ty: Ggml, offset: nat)

  datatype Header = Header(version: nat, tensors: nat, metadata: nat)

  const MAGIC: seq<Byte> := [71, 71, 85, 70]
  const VERSION: nat := 3
  const ALIGN: nat := 32

  // ---------------------------------------------------------------- integers

  /** An `n`-byte unsigned integer at the front of `b`. */
  function ParseUint(n: nat): Parse<nat> {
    b => if |b| < n then Err(Truncated) else Ok(Taken(FromLe(b[..n]), n))
  }

  function ToSigned(v: nat, n: nat): int {
    if 2 * v < Pow256(n) then v else v - Pow256(n)
  }

  function FromSigned(i: int, n: nat): nat
    requires 0 <= 2 * i + Pow256(n) && 2 * i < Pow256(n)
  {
    if i >= 0 then i else i + Pow256(n)
  }

  function ParseInt(n: nat): Parse<int> {
    b => match ParseUint(n)(b)
         case Err(e) => Err(e)
         case Ok(t) => Ok(Taken(ToSigned(t.value, n), n))
  }

  // ---------------------------------------------------------------- strings and repetition

  function ParseString(text: Text): Parse<seq<Byte>> {
    b => if |b| < 8 then Err(Truncated)
         else
           var len := FromLe(b[..8]);
           if |b| < 8 + len then Err(Truncated)
           else if !text(b[8..8 + len]) then Err(BadText)
           else Ok(Taken(b[8..8 + len], 8 + len))
  }

  /** `count` values one after another. */
  function Many<T>(parse: Parse<T>, b: seq<Byte>, count: nat): Result<Taken<seq<T>>, Fault> {
    if count == 0 then Ok(Taken([], 0))
    else
      match Many(parse, b, count - 1)
      case Err(e) => Err(e)
      case Ok(t) =>
        if t.used > |b| then Err(Truncated)
        else
          match parse(b[t.used..])
          case Err(e) => Err(e)
          case Ok(one) => Ok(Taken(t.value + [one.value], t.used + one.used))
  }

  /** The counting loop with a cursor that the parser uses for arrays, metadata and descriptors. */
  method Repeat<T>(parse: Parse<T>, b: seq<Byte>, count: nat) returns (r: Result<Taken<seq<T>>, Fault>)
    ensures r == Many(parse, b, count)
  {
    var out: seq<T> := [];
    var cursor: nat := 0;
    for k := 0 to count
      invariant Many(parse, b, k) == Ok(Taken(out, cursor))
    {
      if cursor > |b| {
        ManyStops(parse, b, k + 1, count);
        return Err(Truncated);
      }
      var one := parse(b[cursor..]);
      if one.Err? {
        ManyStops(parse, b, k + 1, count);
        return Err(one.error);
      }
      out := out + [one.value.value];
      cursor := cursor + one.value.used;
    }
    return Ok(Taken(out, cursor));
  }

  lemma {:induction false} ManyStops<T>(parse: Parse<T>, b: seq<Byte>, k: nat, count: nat)
    requires k <= count && Many(parse, b, k).Err?
    ensures Many(parse, b, count) == Many(parse, b, k)
    decreases count
  {
    if k < count {
      ManyStops(parse, b, k, count - 1);
    }
  }

  // ---------------------------------------------------------------- values

  function Wrap<T>(r: Result<Taken<T>, Fault>, f: T -> Value): Result<Taken<Value>, Fault> {
    match r
    case Err(e) => Err(e)
    case Ok(t) => Ok(Taken(f(t.value), t.used))
  }

  function Shift<T>(r: Result<Taken<seq<T>>, Fault>, header: nat, f: seq<T> -> Items): Result<Taken<Value>, Fault> {
    match r
    case Err(e) => Err(e)
    case Ok(t) => Ok(Taken(Arr(f(t.value)), header + t.used))
  }

  function ArrayOf(text: Text, elem: nat, rest: seq<Byte>, count: nat): Result<Taken<Value>, Fault> {
    match elem
    case 4 => Shift(Many(ParseUint(4), rest, count), 12, x => U32s(x))
    case 5 => Shift(Many(ParseInt(4), rest, count), 12, x => I32s(x))
    case 10 => Shift(Many(ParseUint(8), rest, count), 12, x => U64s(x))
    case 6 => Shift(Many(ParseUint(4), rest, count), 12, x => F32s(x))
    case 8 => Shift(Many(ParseString(text), rest, count), 12, x => Strs(x))
    case _ => Err(BadType)
  }

  function ParseArray(text: Text, b: seq<Byte>): Result<Taken<Value>, Fault> {
    if |b| < 12 then Err(Truncated) else ArrayOf(text, FromLe(b[..4]), b[12..], FromLe(b[4..12]))
  }

  function ParseValue(text: Text, ty: nat, b: seq<Byte>): Result<Taken<Value>, Fault> {
    match ty
    case 0 => Wrap(ParseUint(1)(b), x => U8(x))
    case 1 => Wrap(ParseInt(1)(b), x => I8(x))
    case 2 => Wrap(ParseUint(2)(b), x => U16(x))
    case 3 => Wrap(ParseInt(2)(b), x => I16(x))
    case 4 => Wrap(ParseUint(4)(b), x => U32(x))
    case 5 => Wrap(ParseInt(4)(b), x => I32(x))
    case 6 => Wrap(ParseUint(4)(b), x => F32(x))
    case 7 => Wrap(ParseUint(1)(b), x => Bool(x != 0))
    case 8 => Wrap(ParseString(text)(b), x => Str(x))
    case 9 => ParseArray(text, b)
    case 10 => Wrap(ParseUint(8)(b), x => U64(x))
    case 11 => Wrap(ParseInt(8)(b), x => I64(x))
    case 12 => Wrap(ParseUint(8)(b), x => F64(x))
    case _ => Err(BadType)
  }

  function ParseKv(text: Text): Parse<Kv> {
    b => match ParseString(text)(b)
         case Err(e) => Err(e)
         case Ok(key) =>
           if |b| < key.used + 4 then Err(Truncated)
           else
             match ParseValue(text, FromLe(b[key.used..key.used + 4]), b[key.used + 4..])
             case Err(e) => Err(e)
             case Ok(v) => Ok(Taken(Kv(key.value, v.value), key.used + 4 + v.used))
  }

  // ---------------------------------------------------------------- descriptors and header

  function GgmlOf(id: nat): Option<Ggml> {
    match id
    case 0 => Some(GF32)
    case 1 => Some(GF16)
    case 2 => Some(GQ4_0)
    case 3 => Some(GQ4_1)
    case 14 => Some(GQ6_K)
    case 30 => Some(GBF16)
    case _ => None
  }

  function IdOf(ty: Ggml): nat {
    match ty
    case GF32 => 0
    case GF16 => 1
    case GQ4_0 => 2
    case GQ4_1 => 3
    case GQ6_K => 14
    case GBF16 => 30
  }

  /** What follows a descriptor's name. */
  function ParseDescTail(name: seq<Byte>, b: seq<Byte>): Result<Taken<Desc>, Fault> {
    if |b| < 4 then Err(Truncated)
    else
      var dims := FromLe(b[..4]);
      if |b| < 4 + 8 * dims then Err(Truncated)
      else
        match Many(ParseUint(8), b[4..], dims)
        case Err(e) => Err(e)
        case Ok(shape) =>
          var at := 4 + 8 * dims;
          if |b| < at + 4 then Err(Truncated)
          else
            match GgmlOf(FromLe(b[at..at + 4]))
            case None => Err(BadType)
            case Some(ty) =>
              if |b| < at + 12 then Err(Truncated)
              else Ok(Taken(Desc(name, shape.value, ty, FromLe(b[at + 4..at + 12])), at + 12))
  }

  function ParseDesc(text: Text): Parse<Desc> {
    b => match ParseString(text)(b)
         case Err(e) => Err(e)
         case Ok(name) =>
           if |b| < name.used then Err(Truncated)
           else
             match ParseDescTail(name.value, b[name.used..])
             case Err(e) => Err(e)
             case Ok(d) => Ok(Taken(d.value, name.used + d.used))
  }

  function ParseHeader(b: seq<Byte>): Result<Taken<Header>, Fault> {
    if |b| < 24 then Err(Truncated)
    else if b[..4] != MAGIC then Err(BadMagic)
    else if FromLe(b[4..8]) != VERSION then Err(BadVersion)
    else Ok(Taken(Header(VERSION, FromLe(b[8..16]), FromLe(b[16..24])), 24))
  }

  /** The element loops of `parse_array`. */
  method ReadArray(text: Text, b: seq<Byte>) returns (r: Result<Taken<Value>, Fault>)
    ensures r == ParseArray(text, b)
  {
    hide Many;
    if |b| < 12 {
      return Err(Truncated);
    }
    var elem, count, rest := FromLe(b[..4]), FromLe(b[4..12]), b[12..];
    if elem == 4 {
      var out := Repeat(ParseUint(4), rest, count);
      return Shift(out, 12, x => U32s(x));
    } else if elem == 5 {
      var out := Repeat(ParseInt(4), rest, count);
      return Shift(out, 12, x => I32s(x));
    } else if elem == 10 {
      var out := Repeat(ParseUint(8), rest, count);
      return Shift(out, 12, x => U64s(x));
    } else if elem == 6 {
      var out := Repeat(ParseUint(4), rest, count);
      return Shift(out, 12, x => F32s(x));
    } else if elem == 8 {
      var out := Repeat(ParseString(text), rest, count);
      return Shift(out, 12, x => Strs(x));
    }
    return Err(BadType);
  }

  /** `parse_tensor_desc`, with its cursor and its loop over the dimensions. */
  method ReadDesc(text: Text, b: seq<Byte>) returns (r: Result<Taken<Desc>, Fault>)
    ensures r == ParseDesc(text)(b)
  {
    hide ParseString, ParseDescTail;
    var name := ParseString(text)(b);
    if name.Err? {
      return Err(name.error);
    }
    StringInside(text, b);
    var cursor := name.value.used;
    var d := ReadDescTail(name.value.value, b[cursor..]);
    if d.Err? {
      return Err(d.error);
    }
    return Ok(Taken(d.value.value, cursor + d.value.used));
  }

  method ReadDescTail(name: seq<Byte>, b: seq<Byte>) returns (r: Result<Taken<Desc>, Fault>)
    ensures r == ParseDescTail(name, b)
  {
    hide Many, FromLe, GgmlOf;
    if |b| < 4 {
      return Err(Truncated);
    }
    var dims := FromLe(b[..4]);
    if |b| < 4 + 8 * dims {
      return Err(Truncated);
    }
    var shape := Repeat(ParseUint(8), b[4..], dims);
    if shape.Err? {
      return Err(shape.error);
    }
    var cursor := 4 + 8 * dims;
    if |b| < cursor + 4 {
      return Err(Truncated);
    }
    var ty := GgmlOf(FromLe(b[cursor..cursor + 4]));
    if ty == None {
      return Err(BadType);
    }
    if |b| < cursor + 12 {
      return Err(Truncated);
    }
    var offset := FromLe(b[cursor + 4..cursor + 12]);
    return Ok(Taken(Desc(name, shape.value.value, ty.value, offset), cursor + 12));
  }

  lemma StringInside(text: Text, b: seq<Byte>)
    ensures var r := ParseString(text)(b); r.Ok? ==> r.value.used <= |b|
  {
  }

  // ---------------------------------------------------------------- the writer's encodings

  function EncString(s: seq<Byte>): seq<Byte> {
    Le(|s|, 8) + s
  }

  function Each<T>(enc: T -> seq<Byte>, items: seq<T>): seq<Byte> {
    if items == [] then [] else Each(enc, items[..|items| - 1]) + enc(items[|items| - 1])
  }

  function EncUint(n: nat): nat -> seq<Byte> {
    v => Le(v, n)
  }

  function EncInt(n: nat): int -> seq<Byte> {
    i => if 0 <= 2 * i + Pow256(n) && 2 * i < Pow256(n) then Le(FromSigned(i, n), n) else []
  }

  function ElemType(items: Items): nat {
    match items
    case U32s(_) => 4
    case I32s(_) => 5
    case U64s(_) => 10
    case F32s(_) => 6
    case Strs(_) => 8
  }

  function Count(items: Items): nat {
    match items
    case U32s(us) => |us|
    case I32s(ints) => |ints|
    case U64s(us) => |us|
    case F32s(bits) => |bits|
    case Strs(ss) => |ss|
  }

  function EncElements(items: Items): seq<Byte> {
    match items
    case U32s(us) => Each(EncUint(4), us)
    case I32s(ints) => Each(EncInt(4), ints)
    case U64s(us) => Each(EncUint(8), us)
    case F32s(bits) => Each(EncUint(4), bits)
    case Strs(ss) => Each(EncString, ss)
  }

  function TypeId(v: Value): nat {
    match v
    case U8(_) => 0
    case I8(_) => 1
    case U16(_) => 2
    case I16(_) => 3
    case U32(_) => 4
    case I32(_) => 5
    case F32(_) => 6
    case Bool(_) => 7
    case Str(_) => 8
    case Arr(_) => 9
    case U64(_) => 10
    case I64(_) => 11
    case F64(_) => 12
  }

  function EncValue(v: Value): seq<Byte> {
    match v
    case U8(u) => Le(u, 1)
    case I8(i) => EncInt(1)(i)
    case U16(u) => Le(u, 2)
    case I16(i) => EncInt(2)(i)
    case U32(u) => Le(u, 4)
    case I32(i) => EncInt(4)(i)
    case F32(bits) => Le(bits, 4)
    case Bool(on) => Le(if on then 1 else 0, 1)
    case Str(s) => EncString(s)
    case Arr(items) => Le(ElemType(items), 4) + Le(Count(items), 8) + EncElements(items)
    case U64(u) => Le(u, 8)
    case I64(i) => EncInt(8)(i)
    case F64(bits) => Le(bits, 8)
  }

  function EncKv(kv: Kv): seq<Byte> {
    EncString(kv.key) + Le(TypeId(kv.value), 4) + EncValue(kv.value)
  }

  function EncDesc(d: Desc): seq<Byte> {
    EncString(d.name) + Le(|d.shape|, 4) + Each(EncUint(8), d.shape) + Le(IdOf(d.ty), 4) + Le(d.offset, 8)
  }

  function EncHeader(tensors: nat, metadata: nat): (b: seq<Byte>)
    ensures |b| == 24
  {
    MAGIC + Le(VERSION, 4) + Le(tensors, 8) + Le(metadata, 8)
  }

  // ---------------------------------------------------------------- what can be written

  predicate FitsUint(v: nat, n: nat) {
    v < Pow256(n)
  }

  predicate FitsInt(i: int, n: nat) {
    0 <= 2 * i + Pow256(n) && 2 * i < Pow256(n)
  }

  predicate FitsString(text: Text, s: seq<Byte>) {
    text(s) && FitsUint(|s|, 8)
  }

  predicate FitsItems(text: Text, items: Items) {
    && FitsUint(Count(items), 8)
    && match items
       case U32s(us) => (forall k :: 0 <= k < |us| ==> FitsUint(us[k], 4))
       case I32s(ints) => (forall k :: 0 <= k < |ints| ==> FitsInt(ints[k], 4))
       case U64s(us) => (forall k :: 0 <= k < |us| ==> FitsUint(us[k], 8))
       case F32s(bits) => (forall k :: 0 <= k < |bits| ==> FitsUint(bits[k], 4))
       case Strs(ss) => (forall k :: 0 <= k < |ss| ==> FitsString(text, ss[k]))
  }

  predicate FitsValue(text: Text, v: Value) {
    match v
    case U8(u) => FitsUint(u, 1)
    case I8(i) => FitsInt(i, 1)
    case U16(u) => FitsUint(u, 2)
    case I16(i) => FitsInt(i, 2)
    case U32(u) => FitsUint(u, 4)
    case I32(i) => FitsInt(i, 4)
    case F32(bits) => FitsUint(bits, 4)
    case Bool(_) => true
    case Str(s) => FitsString(text, s)
    case Arr(items) => FitsItems(text, items)
    case U64(u) => FitsUint(u, 8)
    case I64(i) => FitsInt(i, 8)
    case F64(bits) => FitsUint(bits, 8)
  }

  predicate FitsKv(text: Text, kv: Kv) {
    FitsString(text, kv.key) && FitsValue(text, kv.value)
  }

  predicate FitsDesc(text: Text, d: Desc) {
    && FitsString(text, d.name) && FitsUint(|d.shape|, 4) && FitsUint(d.offset, 8)
    && forall k :: 0 <= k < |d.shape| ==> FitsUint(d.shape[k], 8)
  }

  // ---------------------------------------------------------------- reading back

  /** `bytes` read as `x`, whatever follows them. */
  ghost predicate Reads<T(!new)>(parse: Parse<T>, bytes: seq<Byte>, x: T) {
    forall rest :: parse(bytes + rest) == Ok(Taken(x, |bytes|))
  }

  lemma ReadsHere<T(!new)>(parse: Parse<T>, bytes: seq<Byte>, x: T, rest: seq<Byte>)
    requires Reads(parse, bytes, x)
    ensures parse(bytes + rest) == Ok(Taken(x, |bytes|))
  {
  }

  lemma UintReads(v: nat, n: nat)
    requires FitsUint(v, n)
    ensures Reads(ParseUint(n), Le(v, n), v)
  {
    hide Le, FromLe;
    LeRoundTrip(v, n);
    forall rest
      ensures ParseUint(n)(Le(v, n) + rest) == Ok(Taken(v, n))
    {
      assert (Le(v, n) + rest)[..n] == Le(v, n);
    }
  }

  lemma IntReads(i: int, n: nat)
    requires FitsInt(i, n)
    ensures Reads(ParseInt(n), EncInt(n)(i), i)
  {
    hide Le, FromLe, ParseUint, Pow256;
    var u := FromSigned(i, n);
    UintReads(u, n);
    forall rest
      ensures ParseInt(n)(EncInt(n)(i) + rest) == Ok(Taken(i, |EncInt(n)(i)|))
    {
      ReadsHere(ParseUint(n), Le(u, n), u, rest);
    }
  }

  lemma StringReads(text: Text, s: seq<Byte>)
    requires FitsString(text, s)
    ensures Reads(ParseString(text), EncString(s), s)
  {
    hide Le, FromLe;
    LeRoundTrip(|s|, 8);
    forall rest
      ensures ParseString(text)(EncString(s) + rest) == Ok(Taken(s, |EncString(s)|))
    {
      var b := EncString(s) + rest;
      assert b[..8] == Le(|s|, 8) && b[8..8 + |s|] == s;
    }
  }

  lemma {:induction false} ManyReads<T(!new)>(parse: Parse<T>, enc: T -> seq<Byte>, items: seq<T>, rest: seq<Byte>)
    requires forall k :: 0 <= k < |items| ==> Reads(parse, enc(items[k]), items[k])
    ensures Many(parse, Each(enc, items) + rest, |items|) == Ok(Taken(items, |Each(enc, items)|))
    decreases |items|
  {
    hide Reads, Many;
    if items == [] {
      ManyNone(parse, Each(enc, items) + rest);
    } else {
      var n := |items| - 1;
      var front, last := items[..n], items[n];
      EachSplits(enc, items, rest);
      hide Each;
      assert forall k :: 0 <= k < n ==> front[k] == items[k];
      ManyReads(parse, enc, front, enc(last) + rest);
      ReadsHere(parse, enc(last), last, rest);
      ManyMore(parse, Each(enc, items) + rest, n, front, |Each(enc, front)|, last, |enc(last)|);
    }
  }

  lemma {:induction false} EachSplits<T>(enc: T -> seq<Byte>, items: seq<T>, rest: seq<Byte>)
    requires items != []
    ensures var (front, last, b) := (items[..|items| - 1], items[|items| - 1], Each(enc, items) + rest);
            && items == front + [last] && b == Each(enc, front) + (enc(last) + rest)
            && |Each(enc, items)| == |Each(enc, front)| + |enc(last)|
            && |Each(enc, front)| <= |b| && b[|Each(enc, front)|..] == enc(last) + rest
  {
    var (front, last) := (items[..|items| - 1], items[|items| - 1]);
    assert Each(enc, items) == Each(enc, front) + enc(last);
    assert items == front + [last];
    hide Each;
    Associates(Each(enc, front), enc(last), rest);
  }

  lemma Associates(a: seq<Byte>, b: seq<Byte>, c: seq<Byte>)
    ensures a + b + c == a + (b + c) && (a + b + c)[|a|..] == b + c
  {
  }

  lemma ManyNone<T>(parse: Parse<T>, b: seq<Byte>)
    ensures Many(parse, b, 0) == Ok(Taken([], 0))
  {
  }

  lemma ManyMore<T>(parse: Parse<T>, b: seq<Byte>, n: nat, front: seq<T>, used: nat, last: T, more: nat)
    requires Many(parse, b, n) == Ok(Taken(front, used)) && used <= |b| && parse(b[used..]) == Ok(Taken(last, more))
    ensures Many(parse, b, n + 1) == Ok(Taken(front + [last], used + more))
  {
  }

  lemma ElementsRead(text: Text, items: Items, rest: seq<Byte>)
    requires FitsItems(text, items)
    ensures ArrayOf(text, ElemType(items), EncElements(items) + rest, Count(items))
         == Ok(Taken(Arr(items), 12 + |EncElements(items)|))
  {
    hide Le, FromLe, Pow256, Each, ParseUint, ParseInt, ParseString, EncUint, EncInt, EncString, Many, Reads;
    match items {
      case U32s(us) => UintsRead(us, 4, rest);
      case I32s(ints) => IntsRead(ints, 4, rest);
      case U64s(us) => UintsRead(us, 8, rest);
      case F32s(bits) => UintsRead(bits, 4, rest);
      case Strs(ss) => StringsRead(text, ss, rest);
    }
  }

  lemma UintsRead(us: seq<nat>, n: nat, rest: seq<Byte>)
    requires forall k :: 0 <= k < |us| ==> FitsUint(us[k], n)
    ensures Many(ParseUint(n), Each(EncUint(n), us) + rest, |us|) == Ok(Taken(us, |Each(EncUint(n), us)|))
  {
    hide Reads, Many, ParseUint, Each, FitsUint;
    forall k | 0 <= k < |us|
      ensures Reads(ParseUint(n), EncUint(n)(us[k]), us[k])
    {
      UintReads(us[k], n);
    }
    ManyReads(ParseUint(n), EncUint(n), us, rest);
  }

  lemma IntsRead(ints: seq<int>, n: nat, rest: seq<Byte>)
    requires forall k :: 0 <= k < |ints| ==> FitsInt(ints[k], n)
    ensures Many(ParseInt(n), Each(EncInt(n), ints) + rest, |ints|) == Ok(Taken(ints, |Each(EncInt(n), ints)|))
  {
    hide Reads, Many, ParseInt, EncInt, Each, FitsInt;
    forall k | 0 <= k < |ints|
      ensures Reads(ParseInt(n), EncInt(n)(ints[k]), ints[k])
    {
      IntReads(ints[k], n);
    }
    ManyReads(ParseInt(n), EncInt(n), ints, rest);
  }

  lemma StringsRead(text: Text, ss: seq<seq<Byte>>, rest: seq<Byte>)
    requires forall k :: 0 <= k < |ss| ==> FitsString(text, ss[k])
    ensures Many(ParseString(text), Each(EncString, ss) + rest, |ss|) == Ok(Taken(ss, |Each(EncString, ss)|))
  {
    hide Reads, Many, ParseString, EncString, Each, FitsString;
    forall k | 0 <= k < |ss|
      ensures Reads(ParseString(text), EncString(ss[k]), ss[k])
    {
      StringReads(text, ss[k]);
    }
    ManyReads(ParseString(text), EncString, ss, rest);
  }

  lemma ArrayReads(text: Text, items: Items, rest: seq<Byte>)
    requires FitsItems(text, items)
    ensures ParseArray(text, EncValue(Arr(items)) + rest) == Ok(Taken(Arr(items), |EncValue(Arr(items))|))
  {
    hide Le, FromLe, EncElements, ArrayOf;
    var b := EncValue(Arr(items)) + rest;
    LeRoundTrip(ElemType(items), 4);
    LeRoundTrip(Count(items), 8);
    assert b[..4] == Le(ElemType(items), 4) && b[4..12] == Le(Count(items), 8);
    assert b[12..] == EncElements(items) + rest;
    ElementsRead(text, items, rest);
  }

  /** Every value the format can hold is read back, whatever follows it. */
  lemma ValueReads(text: Text, v: Value, rest: seq<Byte>)
    requires FitsValue(text, v)
    ensures ParseValue(text, TypeId(v), EncValue(v) + rest) == Ok(Taken(v, |EncValue(v)|))
  {
    hide Le, FromLe, Pow256, ParseUint, ParseInt, ParseString, ParseArray, EncInt, EncString, Reads, EncElements;
    match v {
      case U8(u) => UintAt(u, 1, rest);
      case I8(i) => IntAt(i, 1, rest);
      case U16(u) => UintAt(u, 2, rest);
      case I16(i) => IntAt(i, 2, rest);
      case U32(u) => UintAt(u, 4, rest);
      case I32(i) => IntAt(i, 4, rest);
      case F32(bits) => UintAt(bits, 4, rest);
      case Bool(on) => BitAt(on, rest);
      case Str(s) =>
        StringReads(text, s);
        ReadsHere(ParseString(text), EncString(s), s, rest);
      case Arr(items) => ArrayReads(text, items, rest);
      case U64(u) => UintAt(u, 8, rest);
      case I64(i) => IntAt(i, 8, rest);
      case F64(bits) => UintAt(bits, 8, rest);
    }
  }

  lemma UintAt(u: nat, n: nat, rest: seq<Byte>)
    requires FitsUint(u, n)
    ensures ParseUint(n)(Le(u, n) + rest) == Ok(Taken(u, n))
  {
    hide ParseUint;
    UintReads(u, n);
    ReadsHere(ParseUint(n), Le(u, n), u, rest);
  }

  lemma BitAt(on: bool, rest: seq<Byte>)
    ensures var bit: nat := if on then 1 else 0; ParseUint(1)(Le(bit, 1) + rest) == Ok(Taken(bit, 1))
  {
    UintAt(if on then 1 else 0, 1, rest);
  }

  lemma IntAt(i: int, n: nat, rest: seq<Byte>)
    requires FitsInt(i, n)
    ensures ParseInt(n)(EncInt(n)(i) + rest) == Ok(Taken(i, |EncInt(n)(i)|))
  {
    hide ParseInt, EncInt;
    IntReads(i, n);
    ReadsHere(ParseInt(n), EncInt(n)(i), i, rest);
  }

  lemma KvReads(text: Text, kv: Kv)
    requires FitsKv(text, kv)
    ensures Reads(ParseKv(text), EncKv(kv), kv)
  {
    hide Le, FromLe, ParseString, EncString, ParseValue, EncValue, FitsValue, FitsString;
    var key, id, val := EncString(kv.key), Le(TypeId(kv.value), 4), EncValue(kv.value);
    forall rest
      ensures ParseKv(text)(EncKv(kv) + rest) == Ok(Taken(kv, |EncKv(kv)|))
    {
      var b := EncKv(kv) + rest;
      var k := |key|;
      assert b == key + (id + val + rest);
      StringReads(text, kv.key);
      ReadsHere(ParseString(text), key, kv.key, id + val + rest);
      assert b[k..k + 4] == id && b[k + 4..] == val + rest;
      LeRoundTrip(TypeId(kv.value), 4);
      ValueReads(text, kv.value, rest);
    }
  }

  lemma IdsInvert(ty: Ggml)
    ensures GgmlOf(IdOf(ty)) == Some(ty) && FitsUint(IdOf(ty), 4)
  {
  }

  lemma {:induction false} EachWidth<T>(enc: T -> seq<Byte>, items: seq<T>, w: nat)
    requires forall x :: x in items ==> |enc(x)| == w
    ensures |Each(enc, items)| == w * |items|
  {
    if items != [] {
      var n := |items| - 1;
      EachWidth(enc, items[..n], w);
      assert Each(enc, items) == Each(enc, items[..n]) + enc(items[n]);
      hide Each;
      assert w * (n + 1) == w * n + w;
    }
  }

  lemma DescTailReads(d: Desc, rest: seq<Byte>)
    requires FitsUint(|d.shape|, 4) && FitsUint(d.offset, 8)
    requires forall k :: 0 <= k < |d.shape| ==> FitsUint(d.shape[k], 8)
    ensures var tail := Le(|d.shape|, 4) + Each(EncUint(8), d.shape) + Le(IdOf(d.ty), 4) + Le(d.offset, 8);
            ParseDescTail(d.name, tail + rest) == Ok(Taken(d, |tail|))
  {
    hide Le, FromLe, Each, Many, ParseUint, FitsUint, GgmlOf, IdOf;
    var n, dims, id, off := Le(|d.shape|, 4), Each(EncUint(8), d.shape), Le(IdOf(d.ty), 4), Le(d.offset, 8);
    var b := n + dims + id + off + rest;
    var at := 4 + |dims|;
    EachWidth(EncUint(8), d.shape, 8);
    LeRoundTrips(|d.shape|, 4);
    LeRoundTrips(IdOf(d.ty), 4);
    LeRoundTrips(d.offset, 8);
    IdsInvert(d.ty);
    assert b[..4] == n && b[4..] == dims + (id + off + rest);
    UintsRead(d.shape, 8, id + off + rest);
    assert b[at..at + 4] == id && b[at + 4..at + 12] == off;
  }

  lemma LeRoundTrips(v: nat, n: nat)
    ensures FitsUint(v, n) ==> FromLe(Le(v, n)) == v
  {
    if FitsUint(v, n) {
      LeRoundTrip(v, n);
    }
  }

  lemma DescReads(text: Text, d: Desc)
    requires FitsDesc(text, d)
    ensures Reads(ParseDesc(text), EncDesc(d), d)
  {
    hide Le, FromLe, ParseString, EncString, ParseDescTail, Each, FitsString, FitsUint, IdOf;
    var name := EncString(d.name);
    var tail := Le(|d.shape|, 4) + Each(EncUint(8), d.shape) + Le(IdOf(d.ty), 4) + Le(d.offset, 8);
    assert EncDesc(d) == name + tail;
    forall rest
      ensures ParseDesc(text)(EncDesc(d) + rest) == Ok(Taken(d, |EncDesc(d)|))
    {
      var b := EncDesc(d) + rest;
      assert b == name + (tail + rest);
      StringReads(text, d.name);
      ReadsHere(ParseString(text), name, d.name, tail + rest);
      assert b[|name|..] == tail + rest;
      DescTailReads(d, rest);
    }
  }

  lemma HeaderReads(tensors: nat, metadata: nat, rest: seq<Byte>)
    requires FitsUint(tensors, 8) && FitsUint(metadata, 8)
    ensures ParseHeader(EncHeader(tensors, metadata) + rest) == Ok(Taken(Header(VERSION, tensors, metadata), 24))
  {
    hide Le, FromLe;
    var b := EncHeader(tensors, metadata) + rest;
    assert b[..4] == MAGIC && b[4..8] == Le(VERSION, 4) && b[8..16] == Le(tensors, 8) && b[16..24] == Le(metadata, 8);
    LeRoundTrip(VERSION, 4);
    LeRoundTrip(tensors, 8);
    LeRoundTrip(metadata, 8);
  }

  // ---------------------------------------------------------------- the format's numbers

  /** The numbers the format assigns: magic and version, the value and element types, the tensor types. With the lemmas
      above, the parser reads exactly these. */
  lemma FormatNumbers(tensors: nat, metadata: nat)
    ensures EncHeader(tensors, metadata) == [71, 71, 85, 70] + Le(3, 4) + Le(tensors, 8) + Le(metadata, 8)
    ensures TypeId(U8(0)) == 0 && TypeId(I8(0)) == 1 && TypeId(U16(0)) == 2 && TypeId(I16(0)) == 3
    ensures TypeId(U32(0)) == 4 && TypeId(I32(0)) == 5 && TypeId(F32(0)) == 6 && TypeId(Bool(true)) == 7
    ensures TypeId(Str([])) == 8 && TypeId(Arr(Strs([]))) == 9 && TypeId(U64(0)) == 10 && TypeId(I64(0)) == 11
    ensures TypeId(F64(0)) == 12
    ensures ElemType(U32s([])) == 4 && ElemType(I32s([])) == 5 && ElemType(F32s([])) == 6 && ElemType(Strs([])) == 8
    ensures ElemType(U64s([])) == 10
    ensures GgmlOf(0) == Some(GF32) && GgmlOf(1) == Some(GF16) && GgmlOf(2) == Some(GQ4_0)
    ensures GgmlOf(3) == Some(GQ4_1) && GgmlOf(14) == Some(GQ6_K) && GgmlOf(30) == Some(GBF16)
  {
    hide Le;
  }

  /** A string goes behind its length in eight bytes, an array behind its element type in four and its count in eight, a
      key's value behind its type in four. */
  lemma FormatOrder(kv: Kv, items: Items, d: Desc)
    ensures EncKv(kv) == Le(|kv.key|, 8) + kv.key + (Le(TypeId(kv.value), 4) + EncValue(kv.value))
    ensures EncValue(Arr(items)) == Le(ElemType(items), 4) + (Le(Count(items), 8) + EncElements(items))
    ensures EncDesc(d) == Le(|d.name|, 8) + d.name
                          + (Le(|d.shape|, 4) + Each(EncUint(8), d.shape) + (Le(IdOf(d.ty), 4) + Le(d.offset, 8)))
  {
    hide Le, Each, EncElements;
  }
}
