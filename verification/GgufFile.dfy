/** Whole GGUF files: the writer's layout with its padding, the loader's scan and alignment, and their round trip. */
module GgufFile {
  import opened Basics
  import opened Gguf

  /** A tensor to write: its descriptor without the offset, and its encoded data. */
  datatype Source = Source(name: seq<Byte>, shape: seq<nat>, ty: Ggml, data: seq<Byte>)

  datatype Tensor = Tensor(desc: Desc, data: seq<Byte>)

  datatype Loaded = Loaded(metadata: map<seq<Byte>, Value>, tensors: map<seq<Byte>, Tensor>)

  // ---------------------------------------------------------------- alignment

  function Pad(n: nat): nat {
    (ALIGN - n % ALIGN) % ALIGN
  }

  /** `(n + 31) & !31`. */
  function Aligned(n: nat): nat {
    (n + (ALIGN - 1)) / ALIGN * ALIGN
  }

  /** The loader's rounding lands where the writer's padding ends. */
  lemma PadAligns(n: nat)
    ensures n + Pad(n) == Aligned(n)
    ensures Aligned(n) % 32 == 0 && n <= Aligned(n) < n + 32
  {
  }

  lemma PadLands(n: nat)
    ensures n + Pad(n) == Aligned(n)
  {
    PadAligns(n);
  }

  function Zeros(n: nat): (z: seq<Byte>)
    ensures |z| == n
  {
    seq(n, _ => 0)
  }

  function Padded(b: seq<Byte>): seq<Byte> {
    b + Zeros(Pad(|b|))
  }

  // ---------------------------------------------------------------- the writer

  /** The data section after the first `k` tensors. */
  function Blob(tensors: seq<Source>, k: nat): seq<Byte>
    requires k <= |tensors|
  {
    if k == 0 then [] else Padded(Blob(tensors, k - 1)) + tensors[k - 1].data
  }

  function Offset(tensors: seq<Source>, k: nat): nat
    requires k <= |tensors|
  {
    |Padded(Blob(tensors, k))|
  }

  function DescOf(tensors: seq<Source>, k: nat): Desc
    requires k < |tensors|
  {
    Desc(tensors[k].name, tensors[k].shape, tensors[k].ty, Offset(tensors, k))
  }

  function Descs(tensors: seq<Source>): (ds: seq<Desc>)
    ensures |ds| == |tensors| && forall k :: 0 <= k < |tensors| ==> ds[k] == DescOf(tensors, k)
  {
    seq(|tensors|, k requires 0 <= k < |tensors| => DescOf(tensors, k))
  }

  function Front(kvs: seq<Kv>, tensors: seq<Source>): seq<Byte> {
    EncHeader(|tensors|, |kvs|) + Each(EncKv, kvs) + Each(EncDesc, Descs(tensors))
  }

  function FileBytes(kvs: seq<Kv>, tensors: seq<Source>): seq<Byte> {
    Padded(Front(kvs, tensors)) + Blob(tensors, |tensors|)
  }

  /** `append_data_with_alignment`. */
  method AppendAligned(blob: seq<Byte>, data: seq<Byte>) returns (grown: seq<Byte>, off: nat)
    ensures grown == Padded(blob) + data && off == |Padded(blob)|
  {
    grown := blob;
    while |grown| % ALIGN != 0
      invariant |blob| <= |grown| <= |blob| + Pad(|blob|)
      invariant grown == blob + Zeros(|grown| - |blob|)
      decreases |blob| + Pad(|blob|) - |grown|
    {
      PadEnds(|blob|, |grown|);
      grown := grown + [0];
    }
    PadEnds(|blob|, |grown|);
    off := |grown|;
    grown := grown + data;
  }

  lemma PadEnds(n: nat, m: nat)
    requires n <= m <= n + Pad(n)
    ensures m % ALIGN == 0 <==> m == n + Pad(n)
  {
  }

  method WriteMeta(kvs: seq<Kv>) returns (meta: seq<Byte>)
    ensures meta == Each(EncKv, kvs)
  {
    hide EncKv;
    meta := [];
    for k := 0 to |kvs|
      invariant meta == Each(EncKv, kvs[..k])
    {
      EachStep(EncKv, kvs, k);
      meta := meta + EncKv(kvs[k]);
    }
    assert kvs[..|kvs|] == kvs;
  }

  /** Each tensor's data is appended first; its descriptor records where it landed. */
  method WriteTensors(tensors: seq<Source>) returns (descs: seq<Byte>, blob: seq<Byte>)
    ensures descs == Each(EncDesc, Descs(tensors)) && blob == Blob(tensors, |tensors|)
  {
    hide EncDesc, Padded;
    descs, blob := [], [];
    ghost var ds := Descs(tensors);
    for k := 0 to |tensors|
      invariant blob == Blob(tensors, k) && descs == Each(EncDesc, ds[..k])
    {
      var t := tensors[k];
      var off;
      blob, off := AppendAligned(blob, t.data);
      EachStep(EncDesc, ds, k);
      descs := descs + EncDesc(Desc(t.name, t.shape, t.ty, off));
    }
    assert ds[..|tensors|] == ds;
  }

  method WriteFile(kvs: seq<Kv>, tensors: seq<Source>) returns (file: seq<Byte>)
    ensures file == FileBytes(kvs, tensors)
  {
    hide EncKv, EncDesc, Each, Blob, Padded, EncHeader;
    var meta := WriteMeta(kvs);
    var descs, blob := WriteTensors(tensors);
    var head := EncHeader(|tensors|, |kvs|);
    var before := |head| + |meta| + |descs|;
    PadIs(head + meta + descs);
    file := head + meta + descs + Zeros(Pad(before)) + blob;
  }

  lemma PadIs(b: seq<Byte>)
    ensures Padded(b) == b + Zeros(Pad(|b|))
  {
  }

  lemma EachStep<T>(enc: T -> seq<Byte>, items: seq<T>, k: nat)
    requires k < |items|
    ensures Each(enc, items[..k + 1]) == Each(enc, items[..k]) + enc(items[k])
  {
    assert items[..k + 1][..k] == items[..k];
  }

  // ---------------------------------------------------------------- the loader

  function Total(shape: seq<nat>): nat {
    if shape == [] then 1 else Total(shape[..|shape| - 1]) * shape[|shape| - 1]
  }

  function InBlocks(total: nat, block: Positive, bytes: nat): Result<nat, Fault> {
    if total % block != 0 then Err(BadShape) else Ok(total / block * bytes)
  }

  /** `gguf_tensor_bytes`. */
  function TensorBytes(shape: seq<nat>, ty: Ggml): Result<nat, Fault> {
    match ty
    case GF32 => Ok(Total(shape) * 4)
    case GF16 => Ok(Total(shape) * 2)
    case GBF16 => Ok(Total(shape) * 2)
    case GQ4_0 => InBlocks(Total(shape), 32, 18)
    case GQ4_1 => InBlocks(Total(shape), 32, 20)
    case GQ6_K => InBlocks(Total(shape), 256, 210)
  }

  type Names = seq<Byte> -> Option<seq<Byte>>

  /** The lookup table after the first `k` descriptors; names the loader does not know are skipped. */
  function Table(hf: Names, bytes: seq<Byte>, start: nat, ds: seq<Desc>, k: nat)
    : Result<map<seq<Byte>, Tensor>, Fault>
    requires k <= |ds|
  {
    if k == 0 then Ok(map[])
    else
      match Table(hf, bytes, start, ds, k - 1)
      case Err(e) => Err(e)
      case Ok(m) => TableStep(hf, bytes, start, ds[k - 1], m)
  }

  function TableStep(hf: Names, bytes: seq<Byte>, start: nat, d: Desc, m: map<seq<Byte>, Tensor>)
    : Result<map<seq<Byte>, Tensor>, Fault>
  {
    match hf(d.name)
    case None => Ok(m)
    case Some(name) =>
      match TensorBytes(d.shape, d.ty)
      case Err(e) => Err(e)
      case Ok(size) =>
        var off := start + d.offset;
        if off + size > |bytes| then Err(PastEnd) else Ok(m[name := Tensor(d, bytes[off..off + size])])
  }

  function KvMap(kvs: seq<Kv>): map<seq<Byte>, Value> {
    if kvs == [] then map[] else KvMap(kvs[..|kvs| - 1])[kvs[|kvs| - 1].key := kvs[|kvs| - 1].value]
  }

  function LoadSpec(text: Text, hf: Names, bytes: seq<Byte>): Result<Loaded, Fault> {
    match ParseHeader(bytes)
    case Err(e) => Err(e)
    case Ok(h) =>
      match Many(ParseKv(text), bytes[24..], h.value.metadata)
      case Err(e) => Err(e)
      case Ok(kvs) => LoadTensors(text, hf, bytes, h.value.tensors, 24 + kvs.used, kvs.value)
  }

  function LoadTensors(text: Text, hf: Names, bytes: seq<Byte>, count: nat, at: nat, kvs: seq<Kv>)
    : Result<Loaded, Fault>
  {
    if at > |bytes| then Err(Truncated)
    else
      match Many(ParseDesc(text), bytes[at..], count)
      case Err(e) => Err(e)
      case Ok(ds) =>
        match Table(hf, bytes, Aligned(at + ds.used), ds.value, |ds.value|)
        case Err(e) => Err(e)
        case Ok(m) => Ok(Loaded(KvMap(kvs), m))
  }

  method LoadGguf(text: Text, hf: Names, bytes: seq<Byte>) returns (r: Result<Loaded, Fault>)
    ensures r == LoadSpec(text, hf, bytes)
  {
    hide ParseHeader, ParseKv, ParseDesc, Many, TableStep;
    var h := ParseHeader(bytes);
    if h.Err? {
      return Err(h.error);
    }
    HeaderTakes24(bytes);
    var cursor := h.value.used;
    var kvs := Repeat(ParseKv(text), bytes[cursor..], h.value.value.metadata);
    if kvs.Err? {
      return Err(kvs.error);
    }
    var metadata: map<seq<Byte>, Value> := map[];
    for k := 0 to |kvs.value.value|
      invariant metadata == KvMap(kvs.value.value[..k])
    {
      assert kvs.value.value[..k + 1][..k] == kvs.value.value[..k];
      metadata := metadata[kvs.value.value[k].key := kvs.value.value[k].value];
    }
    assert kvs.value.value[..|kvs.value.value|] == kvs.value.value;
    cursor := cursor + kvs.value.used;
    if cursor > |bytes| {
      return Err(Truncated);
    }
    var descs := Repeat(ParseDesc(text), bytes[cursor..], h.value.value.tensors);
    if descs.Err? {
      return Err(descs.error);
    }
    cursor := Aligned(cursor + descs.value.used);
    var table := BuildTable(hf, bytes, cursor, descs.value.value);
    if table.Err? {
      return Err(table.error);
    }
    return Ok(Loaded(metadata, table.value));
  }

  lemma HeaderTakes24(bytes: seq<Byte>)
    ensures ParseHeader(bytes).Ok? ==> ParseHeader(bytes).value.used == 24 <= |bytes|
  {
  }

  method BuildTable(hf: Names, bytes: seq<Byte>, start: nat, ds: seq<Desc>)
      returns (r: Result<map<seq<Byte>, Tensor>, Fault>)
    ensures r == Table(hf, bytes, start, ds, |ds|)
  {
    hide TensorBytes;
    var m: map<seq<Byte>, Tensor> := map[];
    for k := 0 to |ds|
      invariant Table(hf, bytes, start, ds, k) == Ok(m)
    {
      var name := hf(ds[k].name);
      if name == None {
        continue;
      }
      var size := TensorBytes(ds[k].shape, ds[k].ty);
      if size.Err? {
        TableStops(hf, bytes, start, ds, k + 1, |ds|);
        return Err(size.error);
      }
      var off := start + ds[k].offset;
      if off + size.value > |bytes| {
        TableStops(hf, bytes, start, ds, k + 1, |ds|);
        return Err(PastEnd);
      }
      m := m[name.value := Tensor(ds[k], bytes[off..off + size.value])];
    }
    return Ok(m);
  }

  lemma {:induction false} TableStops(hf: Names, bytes: seq<Byte>, start: nat, ds: seq<Desc>, k: nat, n: nat)
    requires k <= n <= |ds| && Table(hf, bytes, start, ds, k).Err?
    ensures Table(hf, bytes, start, ds, n) == Table(hf, bytes, start, ds, k)
    decreases n
  {
    if k < n {
      TableStops(hf, bytes, start, ds, k, n - 1);
    }
  }

  // ---------------------------------------------------------------- round trip

  /** What the format can hold: text keys and names, sizes within their fields, data as long as the descriptor says. */
  predicate Writable(text: Text, kvs: seq<Kv>, tensors: seq<Source>) {
    && FitsUint(|kvs|, 8) && FitsUint(|tensors|, 8)
    && (forall k :: 0 <= k < |kvs| ==> FitsKv(text, kvs[k]))
    && (forall k :: 0 <= k < |tensors| ==> FitsDesc(text, DescOf(tensors, k)))
    && (forall k :: 0 <= k < |tensors| ==> TensorBytes(tensors[k].shape, tensors[k].ty) == Ok(|tensors[k].data|))
  }

  /** What the loader must find: the last known tensor under each name, with its own data. */
  function Expected(hf: Names, tensors: seq<Source>, k: nat): map<seq<Byte>, Tensor>
    requires k <= |tensors|
  {
    if k == 0 then map[]
    else
      var m := Expected(hf, tensors, k - 1);
      match hf(tensors[k - 1].name)
      case None => m
      case Some(name) => m[name := Tensor(DescOf(tensors, k - 1), tensors[k - 1].data)]
  }

  /** The last place among the first `n` at which key `x` is written. */
  function LastKey(kvs: seq<Kv>, n: nat, x: seq<Byte>): (k: Option<nat>)
    requires n <= |kvs|
    ensures k.Some? ==> k.value < n && kvs[k.value].key == x && forall t :: k.value < t < n ==> kvs[t].key != x
    ensures k.None? ==> forall t :: 0 <= t < n ==> kvs[t].key != x
  {
    if n == 0 then None else if kvs[n - 1].key == x then Some(n - 1) else LastKey(kvs, n - 1, x)
  }

  /** The last place among the first `n` of a tensor that the loader knows as `x`. */
  function LastNamed(hf: Names, tensors: seq<Source>, n: nat, x: seq<Byte>): (k: Option<nat>)
    requires n <= |tensors|
    ensures k.Some? ==> k.value < n && hf(tensors[k.value].name) == Some(x)
    ensures k.Some? ==> forall t :: k.value < t < n ==> hf(tensors[t].name) != Some(x)
    ensures k.None? ==> forall t :: 0 <= t < n ==> hf(tensors[t].name) != Some(x)
  {
    if n == 0 then None
    else if hf(tensors[n - 1].name) == Some(x) then Some(n - 1)
    else LastNamed(hf, tensors, n - 1, x)
  }

  /** The table holds exactly the keys written, each with the value written last for it. */
  ghost predicate KeysKept(kvs: seq<Kv>, m: map<seq<Byte>, Value>) {
    forall x ::
      var k := LastKey(kvs, |kvs|, x);
      (x in m <==> k.Some?) && (x in m ==> m[x] == kvs[k.value].value)
  }

  /** The table holds exactly the names known to the loader, each with the descriptor and the data of the last tensor of
      that name. */
  ghost predicate TensorsKept(hf: Names, tensors: seq<Source>, m: map<seq<Byte>, Tensor>) {
    forall x ::
      var k := LastNamed(hf, tensors, |tensors|, x);
      (x in m <==> k.Some?) && (x in m ==> m[x] == Tensor(DescOf(tensors, k.value), tensors[k.value].data))
  }

  lemma {:induction false} KeyFound(kvs: seq<Kv>, n: nat, x: seq<Byte>)
    requires n <= |kvs|
    ensures var (k, m) := (LastKey(kvs, n, x), KvMap(kvs[..n]));
            (x in m <==> k.Some?) && (x in m ==> m[x] == kvs[k.value].value)
    decreases n
  {
    if n > 0 {
      KeyFound(kvs, n - 1, x);
      assert kvs[..n][..n - 1] == kvs[..n - 1];
    }
  }

  lemma EveryKeyFound(kvs: seq<Kv>)
    ensures KeysKept(kvs, KvMap(kvs))
  {
    hide LastKey, KvMap;
    assert kvs[..|kvs|] == kvs;
    forall x: seq<Byte> {
      KeyFound(kvs, |kvs|, x);
    }
  }

  lemma {:induction false} TensorFound(hf: Names, tensors: seq<Source>, n: nat, x: seq<Byte>)
    requires n <= |tensors|
    ensures var (k, m) := (LastNamed(hf, tensors, n, x), Expected(hf, tensors, n));
            (x in m <==> k.Some?) && (x in m ==> m[x] == Tensor(DescOf(tensors, k.value), tensors[k.value].data))
    decreases n
  {
    hide DescOf;
    if n > 0 {
      TensorFound(hf, tensors, n - 1, x);
    }
  }

  /** Every tensor the loader has a name for is found, with its own descriptor and its own data. */
  lemma EveryTensorFound(hf: Names, tensors: seq<Source>)
    ensures TensorsKept(hf, tensors, Expected(hf, tensors, |tensors|))
  {
    hide LastNamed, Expected;
    forall x: seq<Byte> {
      TensorFound(hf, tensors, |tensors|, x);
    }
  }

  lemma {:induction false} BlobGrows(tensors: seq<Source>, k: nat, n: nat)
    requires k <= n <= |tensors|
    ensures Blob(tensors, k) <= Blob(tensors, n)
    decreases n
  {
    if k < n {
      BlobGrows(tensors, k, n - 1);
    }
  }

  /** A tensor's data sits at its offset in the finished data section. */
  lemma DataAtOffset(tensors: seq<Source>, k: nat)
    requires k < |tensors|
    ensures var (blob, off) := (Blob(tensors, |tensors|), Offset(tensors, k));
            && off % 32 == 0 && off + |tensors[k].data| <= |blob|
            && blob[off..off + |tensors[k].data|] == tensors[k].data
  {
    PadAligns(|Blob(tensors, k)|);
    assert Offset(tensors, k) % 32 == 0;
    hide Padded;
    BlobGrows(tensors, k + 1, |tensors|);
    var (blob, part) := (Blob(tensors, |tensors|), Blob(tensors, k + 1));
    assert part == Padded(Blob(tensors, k)) + tensors[k].data;
    assert blob[..|part|] == part;
  }

  lemma {:induction false} TableFinds(text: Text, hf: Names, head: seq<Byte>, kvs: seq<Kv>, tensors: seq<Source>,
                                      k: nat)
    requires Writable(text, kvs, tensors) && k <= |tensors|
    ensures Table(hf, head + Blob(tensors, |tensors|), |head|, Descs(tensors), k) == Ok(Expected(hf, tensors, k))
    decreases k
  {
    hide TensorBytes, Blob, Offset, FitsKv, FitsDesc;
    if k > 0 {
      TableFinds(text, hf, head, kvs, tensors, k - 1);
      assert Descs(tensors)[k - 1] == DescOf(tensors, k - 1);
      DataAtOffset(tensors, k - 1);
      SliceBehind(head, Blob(tensors, |tensors|), DescOf(tensors, k - 1).offset, |tensors[k - 1].data|);
    }
  }

  lemma SliceBehind(head: seq<Byte>, blob: seq<Byte>, off: nat, size: nat)
    requires off + size <= |blob|
    ensures (head + blob)[|head| + off..|head| + off + size] == blob[off..off + size]
  {
  }

  /** Loading what was written: every key with its value, every known tensor with its descriptor and exactly its bytes,
      and nothing else. */
  lemma FileRoundTrip(text: Text, hf: Names, kvs: seq<Kv>, tensors: seq<Source>)
    requires Writable(text, kvs, tensors)
    ensures LoadSpec(text, hf, FileBytes(kvs, tensors))
         == Ok(Loaded(KvMap(kvs), Expected(hf, tensors, |tensors|)))
    ensures KeysKept(kvs, KvMap(kvs)) && TensorsKept(hf, tensors, Expected(hf, tensors, |tensors|))
  {
    EveryKeyFound(kvs);
    EveryTensorFound(hf, tensors);
    hide ParseHeader, ParseKv, ParseDesc, Many, Reads, EncKv, EncDesc, EncHeader, Each, Table, FitsKv, FitsDesc, KvMap,
      Expected, Blob, FitsUint, TensorBytes, DescOf, Pad, Aligned, Zeros, KeysKept, TensorsKept;
    var file := FileBytes(kvs, tensors);
    var head, meta, descs := EncHeader(|tensors|, |kvs|), Each(EncKv, kvs), Each(EncDesc, Descs(tensors));
    var front := Front(kvs, tensors);
    var pad, blob := Zeros(Pad(|front|)), Blob(tensors, |tensors|);
    Sections(head, meta, descs, pad, blob);
    HeaderReads(|tensors|, |kvs|, meta + (descs + (pad + blob)));
    AllKvsRead(text, kvs, descs + (pad + blob));
    TensorsLoad(text, hf, kvs, tensors);
  }

  /** The part after the metadata. */
  lemma TensorsLoad(text: Text, hf: Names, kvs: seq<Kv>, tensors: seq<Source>)
    requires Writable(text, kvs, tensors)
    ensures LoadTensors(text, hf, FileBytes(kvs, tensors), |tensors|, 24 + |Each(EncKv, kvs)|, kvs)
         == Ok(Loaded(KvMap(kvs), Expected(hf, tensors, |tensors|)))
  {
    hide ParseDesc, Many, Reads, EncKv, EncDesc, EncHeader, Each, Table, FitsKv, FitsDesc, KvMap, Expected, Blob,
      FitsUint, TensorBytes, DescOf, Pad, Aligned, Zeros, Writable, Descs;
    var head, meta, descs := EncHeader(|tensors|, |kvs|), Each(EncKv, kvs), Each(EncDesc, Descs(tensors));
    var front := Front(kvs, tensors);
    var pad, blob := Zeros(Pad(|front|)), Blob(tensors, |tensors|);
    Sections(head, meta, descs, pad, blob);
    AllDescsRead(text, kvs, tensors, pad + blob);
    PadLands(|front|);
    TableFinds(text, hf, Padded(front), kvs, tensors, |tensors|);
  }

  lemma Sections(head: seq<Byte>, meta: seq<Byte>, descs: seq<Byte>, pad: seq<Byte>, blob: seq<Byte>)
    ensures var file := head + meta + descs + pad + blob;
            && file == head + (meta + (descs + (pad + blob)))
            && file[|head|..] == meta + (descs + (pad + blob))
            && file[|head| + |meta|..] == descs + (pad + blob)
  {
    var file := head + meta + descs + pad + blob;
    assert file == head + (meta + (descs + (pad + blob)));
    assert file == (head + meta) + (descs + (pad + blob));
  }

  lemma AllKvsRead(text: Text, kvs: seq<Kv>, rest: seq<Byte>)
    requires forall k :: 0 <= k < |kvs| ==> FitsKv(text, kvs[k])
    ensures Many(ParseKv(text), Each(EncKv, kvs) + rest, |kvs|) == Ok(Taken(kvs, |Each(EncKv, kvs)|))
  {
    hide Reads, Many, ParseKv, EncKv, Each, FitsKv;
    forall k | 0 <= k < |kvs|
      ensures Reads(ParseKv(text), EncKv(kvs[k]), kvs[k])
    {
      KvReads(text, kvs[k]);
    }
    ManyReads(ParseKv(text), EncKv, kvs, rest);
  }

  lemma AllDescsRead(text: Text, kvs: seq<Kv>, tensors: seq<Source>, rest: seq<Byte>)
    requires Writable(text, kvs, tensors)
    ensures var ds := Descs(tensors);
            Many(ParseDesc(text), Each(EncDesc, ds) + rest, |tensors|) == Ok(Taken(ds, |Each(EncDesc, ds)|))
  {
    hide Reads, Many, ParseDesc, EncDesc, Each, FitsDesc, FitsKv, TensorBytes, DescOf;
    var ds := Descs(tensors);
    forall k | 0 <= k < |ds|
      ensures Reads(ParseDesc(text), EncDesc(ds[k]), ds[k])
    {
      DescReads(text, ds[k]);
    }
    ManyReads(ParseDesc(text), EncDesc, ds, rest);
  }
}
