/**
 * Structured event logs: the `LogType` codec, the key-equality check, the
 * five event records with their serialized layout, the type dispatch of
 * `decode_ray_log` and the output-buffer sizing of `encode_ray_log`.
 *
 * Records are serialized the way bincode's default (fixed-width,
 * little-endian) encoding lays out a struct: each field in declaration
 * order, `u8` as one byte, `u64` as eight, `u128` as sixteen, a `Pubkey` as
 * its 32 raw bytes, with nothing in between.
 */
module RayLog {
  import opened Wrappers
  import opened Solana

  /** `LOG_SIZE`: the capacity of the formatted log line. */
  const LOG_SIZE: nat := 256

  /** The prefix `encode_ray_log` puts before the encoded record. */
  const RAY_LOG_PREFIX: string := "ray_log: "

  // ---------------------------------------------------------------------
  // Key check
  // ---------------------------------------------------------------------

  /**
   * `check_assert_eq!`: returns `err` from the enclosing function when the
   * two values differ and lets it continue (`Ok`) when they are equal. The
   * mismatch message it logs is not modelled.
   */
  function CheckAssertEq<T(==), E>(input: T, expected: T, err: E): (r: Result<(), E>)
    ensures r.Err? <==> input != expected
    ensures r.Err? ==> r.error == err
  {
    if input != expected then Err(err) else Ok(())
  }

  // ---------------------------------------------------------------------
  // Log types
  // ---------------------------------------------------------------------

  datatype LogType = Init | Deposit | Withdraw | SwapBaseIn | SwapBaseOut

  /** `LogType::into_u8`. */
  function IntoU8(t: LogType): (code: u8)
    ensures code <= 4
  {
    match t
    case Init => 0
    case Deposit => 1
    case Withdraw => 2
    case SwapBaseIn => 3
    case SwapBaseOut => 4
  }

  /** `LogType::from_u8`; every code above 4 is `unreachable!()`. */
  function FromU8(logType: u8): (t: LogType)
    requires logType <= 4
    ensures IntoU8(t) == logType
  {
    match logType
    case 0 => Init
    case 1 => Deposit
    case 2 => Withdraw
    case 3 => SwapBaseIn
    case 4 => SwapBaseOut
  }

  /** Decoding an encoded type gives the type back, and distinct types have distinct codes. */
  lemma LogTypeRoundTrip(t: LogType, other: LogType)
    ensures FromU8(IntoU8(t)) == t
    ensures IntoU8(t) == IntoU8(other) <==> t == other
  {
  }

  // ---------------------------------------------------------------------
  // Little-endian integers
  // ---------------------------------------------------------------------

  function Pow256(n: nat): (p: nat)
    ensures p > 0
  {
    if n == 0 then 1 else 256 * Pow256(n - 1)
  }

  /** The `n` low bytes of `x`, least significant first. */
  function LeBytes(x: nat, n: nat): (bytes: seq<u8>)
    ensures |bytes| == n
  {
    if n == 0 then [] else [(x % 256) as u8] + LeBytes(x / 256, n - 1)
  }

  /** The number whose little-endian bytes are `bytes`. */
  function LeValue(bytes: seq<u8>): (x: nat)
    ensures x < Pow256(|bytes|)
  {
    if bytes == [] then 0 else bytes[0] as nat + 256 * LeValue(bytes[1..])
  }

  lemma {:induction false} LeRoundTrip(x: nat, n: nat)
    requires x < Pow256(n)
    ensures LeValue(LeBytes(x, n)) == x
  {
    if n > 0 {
      LeRoundTrip(x / 256, n - 1);
      assert LeBytes(x, n)[1..] == LeBytes(x / 256, n - 1);
    }
  }

  lemma WidthBounds()
    ensures Pow256(1) == 0x100
    ensures Pow256(8) == 0x1_0000_0000_0000_0000
    ensures Pow256(16) == 0x1_0000_0000_0000_0000_0000_0000_0000_0000
  {
  }

  // ---------------------------------------------------------------------
  // Field layout
  // ---------------------------------------------------------------------

  /** One serialized struct field. */
  datatype Field = U8Field(b: u8) | U64Field(v: u64) | U128Field(w: u128) | KeyField(k: Pubkey)

  /** The type of a field, which fixes its width. */
  datatype Width = W8 | W64 | W128 | WKey

  function WidthOf(f: Field): Width
  {
    match f
    case U8Field(_) => W8
    case U64Field(_) => W64
    case U128Field(_) => W128
    case KeyField(_) => WKey
  }

  function ByteCount(w: Width): nat
  {
    match w
    case W8 => 1
    case W64 => 8
    case W128 => 16
    case WKey => 32
  }

  function Shape(fields: seq<Field>): (shape: seq<Width>)
    ensures |shape| == |fields| && forall i :: 0 <= i < |fields| ==> shape[i] == WidthOf(fields[i])
  {
    seq(|fields|, i requires 0 <= i < |fields| => WidthOf(fields[i]))
  }

  function ShapeSize(shape: seq<Width>): nat
  {
    if shape == [] then 0 else ByteCount(shape[0]) + ShapeSize(shape[1..])
  }

  function EncodeField(f: Field): (bytes: seq<u8>)
    ensures |bytes| == ByteCount(WidthOf(f))
  {
    match f
    case U8Field(b) => [b]
    case U64Field(v) => LeBytes(v as nat, 8)
    case U128Field(w) => LeBytes(w as nat, 16)
    case KeyField(k) => k
  }

  function EncodeFields(fields: seq<Field>): (bytes: seq<u8>)
    ensures |bytes| == ShapeSize(Shape(fields))
  {
    if fields == [] then []
    else
      assert Shape(fields)[1..] == Shape(fields[1..]);
      EncodeField(fields[0]) + EncodeFields(fields[1..])
  }

  function DecodeField(w: Width, bytes: seq<u8>): (f: Field)
    requires |bytes| == ByteCount(w)
    ensures WidthOf(f) == w
  {
    WidthBounds();
    match w
    case W8 => U8Field(bytes[0])
    case W64 => U64Field(LeValue(bytes) as u64)
    case W128 => U128Field(LeValue(bytes) as u128)
    case WKey => KeyField(bytes)
  }

  /**
   * Reads the fields of `shape` from the front of `bytes`; bytes after them
   * are ignored. `None` when the input is too short.
   */
  function DecodeFields(shape: seq<Width>, bytes: seq<u8>): (r: Option<seq<Field>>)
    ensures r.Some? <==> |bytes| >= ShapeSize(shape)
    ensures r.Some? ==> Shape(r.value) == shape
  {
    if shape == [] then Some([])
    else if |bytes| < ByteCount(shape[0]) then None
    else
      var n := ByteCount(shape[0]);
      var rest := DecodeFields(shape[1..], bytes[n..]);
      if rest.None? then None
      else
        var fields := [DecodeField(shape[0], bytes[..n])] + rest.value;
        assert Shape(fields)[1..] == Shape(rest.value);
        Some(fields)
  }

  lemma {:induction false} DecodeEncodeField(f: Field)
    ensures DecodeField(WidthOf(f), EncodeField(f)) == f
  {
    WidthBounds();
    match f
    case U8Field(b) =>
    case U64Field(v) => LeRoundTrip(v as nat, 8);
    case U128Field(w) => LeRoundTrip(w as nat, 16);
    case KeyField(k) =>
  }

  /** Decoding serialized fields gives them back, whatever follows them. */
  lemma {:induction false} DecodeEncodeFields(fields: seq<Field>, rest: seq<u8>)
    ensures DecodeFields(Shape(fields), EncodeFields(fields) + rest) == Some(fields)
  {
    if fields != [] {
      var bytes := EncodeFields(fields) + rest;
      var n := ByteCount(WidthOf(fields[0]));
      assert Shape(fields)[1..] == Shape(fields[1..]);
      assert bytes[..n] == EncodeField(fields[0]);
      assert bytes[n..] == EncodeFields(fields[1..]) + rest;
      DecodeEncodeField(fields[0]);
      DecodeEncodeFields(fields[1..], rest);
      assert [fields[0]] + fields[1..] == fields;
    }
  }

  // ---------------------------------------------------------------------
  // Event records
  // ---------------------------------------------------------------------

  datatype InitLog = InitLog(
    logType: u8, time: u64, pcDecimals: u8, coinDecimals: u8, pcLotSize: u64, coinLotSize: u64,
    pcAmount: u64, coinAmount: u64, market: Pubkey)

  datatype DepositLog = DepositLog(
    logType: u8, maxCoin: u64, maxPc: u64, base: u64, poolCoin: u64, poolPc: u64, poolLp: u64,
    calcPnlX: u128, calcPnlY: u128, deductCoin: u64, deductPc: u64, mintLp: u64)

  datatype WithdrawLog = WithdrawLog(
    logType: u8, withdrawLp: u64, userLp: u64, poolCoin: u64, poolPc: u64, poolLp: u64,
    calcPnlX: u128, calcPnlY: u128, outCoin: u64, outPc: u64)

  datatype SwapBaseInLog = SwapBaseInLog(
    logType: u8, amountIn: u64, minimumOut: u64, direction: u64, userSource: u64, poolCoin: u64,
    poolPc: u64, outAmount: u64)

  datatype SwapBaseOutLog = SwapBaseOutLog(
    logType: u8, maxIn: u64, amountOut: u64, direction: u64, userSource: u64, poolCoin: u64,
    poolPc: u64, deductIn: u64)

  /** Any one of the five records, as `encode_ray_log` accepts and `decode_ray_log` produces. */
  datatype Event =
    | InitEvent(init: InitLog)
    | DepositEvent(deposit: DepositLog)
    | WithdrawEvent(withdraw: WithdrawLog)
    | SwapBaseInEvent(swapBaseIn: SwapBaseInLog)
    | SwapBaseOutEvent(swapBaseOut: SwapBaseOutLog)

  /** Which record an event holds. */
  function KindOf(e: Event): LogType
  {
    match e
    case InitEvent(_) => Init
    case DepositEvent(_) => Deposit
    case WithdrawEvent(_) => Withdraw
    case SwapBaseInEvent(_) => SwapBaseIn
    case SwapBaseOutEvent(_) => SwapBaseOut
  }

  /** The record's own `log_type` field. */
  function LogTypeField(e: Event): u8
  {
    match e
    case InitEvent(l) => l.logType
    case DepositEvent(l) => l.logType
    case WithdrawEvent(l) => l.logType
    case SwapBaseInEvent(l) => l.logType
    case SwapBaseOutEvent(l) => l.logType
  }

  /** The record's fields in declaration order. */
  function Fields(e: Event): seq<Field>
  {
    match e
    case InitEvent(l) =>
      [U8Field(l.logType), U64Field(l.time), U8Field(l.pcDecimals), U8Field(l.coinDecimals),
       U64Field(l.pcLotSize), U64Field(l.coinLotSize), U64Field(l.pcAmount), U64Field(l.coinAmount),
       KeyField(l.market)]
    case DepositEvent(l) =>
      [U8Field(l.logType), U64Field(l.maxCoin), U64Field(l.maxPc), U64Field(l.base), U64Field(l.poolCoin),
       U64Field(l.poolPc), U64Field(l.poolLp), U128Field(l.calcPnlX), U128Field(l.calcPnlY),
       U64Field(l.deductCoin), U64Field(l.deductPc), U64Field(l.mintLp)]
    case WithdrawEvent(l) =>
      [U8Field(l.logType), U64Field(l.withdrawLp), U64Field(l.userLp), U64Field(l.poolCoin), U64Field(l.poolPc),
       U64Field(l.poolLp), U128Field(l.calcPnlX), U128Field(l.calcPnlY), U64Field(l.outCoin), U64Field(l.outPc)]
    case SwapBaseInEvent(l) =>
      [U8Field(l.logType), U64Field(l.amountIn), U64Field(l.minimumOut), U64Field(l.direction),
       U64Field(l.userSource), U64Field(l.poolCoin), U64Field(l.poolPc), U64Field(l.outAmount)]
    case SwapBaseOutEvent(l) =>
      [U8Field(l.logType), U64Field(l.maxIn), U64Field(l.amountOut), U64Field(l.direction),
       U64Field(l.userSource), U64Field(l.poolCoin), U64Field(l.poolPc), U64Field(l.deductIn)]
  }

  /** The declared field types of each record, in order; `log_type: u8` comes first in every one. */
  function RecordShape(t: LogType): (shape: seq<Width>)
    ensures |shape| > 0 && shape[0] == W8
  {
    match t
    case Init => [W8, W64, W8, W8, W64, W64, W64, W64, WKey]
    case Deposit => [W8, W64, W64, W64, W64, W64, W64, W128, W128, W64, W64, W64]
    case Withdraw => [W8, W64, W64, W64, W64, W64, W128, W128, W64, W64]
    case SwapBaseIn => [W8, W64, W64, W64, W64, W64, W64, W64]
    case SwapBaseOut => [W8, W64, W64, W64, W64, W64, W64, W64]
  }

  /** The serialized size of each record. */
  lemma RecordSizes()
    ensures ShapeSize(RecordShape(Init)) == 75
    ensures ShapeSize(RecordShape(Deposit)) == 105
    ensures ShapeSize(RecordShape(Withdraw)) == 89
    ensures ShapeSize(RecordShape(SwapBaseIn)) == 57
    ensures ShapeSize(RecordShape(SwapBaseOut)) == 57
  {
  }

  /** The record rebuilt from fields of its type's shape. */
  function FromFields(t: LogType, fs: seq<Field>): (e: Event)
    requires Shape(fs) == RecordShape(t)
    ensures KindOf(e) == t
  {
    assert forall i :: 0 <= i < |fs| ==> WidthOf(fs[i]) == RecordShape(t)[i];
    match t
    case Init =>
      InitEvent(InitLog(fs[0].b, fs[1].v, fs[2].b, fs[3].b, fs[4].v, fs[5].v, fs[6].v, fs[7].v, fs[8].k))
    case Deposit =>
      DepositEvent(DepositLog(fs[0].b, fs[1].v, fs[2].v, fs[3].v, fs[4].v, fs[5].v, fs[6].v, fs[7].w, fs[8].w,
                              fs[9].v, fs[10].v, fs[11].v))
    case Withdraw =>
      WithdrawEvent(WithdrawLog(fs[0].b, fs[1].v, fs[2].v, fs[3].v, fs[4].v, fs[5].v, fs[6].w, fs[7].w,
                                fs[8].v, fs[9].v))
    case SwapBaseIn =>
      SwapBaseInEvent(SwapBaseInLog(fs[0].b, fs[1].v, fs[2].v, fs[3].v, fs[4].v, fs[5].v, fs[6].v, fs[7].v))
    case SwapBaseOut =>
      SwapBaseOutEvent(SwapBaseOutLog(fs[0].b, fs[1].v, fs[2].v, fs[3].v, fs[4].v, fs[5].v, fs[6].v, fs[7].v))
  }

  /** A record's fields follow its type's shape and rebuild the record. */
  lemma FieldsRebuild(e: Event)
    ensures Shape(Fields(e)) == RecordShape(KindOf(e))
    ensures FromFields(KindOf(e), Fields(e)) == e
  {
  }

  /** `bincode::serialize` of a record: its first byte is the record's `log_type`. */
  function Serialize(e: Event): (bytes: seq<u8>)
    ensures |bytes| == ShapeSize(RecordShape(KindOf(e)))
    ensures |bytes| > 0 && bytes[0] == LogTypeField(e)
  {
    FieldsRebuild(e);
    EncodeFields(Fields(e))
  }

  /**
   * `decode_ray_log` after base64 decoding: dispatch on the first byte,
   * then read that record from the front of the bytes. The source panics on
   * an empty input and on a first byte above 4 (the precondition) and on an
   * input too short for the record (`None`).
   */
  function DecodeRayLog(bytes: seq<u8>): (r: Option<Event>)
    requires |bytes| > 0 && bytes[0] <= 4
    ensures r.Some? <==> |bytes| >= ShapeSize(RecordShape(FromU8(bytes[0])))
    ensures r.Some? ==> KindOf(r.value) == FromU8(bytes[0]) && LogTypeField(r.value) == bytes[0]
  {
    var t := FromU8(bytes[0]);
    var fields := DecodeFields(RecordShape(t), bytes);
    if fields.None? then None
    else
      var e := FromFields(t, fields.value);
      assert LogTypeField(e) == fields.value[0].b;
      assert fields.value[0] == DecodeField(W8, bytes[..1]);
      Some(e)
  }

  /**
   * A record whose `log_type` field holds its own type's code decodes back
   * to itself, whatever bytes follow it.
   */
  lemma {:induction false} DecodeSerialized(e: Event, rest: seq<u8>)
    requires LogTypeField(e) == IntoU8(KindOf(e))
    ensures DecodeRayLog(Serialize(e) + rest) == Some(e)
  {
    FieldsRebuild(e);
    DecodeEncodeFields(Fields(e), rest);
  }

  // ---------------------------------------------------------------------
  // Encoding
  // ---------------------------------------------------------------------

  /**
   * The length of the padded standard base64 encoding of `n` bytes (section
   * 4 of RFC 4648): four characters for every started group of three bytes.
   */
  function Base64Len(n: nat): nat
  {
    4 * ((n + 2) / 3)
  }

  /** `encode_ray_log`'s first resize, `n * 4 / 3 + 4`, leaves room for the whole encoding. */
  lemma {:induction false} BufferHoldsBase64(n: nat)
    ensures Base64Len(n) <= n * 4 / 3 + 4
  {
    var q, r := n / 3, n % 3;
    assert n == 3 * q + r;
    assert n * 4 == 3 * (4 * q + r) + r;
    assert n * 4 / 3 == 4 * q + r + (r / 3);
    assert (n + 2) / 3 == q + (r + 2) / 3;
  }

  /** `Vec::resize`: truncate to `newLen`, or extend with `value`. */
  function Resize(v: seq<u8>, newLen: nat, value: u8): (r: seq<u8>)
    ensures |r| == newLen
    ensures forall i :: 0 <= i < newLen ==> r[i] == if i < |v| then v[i] else value
  {
    if newLen <= |v| then v[..newLen] else v + seq(newLen - |v|, _ => value)
  }

  /**
   * `encode_ray_log`, up to the log line. `encode` stands for
   * `base64::encode_config_slice` with the standard alphabet; it must produce
   * the RFC 4648 padded length. The result is the buffer after the second
   * resize: exactly the bytes the encoder wrote.
   */
  method EncodeRayLog(log: Event, encode: seq<u8> -> seq<u8>) returns (outBuf: seq<u8>)
    requires |encode(Serialize(log))| == Base64Len(|Serialize(log)|)
    ensures outBuf == encode(Serialize(log))
    ensures |RAY_LOG_PREFIX| + |outBuf| <= LOG_SIZE
  {
    var bytes := Serialize(log);
    outBuf := Resize([], |bytes| * 4 / 3 + 4, 0);
    var encoded := encode(bytes);
    BufferHoldsBase64(|bytes|);
    var bytesWritten := |encoded|;
    outBuf := encoded + outBuf[bytesWritten..];
    outBuf := Resize(outBuf, bytesWritten, 0);
    LogLineFits(log);
  }

  /** Every record's log line fits in `LOG_SIZE` characters. */
  lemma LogLineFits(e: Event)
    ensures |RAY_LOG_PREFIX| + Base64Len(|Serialize(e)|) <= LOG_SIZE
  {
    RecordSizes();
  }
}
