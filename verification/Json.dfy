/** A decoded JSON body and the accessors the proxy reads it with. Turning bytes
    into such a value is not part of the model: a body is either a `Json` value or
    undecodable. */
module Json {
  import opened Prelude
  import opened Wire

  /** `Num` is a number serde keeps as an integer; `Fraction` is any other number. */
  datatype Json =
    | Null
    | Bool(flag: bool)
    | Num(n: int)
    | Fraction
    | Str(s: string)
    | Arr(items: seq<Json>)
    | Obj(fields: map<string, Json>)

  /** Looking up a key: absent when the value is missing or is not an object. */
  function Field(value: Option<Json>, key: string): Option<Json> {
    match value
    case Some(Obj(fields)) => if key in fields then Some(fields[key]) else None
    case _ => None
  }

  function AsStr(value: Option<Json>): Option<string> {
    match value
    case Some(Str(s)) => Some(s)
    case _ => None
  }

  function AsI64(value: Option<Json>): Option<int> {
    match value
    case Some(Num(n)) => if -(U64_RANGE / 2) <= n < U64_RANGE / 2 then Some(n) else None
    case _ => None
  }

  function AsU64(value: Option<Json>): Option<nat> {
    match value
    case Some(Num(n)) => if 0 <= n < U64_RANGE then Some(n) else None
    case _ => None
  }

  function AsArr(value: Option<Json>): Option<seq<Json>> {
    match value
    case Some(Arr(items)) => Some(items)
    case _ => None
  }

  /** The narrowing cast to a signed 32-bit integer keeps the low 32 bits. */
  function NarrowI32(n: int): int {
    var low := n % U32_RANGE;
    if low < U32_RANGE / 2 then low else low - U32_RANGE
  }

  /** The narrowing cast to an unsigned 32-bit integer keeps the low 32 bits. */
  function NarrowU32(n: nat): nat {
    n % U32_RANGE
  }

  function ParsePosition(value: Option<Json>): Option<Position> {
    match (AsU64(Field(value, "line")), AsU64(Field(value, "character")))
    case (Some(line), Some(character)) => Some(Position(NarrowU32(line), NarrowU32(character)))
    case _ => None
  }

  function ParseRange(value: Option<Json>): Option<Range> {
    match (ParsePosition(Field(value, "start")), ParsePosition(Field(value, "end")))
    case (Some(start), Some(end)) => Some(Range(start, end))
    case _ => None
  }

  // ---- What the accessors find --------------------------------------------------

  /** A key is found exactly in an object that has it. */
  lemma FieldExactly(value: Option<Json>, key: string, x: Json)
    ensures Field(value, key) == Some(x) <==>
      value.Some? && value.value.Obj? && key in value.value.fields && value.value.fields[key] == x
  {
  }

  /** Strings, arrays and integers within their 64-bit ranges are read as they are, and
      nothing else is. */
  lemma LeavesExactly(value: Option<Json>, s: string, items: seq<Json>, n: int)
    ensures AsStr(value) == Some(s) <==> value == Some(Str(s))
    ensures AsArr(value) == Some(items) <==> value == Some(Arr(items))
    ensures AsI64(value) == Some(n) <==>
      value == Some(Num(n)) && -0x8000_0000_0000_0000 <= n <= 0x7fff_ffff_ffff_ffff
    ensures n >= 0 ==> (AsU64(value) == Some(n) <==> value == Some(Num(n)) && n <= 0xffff_ffff_ffff_ffff)
  {
  }

  /** The value has unsigned integers `line` and `character` that are those of `p` up to
      multiples of 2^32. */
  predicate AtPosition(value: Option<Json>, p: Position) {
    match (Field(value, "line"), Field(value, "character"))
    case (Some(Num(line)), Some(Num(character))) =>
      && 0 <= line <= 0xffff_ffff_ffff_ffff && p.line == line % 0x1_0000_0000
      && 0 <= character <= 0xffff_ffff_ffff_ffff && p.character == character % 0x1_0000_0000
    case _ => false
  }

  lemma PositionsExactly(value: Option<Json>, p: Position)
    ensures ParsePosition(value) == Some(p) <==> AtPosition(value, p)
  {
  }

  lemma RangesExactly(value: Option<Json>, r: Range)
    ensures ParseRange(value) == Some(r) <==>
      AtPosition(Field(value, "start"), r.start) && AtPosition(Field(value, "end"), r.end)
  {
    PositionsExactly(Field(value, "start"), r.start);
    PositionsExactly(Field(value, "end"), r.end);
  }

  /** Narrowing gives the only signed 32-bit integer that differs by a multiple of 2^32. */
  lemma NarrowExactly(n: int, k: int)
    ensures NarrowI32(n) == k <==> -0x8000_0000 <= k <= 0x7fff_ffff && (n - k) % 0x1_0000_0000 == 0
  {
    var q, low := n / U32_RANGE, n % U32_RANGE;
    assert n - NarrowI32(n) == (if low < U32_RANGE / 2 then q else q + 1) * U32_RANGE;
    if -0x8000_0000 <= k <= 0x7fff_ffff && (n - k) % 0x1_0000_0000 == 0 {
      var m := (n - k) / U32_RANGE;
      assert n == m * U32_RANGE + k;
    }
  }
}
