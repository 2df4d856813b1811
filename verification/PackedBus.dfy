/** A bus packed from fields, most significant first, and the layout that locates them again. */
module PackedBus {

  /** A field of a group: its name and its width in bits. */
  datatype Field = Field(name: string, width: nat)

  datatype Range = Range(lsb: nat, width: nat)

  ghost predicate Wide(group: seq<Field>) {
    forall i | 0 <= i < |group| :: group[i].width > 0
  }

  ghost predicate Named(group: seq<Field>) {
    forall i, j | 0 <= i < j < |group| :: group[i].name != group[j].name
  }

  function Total(group: seq<Field>): nat {
    if group == [] then 0 else group[0].width + Total(group[1..])
  }

  // ---- Layout ----

  /** Each field has its own width, from where the later fields end. */
  ghost predicate LaidOut(group: seq<Field>, ranges: map<string, Range>) {
    && ranges.Keys == (set i | 0 <= i < |group| :: group[i].name)
    && forall i | 0 <= i < |group| :: ranges[group[i].name] == Range(Total(group[i + 1..]), group[i].width)
  }

  /** The layout loop: the running bit starts at the group's width and drops by each field's. */
  method Layout(group: seq<Field>) returns (ranges: map<string, Range>)
    requires Named(group)
    ensures LaidOut(group, ranges)
  {
    ranges := map[];
    var bit := TotalWidth(group);
    for n := 0 to |group|
      invariant bit == Total(group[n..])
      invariant ranges.Keys == set i | 0 <= i < n :: group[i].name
      invariant forall i | 0 <= i < n :: ranges[group[i].name] == Range(Total(group[i + 1..]), group[i].width)
    {
      assert group[n..][1..] == group[n + 1..];
      bit := bit - group[n].width;
      ranges := ranges[group[n].name := Range(bit, group[n].width)];
    }
  }

  method TotalWidth(group: seq<Field>) returns (width: nat)
    ensures width == Total(group)
  {
    width := 0;
    for n := 0 to |group|
      invariant width + Total(group[n..]) == Total(group)
    {
      assert group[n..][1..] == group[n + 1..];
      width := width + group[n].width;
    }
  }

  /** Bit `b` of the word lies in the field at `i`. */
  ghost predicate Holds(group: seq<Field>, i: nat, b: nat)
    requires i < |group|
  {
    Total(group[i + 1..]) <= b < Total(group[i + 1..]) + group[i].width
  }

  lemma HoldsInRest(group: seq<Field>, i: nat, b: nat)
    requires 0 < i < |group|
    ensures Holds(group, i, b) <==> Holds(group[1..], i - 1, b)
  {
    assert group[1..][i..] == group[i + 1..];
  }

  /** Some field holds the bit. */
  ghost predicate Held(group: seq<Field>, b: nat) {
    exists i: nat :: i < |group| && Holds(group, i, b)
  }

  lemma HeldFirst(group: seq<Field>, b: nat)
    requires group != []
    ensures Held(group, b) <==> Holds(group, 0, b) || Held(group[1..], b)
  {
    if i: nat :| i < |group| && Holds(group, i, b) && i > 0 {
      HoldsInRest(group, i, b);
    }
    if i: nat :| i < |group[1..]| && Holds(group[1..], i, b) {
      HoldsInRest(group, i + 1, b);
    }
  }

  /** The ranges partition the word: a bit is in the word exactly when it is in one field, and then in no other. */
  lemma {:induction false} RangesPartition(group: seq<Field>, b: nat)
    ensures b < Total(group) <==> Held(group, b)
    ensures forall i, j | 0 <= i < j < |group| :: !(Holds(group, i, b) && Holds(group, j, b))
    decreases |group|
  {
    if group != [] {
      RangesPartition(group[1..], b);
      HeldFirst(group, b);
      forall i, j | 0 <= i < j < |group| ensures !(Holds(group, i, b) && Holds(group, j, b)) {
        HoldsInRest(group, j, b);
        if i > 0 {
          HoldsInRest(group, i, b);
        }
      }
    }
  }

  // ---- Bit strings ----

  function Pow2(n: nat): (p: nat)
    ensures p > 0
  {
    if n == 0 then 1 else 2 * Pow2(n - 1)
  }

  function Digit(v: nat): char {
    if v % 2 == 0 then '0' else '1'
  }

  /** The binary numeral of a number, without leading zeros. */
  function Binary(v: nat): string {
    if v < 2 then [Digit(v)] else Binary(v / 2) + [Digit(v)]
  }

  function Zeros(n: int): string {
    if n <= 0 then "" else "0" + Zeros(n - 1)
  }

  /** `format(v, "0<w>b")`: at least `w` digits, more when the number needs them. */
  function Format(v: nat, w: nat): string {
    Zeros(w - |Binary(v)|) + Binary(v)
  }

  function BitValue(c: char): nat {
    if c == '1' then 1 else 0
  }

  /** The number a bit string denotes. */
  function Value(bits: string): nat {
    if bits == "" then 0 else 2 * Value(bits[..|bits| - 1]) + BitValue(bits[|bits| - 1])
  }

  lemma {:induction false} BinaryValue(v: nat)
    ensures Value(Binary(v)) == v
    decreases v
  {
    if v < 2 {
      assert Binary(v)[..0] == "";
    } else {
      BinaryValue(v / 2);
      assert Binary(v)[..|Binary(v)| - 1] == Binary(v / 2);
    }
  }

  lemma {:induction false} BinaryLength(v: nat, w: nat)
    requires w > 0
    ensures |Binary(v)| <= w <==> v < Pow2(w)
    decreases w
  {
    if v >= 2 && w > 1 {
      BinaryLength(v / 2, w - 1);
    } else if w > 1 {
      assert Pow2(w) == 2 * Pow2(w - 1);
    } else {
      assert Pow2(1) == 2 * Pow2(0);
    }
  }

  lemma {:induction false} ZerosValue(n: int, bits: string)
    ensures |Zeros(n)| == if n <= 0 then 0 else n
    ensures Value(Zeros(n) + bits) == Value(bits)
    decreases n, |bits|
  {
    if bits != "" {
      ZerosValue(n, bits[..|bits| - 1]);
      assert (Zeros(n) + bits)[..|Zeros(n) + bits| - 1] == Zeros(n) + bits[..|bits| - 1];
    } else if n > 0 {
      ZerosValue(n - 1, "");
      ZerosFlip(n - 1);
      assert Zeros(n) + "" == Zeros(n) && Zeros(n - 1) + "" == Zeros(n - 1);
      assert Zeros(n)[..|Zeros(n)| - 1] == Zeros(n - 1);
    }
  }

  lemma {:induction false} ZerosFlip(n: int)
    requires n >= 0
    ensures "0" + Zeros(n) == Zeros(n) + "0"
  {
    if n > 0 {
      ZerosFlip(n - 1);
    }
  }

  /** A formatted number has exactly `w` digits when it fits, and always denotes the number. */
  lemma FormatFits(v: nat, w: nat)
    requires w > 0
    ensures |Format(v, w)| >= w
    ensures |Format(v, w)| == w <==> v < Pow2(w)
    ensures Value(Format(v, w)) == v
  {
    BinaryLength(v, w);
    BinaryValue(v);
    ZerosValue(w - |Binary(v)|, Binary(v));
  }

  // ---- Packing ----

  /** The fields' bit strings joined, first field first; a missing value counts as 0. */
  function Packed(group: seq<Field>, values: map<string, nat>): string {
    if group == [] then ""
    else Format(ValueOf(values, group[0].name), group[0].width) + Packed(group[1..], values)
  }

  function ValueOf(values: map<string, nat>, name: string): nat {
    if name in values then values[name] else 0
  }

  lemma PackedFrom(group: seq<Field>, values: map<string, nat>, n: nat)
    requires n < |group|
    ensures Packed(group[n..], values) ==
      Format(ValueOf(values, group[n].name), group[n].width) + Packed(group[n + 1..], values)
  {
    assert group[n..][1..] == group[n + 1..];
  }

  method Pack(group: seq<Field>, values: map<string, nat>) returns (bits: string)
    ensures bits == Packed(group, values)
  {
    bits := "";
    for n := 0 to |group|
      invariant bits + Packed(group[n..], values) == Packed(group, values)
    {
      var numeral := Format(ValueOf(values, group[n].name), group[n].width);
      PackedFrom(group, values, n);
      assert bits + (numeral + Packed(group[n + 1..], values)) == bits + numeral + Packed(group[n + 1..], values);
      bits := bits + numeral;
    }
  }

  ghost predicate Fits(group: seq<Field>, values: map<string, nat>) {
    forall i | 0 <= i < |group| :: ValueOf(values, group[i].name) < Pow2(group[i].width)
  }

  /** The word has the bus's width exactly when every value fits its field. */
  lemma {:induction false} WidthIff(group: seq<Field>, values: map<string, nat>)
    requires Wide(group)
    ensures |Packed(group, values)| >= Total(group)
    ensures |Packed(group, values)| == Total(group) <==> Fits(group, values)
    decreases |group|
  {
    if group != [] {
      var rest := group[1..];
      assert forall i | 0 <= i < |rest| :: rest[i] == group[i + 1];
      WidthIff(rest, values);
      FormatFits(ValueOf(values, group[0].name), group[0].width);
      assert Fits(group, values) <==> Fits(rest, values) && ValueOf(values, group[0].name) < Pow2(group[0].width);
    }
  }

  /** The bits of a range, counted from the least significant end of the word. */
  function Slice(bits: string, r: Range): string
    requires r.lsb + r.width <= |bits|
  {
    bits[|bits| - r.lsb - r.width..|bits| - r.lsb]
  }

  lemma {:induction false} TotalOfRest(group: seq<Field>, i: nat)
    requires i < |group|
    ensures Total(group[i..]) == group[i].width + Total(group[i + 1..]) <= Total(group)
  {
    assert group[i..][1..] == group[i + 1..];
    if i > 0 {
      TotalOfRest(group[1..], i - 1);
      assert group[1..][i - 1..] == group[i..];
    } else {
      assert group[0..] == group;
    }
  }

  /** Extracting a field's range from the packed word gives the field's value back. */
  lemma {:induction false} RoundTrip(group: seq<Field>, values: map<string, nat>, i: nat)
    requires Wide(group) && Fits(group, values) && i < |group|
    ensures Total(group[i + 1..]) + group[i].width <= |Packed(group, values)|
    ensures Value(Slice(Packed(group, values), Range(Total(group[i + 1..]), group[i].width))) ==
      if group[i].name in values then values[group[i].name] else 0
    decreases |group|
  {
    var rest := group[1..];
    assert forall k | 0 <= k < |rest| :: rest[k] == group[k + 1];
    WidthIff(group, values);
    WidthIff(rest, values);
    TotalOfRest(group, i);
    FormatFits(ValueOf(values, group[0].name), group[0].width);
    var head, word := Format(ValueOf(values, group[0].name), group[0].width), Packed(group, values);
    if i == 0 {
      assert word[..group[0].width] == head;
    } else {
      RoundTrip(rest, values, i - 1);
      assert rest[i..] == group[i + 1..];
      var r := Range(Total(group[i + 1..]), group[i].width);
      assert word == head + Packed(rest, values);
      SliceOfTail(head, Packed(rest, values), r);
    }
  }

  lemma SliceOfTail(head: string, tail: string, r: Range)
    requires r.lsb + r.width <= |tail|
    ensures Slice(head + tail, r) == Slice(tail, r)
  {
    assert Slice(head + tail, r) == Slice(tail, r);
  }

  lemma {:induction false} ValueBound(bits: string)
    ensures Value(bits) < Pow2(|bits|)
    decreases |bits|
  {
    if bits != "" {
      ValueBound(bits[..|bits| - 1]);
    }
  }

  /** What a reader finds at a field's range is the field's value. */
  ghost predicate ReadsBack(bits: string, ranges: map<string, Range>, values: map<string, nat>) {
    forall name | name in ranges ::
      ranges[name].lsb + ranges[name].width <= |bits| && Value(Slice(bits, ranges[name])) == ValueOf(values, name)
  }

  lemma FittingReadsBack(group: seq<Field>, ranges: map<string, Range>, values: map<string, nat>)
    requires Wide(group) && LaidOut(group, ranges) && Fits(group, values)
    ensures ReadsBack(Packed(group, values), ranges, values)
  {
    forall name | name in ranges
      ensures ranges[name].lsb + ranges[name].width <= |Packed(group, values)|
      ensures Value(Slice(Packed(group, values), ranges[name])) == ValueOf(values, name)
    {
      var i: nat :| i < |group| && group[i].name == name;
      RoundTrip(group, values, i);
    }
  }

  lemma ReadFits(bits: string, r: Range)
    requires r.lsb + r.width <= |bits|
    ensures Value(Slice(bits, r)) < Pow2(r.width)
  {
    ValueBound(Slice(bits, r));
  }

  lemma ReadBackFits(group: seq<Field>, bits: string, ranges: map<string, Range>, values: map<string, nat>)
    requires LaidOut(group, ranges)
    ensures ReadsBack(bits, ranges, values) ==> Fits(group, values)
  {
    if ReadsBack(bits, ranges, values) {
      forall i | 0 <= i < |group| ensures ValueOf(values, group[i].name) < Pow2(group[i].width) {
        var r := ranges[group[i].name];
        ReadFits(bits, r);
        assert r.width == group[i].width;
      }
    }
  }

  /** Every field is read back from the packed word exactly when every value fits its field. */
  lemma ReadsBackIff(group: seq<Field>, ranges: map<string, Range>, values: map<string, nat>)
    requires Wide(group) && LaidOut(group, ranges)
    ensures ReadsBack(Packed(group, values), ranges, values) <==> Fits(group, values)
  {
    if Fits(group, values) {
      FittingReadsBack(group, ranges, values);
    }
    ReadBackFits(group, Packed(group, values), ranges, values);
  }

  /** One group as the generator writes it: the entries of the fields file, and one step's word. */
  method WriteGroup(group: seq<Field>, values: map<string, nat>) returns (ranges: map<string, Range>, bits: string)
    requires Named(group) && Wide(group)
    ensures ranges.Keys == set i | 0 <= i < |group| :: group[i].name
    ensures ReadsBack(bits, ranges, values) <==> Fits(group, values)
  {
    ranges := Layout(group);
    bits := Pack(group, values);
    ReadsBackIff(group, ranges, values);
  }

  // ---- The generator's own fields and values ----

  const REQUEST: seq<Field> := [
    Field("a_valid", 1), Field("a_opcode", 3), Field("a_param", 3), Field("a_size", 2), Field("a_source", 8),
    Field("a_address", 32), Field("a_mask", 4), Field("a_data", 32), Field("a_user", 4), Field("d_ready", 1)]

  const RESPONSE: seq<Field> := [
    Field("d_valid", 1), Field("d_opcode", 3), Field("d_param", 3), Field("d_size", 2), Field("d_source", 8),
    Field("d_sink", 1), Field("d_data", 32), Field("d_user", 4), Field("d_error", 1), Field("a_ready", 1)]

  /** The values of step `i`: step 0 is idle, odd steps drive the request, even ones the response. */
  function StepValues(i: nat): map<string, nat> {
    var idle := map["a_ready" := 1, "d_ready" := 1];
    if i == 0 then idle
    else
      var n := (i - 1) / 2;
      if i % 2 == 1 then idle["a_valid" := 1]["a_source" := n % 256]["a_data" := n]["a_opcode" := 4]
      else idle["d_valid" := 1]["d_source" := n % 256]["d_data" := n]["d_opcode" := 1]
  }

  lemma SmallPowers()
    ensures Pow2(1) == 2 && Pow2(2) == 4 && Pow2(3) == 8 && Pow2(4) == 16 && Pow2(8) == 256
  {
    assert Pow2(5) == 32 && Pow2(6) == 64 && Pow2(7) == 128;
  }

  /** All request fields but the data hold values that fit. */
  ghost predicate SmallRequest(v: map<string, nat>) {
    && ValueOf(v, "a_valid") < 2 && ValueOf(v, "a_opcode") < 8 && ValueOf(v, "a_source") < 256
    && ValueOf(v, "d_ready") < 2
    && ValueOf(v, "a_param") == ValueOf(v, "a_size") == ValueOf(v, "a_address") == ValueOf(v, "a_mask") == 0
    && ValueOf(v, "a_user") == 0
  }

  ghost predicate SmallResponse(v: map<string, nat>) {
    && ValueOf(v, "d_valid") < 2 && ValueOf(v, "d_opcode") < 8 && ValueOf(v, "d_source") < 256
    && ValueOf(v, "a_ready") < 2
    && ValueOf(v, "d_param") == ValueOf(v, "d_size") == ValueOf(v, "d_sink") == ValueOf(v, "d_user") == 0
    && ValueOf(v, "d_error") == 0
  }

  lemma RequestByData(v: map<string, nat>)
    requires SmallRequest(v)
    ensures Fits(REQUEST, v) <==> ValueOf(v, "a_data") < Pow2(32)
  {
    SmallPowers();
    assert REQUEST[7].name == "a_data" && REQUEST[7].width == 32;
  }

  lemma ResponseByData(v: map<string, nat>)
    requires SmallResponse(v)
    ensures Fits(RESPONSE, v) <==> ValueOf(v, "d_data") < Pow2(32)
  {
    SmallPowers();
    assert RESPONSE[6].name == "d_data" && RESPONSE[6].width == 32;
  }

  lemma RequestValues(i: nat)
    ensures SmallRequest(StepValues(i)) && ValueOf(StepValues(i), "a_data") == if i % 2 == 1 then (i - 1) / 2 else 0
  {
  }

  lemma ResponseValues(i: nat)
    ensures SmallResponse(StepValues(i))
    ensures ValueOf(StepValues(i), "d_data") == if i % 2 == 1 || i == 0 then 0 else (i - 1) / 2
  {
  }

  /** Every value of a step fits its field exactly while the counter fits the 32-bit data field. */
  lemma StepFitsIff(i: nat)
    ensures Fits(REQUEST, StepValues(i)) && Fits(RESPONSE, StepValues(i)) <==> i == 0 || (i - 1) / 2 < Pow2(32)
  {
    RequestValues(i);
    ResponseValues(i);
    RequestByData(StepValues(i));
    ResponseByData(StepValues(i));
  }
}
