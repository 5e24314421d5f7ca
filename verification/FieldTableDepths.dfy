/** Which values encode, how long they come out, and, position by position, what depth the
    encoder and the decoder charge for them. */
module FieldTableDepths {
  import opened Results
  import opened Octets
  import opened FieldTables
  import opened FieldTableProofs

  // ---------------------------------------------------------------- positions

  /** The children of a value, by index. */
  function Children(v: FieldValue): (r: seq<FieldValue>)
    ensures forall i :: 0 <= i < |r| ==> r[i] < v
  {
    match v
    case Dict(entries) => seq(|entries|, i requires 0 <= i < |entries| => entries[i].value)
    case Array(items) => items
    case _ => []
  }

  /** A position in a value: which child to go to, from each value to the next. */
  predicate IsPosition(v: FieldValue, path: seq<nat>)
    decreases |path|
  {
    path == [] || (path[0] < |Children(v)| && IsPosition(Children(v)[path[0]], path[1..]))
  }

  function ValueAt(v: FieldValue, path: seq<nat>): FieldValue
    requires IsPosition(v, path)
    decreases |path|
  {
    if path == [] then v else ValueAt(Children(v)[path[0]], path[1..])
  }

  /** The depth at which the codec takes up the value at a position, `step` as in `Nesting`:
      0 for the encoder, 1 for the decoder. */
  function DepthAt(v: FieldValue, path: seq<nat>, step: nat): nat
    requires IsPosition(v, path)
    decreases |path|
  {
    if path == [] then 0
    else (if v.Dict? then 1 + step else 1) + DepthAt(Children(v)[path[0]], path[1..], step)
  }

  /** The depth it checks there: a table is entered one level further down. */
  function ChargedAt(v: FieldValue, path: seq<nat>, step: nat): nat
    requires IsPosition(v, path)
  {
    DepthAt(v, path, step) + if ValueAt(v, path).Dict? then 1 else 0
  }

  function EnclosingTables(v: FieldValue, path: seq<nat>): nat
    requires IsPosition(v, path)
    decreases |path|
  {
    if path == [] then 0 else (if v.Dict? then 1 else 0) + EnclosingTables(Children(v)[path[0]], path[1..])
  }

  /** The law: at every position, the decoder's depth is the encoder's plus the number of
      tables around it. */
  lemma {:induction false} DepthLaw(v: FieldValue, path: seq<nat>)
    requires IsPosition(v, path)
    ensures DepthAt(v, path, 1) == DepthAt(v, path, 0) + EnclosingTables(v, path)
    ensures ChargedAt(v, path, 1) == ChargedAt(v, path, 0) + EnclosingTables(v, path)
    decreases |path|
  {
    if path != [] {
      DepthLaw(Children(v)[path[0]], path[1..]);
    }
  }

  // ---------------------------------------------------------------- nesting is the deepest position

  lemma {:induction false} NestingOfEntry(entries: seq<Entry>, step: nat, i: nat)
    requires i < |entries|
    ensures step + Nesting(entries[i].value, step) <= NestingOfEntries(entries, step)
    decreases |entries|
  {
    if i > 0 {
      NestingOfEntry(entries[1..], step, i - 1);
    }
  }

  lemma {:induction false} DeepestEntry(entries: seq<Entry>, step: nat) returns (i: nat)
    requires entries != []
    ensures i < |entries| && step + Nesting(entries[i].value, step) == NestingOfEntries(entries, step)
    decreases |entries|
  {
    i := 0;
    if step + Nesting(entries[0].value, step) < NestingOfEntries(entries[1..], step) {
      i := DeepestEntry(entries[1..], step);
      i := i + 1;
    }
  }

  lemma {:induction false} NestingOfItem(items: seq<FieldValue>, step: nat, i: nat)
    requires i < |items|
    ensures 1 + Nesting(items[i], step) <= NestingOfItems(items, step)
    decreases |items|
  {
    if i > 0 {
      NestingOfItem(items[1..], step, i - 1);
    }
  }

  lemma {:induction false} DeepestItem(items: seq<FieldValue>, step: nat) returns (i: nat)
    requires items != []
    ensures i < |items| && 1 + Nesting(items[i], step) == NestingOfItems(items, step)
    decreases |items|
  {
    i := 0;
    if 1 + Nesting(items[0], step) < NestingOfItems(items[1..], step) {
      i := DeepestItem(items[1..], step);
      i := i + 1;
    }
  }

  lemma {:induction false} NoPositionIsDeeper(v: FieldValue, path: seq<nat>, step: nat)
    requires IsPosition(v, path)
    ensures ChargedAt(v, path, step) <= Nesting(v, step)
    decreases |path|
  {
    if path != [] {
      var child := Children(v)[path[0]];
      NoPositionIsDeeper(child, path[1..], step);
      match v
      case Dict(entries) => NestingOfEntry(entries, step, path[0]);
      case Array(items) => NestingOfItem(items, step, path[0]);
    }
  }

  lemma {:induction false} DeepestPosition(v: FieldValue, step: nat) returns (path: seq<nat>)
    ensures IsPosition(v, path) && ChargedAt(v, path, step) == Nesting(v, step)
    decreases v
  {
    path := [];
    match v
    case Dict(entries) =>
      if entries != [] {
        var i := DeepestEntry(entries, step);
        path := Below(v, i, step);
      }
    case Array(items) =>
      if items != [] {
        var i := DeepestItem(items, step);
        path := Below(v, i, step);
      }
    case _ =>
  }

  lemma {:induction false} Below(v: FieldValue, i: nat, step: nat) returns (path: seq<nat>)
    requires i < |Children(v)|
    ensures IsPosition(v, path)
    ensures ChargedAt(v, path, step) == (if v.Dict? then 1 + step else 1) + Nesting(Children(v)[i], step)
    decreases v, 0
  {
    var rest := DeepestPosition(Children(v)[i], step);
    path := [i] + rest;
    assert path[1..] == rest;
  }

  /** A value fits a budget, for either direction, if and only if every position of it does. */
  ghost predicate FitsEverywhere(v: FieldValue, step: nat, depth: nat, maxDepth: nat) {
    forall path :: IsPosition(v, path) ==> depth + ChargedAt(v, path, step) <= maxDepth
  }

  lemma FitsIffNesting(v: FieldValue, step: nat, depth: nat, maxDepth: nat)
    ensures FitsEverywhere(v, step, depth, maxDepth) <==> depth + Nesting(v, step) <= maxDepth
  {
    if FitsEverywhere(v, step, depth, maxDepth) {
      var path := DeepestPosition(v, step);
      assert IsPosition(v, path);
    } else {
      var path :| IsPosition(v, path) && depth + ChargedAt(v, path, step) > maxDepth;
      NoPositionIsDeeper(v, path, step);
    }
  }

  // ---------------------------------------------------------------- what encodes

  /** How many octets a value comes out as. */
  function SizeOf(v: FieldValue): nat
    decreases v, 1
  {
    match v
    case Void => 1
    case Bool(_) => 2
    case Int(i) => if -0x8000_0000 <= i <= 0x7FFF_FFFF then 5 else 9
    case Double(_) => 9
    case Single(_) => 5
    case Str(text) => 5 + |text|
    case Bytes(bytes) => 5 + |bytes|
    case Decimal(_, _) => 6
    case Dict(entries) => 5 + SizeOfEntries(entries)
    case Array(items) => 5 + SizeOfItems(items)
  }

  function SizeOfEntries(entries: seq<Entry>): nat
    decreases entries, 0
  {
    if entries == [] then 0 else 1 + |entries[0].key| + SizeOf(entries[0].value) + SizeOfEntries(entries[1..])
  }

  function SizeOfItems(items: seq<FieldValue>): nat
    decreases items, 0
  {
    if items == [] then 0 else SizeOf(items[0]) + SizeOfItems(items[1..])
  }

  /** In range, all the way down: numbers fit their widths, keys and text are UTF-8, blocks
      fit their counts, and arrays the ceiling. */
  predicate InRange(v: FieldValue)
    decreases v, 1
  {
    match v
    case Int(i) => -0x8000_0000_0000_0000 <= i < 0x8000_0000_0000_0000
    case Single(_) => false
    case Str(text) => ValidUtf8(text) && |text| < 0x1_0000_0000
    case Bytes(bytes) => |bytes| < 0x1_0000_0000
    case Decimal(_, unscaled) => -0x8000_0000 <= unscaled < 0x8000_0000
    case Dict(entries) => EntriesInRange(entries) && SizeOfEntries(entries) < 0x1_0000_0000
    case Array(items) => ItemsInRange(items) && SizeOfItems(items) <= CEILING
    case _ => true
  }

  predicate EntriesInRange(entries: seq<Entry>)
    decreases entries, 0
  {
    entries == [] ||
    (ValidUtf8(entries[0].key) && |entries[0].key| <= 255 && InRange(entries[0].value) && EntriesInRange(entries[1..]))
  }

  predicate ItemsInRange(items: seq<FieldValue>)
    decreases items, 0
  {
    items == [] || (InRange(items[0]) && ItemsInRange(items[1..]))
  }

  lemma ScalarEncodes(v: FieldValue)
    requires !v.Dict? && !v.Array?
    ensures EncodeScalar(v).Ok? <==> InRange(v)
    ensures EncodeScalar(v).Ok? ==> |EncodeScalar(v).value| == SizeOf(v)
  {
    hide ValidUtf8, BigEndian;
    PowersOf256();
  }

  /** A value encodes if and only if it is in range and nested no deeper than the budget, and
      then into exactly its size. */
  lemma {:induction false} EncodesIff(v: FieldValue, depth: nat, maxDepth: nat)
    ensures EncodeValue(v, depth, maxDepth).Ok? <==> InRange(v) && depth + Nesting(v, 0) <= maxDepth
    ensures EncodeValue(v, depth, maxDepth).Ok? ==> |EncodeValue(v, depth, maxDepth).value| == SizeOf(v)
    decreases v, 1
  {
    hide EncodeScalar, EncodeLongstr;
    match v
    case Dict(entries) => TableEncodesIff(entries, depth + 1, maxDepth);
    case Array(items) =>
      if depth <= maxDepth {
        ItemsEncodeIff(items, depth, maxDepth);
        var parts := EncodeItems(items, depth + 1, maxDepth);
        if parts.Ok? && |parts.value| <= CEILING {
          LongstrEncodes(parts.value);
        }
      }
    case _ => ScalarEncodes(v);
  }

  lemma LongstrEncodes(bytes: octets)
    ensures EncodeLongstr(bytes).Ok? <==> |bytes| < 0x1_0000_0000
  {
    PowersOf256();
  }

  lemma {:induction false} TableEncodesIff(entries: seq<Entry>, depth: nat, maxDepth: nat)
    ensures EncodeTable(entries, depth, maxDepth).Ok?
       <==> && EntriesInRange(entries) && SizeOfEntries(entries) < 0x1_0000_0000
            && depth + NestingOfEntries(entries, 0) <= maxDepth
    ensures EncodeTable(entries, depth, maxDepth).Ok? ==>
              |EncodeTable(entries, depth, maxDepth).value| == 4 + SizeOfEntries(entries)
    decreases entries, 1
  {
    hide EncodeLongstr;
    if depth <= maxDepth {
      EntriesEncodeIff(entries, depth, maxDepth);
      var parts := EncodeEntries(entries, depth, maxDepth);
      if parts.Ok? {
        LongstrEncodes(parts.value);
      }
    }
  }

  lemma {:induction false} EntriesEncodeIff(entries: seq<Entry>, depth: nat, maxDepth: nat)
    requires depth <= maxDepth
    ensures EncodeEntries(entries, depth, maxDepth).Ok?
       <==> EntriesInRange(entries) && depth + NestingOfEntries(entries, 0) <= maxDepth
    ensures EncodeEntries(entries, depth, maxDepth).Ok? ==>
              |EncodeEntries(entries, depth, maxDepth).value| == SizeOfEntries(entries)
    decreases entries, 0
  {
    hide EncodeValue, ValidUtf8, InRange, SizeOf, Nesting;
    if entries != [] {
      EncodesIff(entries[0].value, depth, maxDepth);
      EntriesEncodeIff(entries[1..], depth, maxDepth);
    }
  }

  lemma {:induction false} ItemsEncodeIff(items: seq<FieldValue>, depth: nat, maxDepth: nat)
    requires depth <= maxDepth
    ensures EncodeItems(items, depth + 1, maxDepth).Ok?
       <==> ItemsInRange(items) && depth + NestingOfItems(items, 0) <= maxDepth
    ensures EncodeItems(items, depth + 1, maxDepth).Ok? ==>
              |EncodeItems(items, depth + 1, maxDepth).value| == SizeOfItems(items)
    decreases items, 0
  {
    hide EncodeValue, InRange, SizeOf, Nesting;
    if items != [] {
      EncodesIff(items[0], depth + 1, maxDepth);
      ItemsEncodeIff(items[1..], depth, maxDepth);
    }
  }

  // ---------------------------------------------------------------- together

  /** Both directions, with no hypothesis left on either.  A value in range and small enough,
      encoded and put inside any octets, decodes to itself at its exact end if and only if at
      every position the encoder's depth plus the tables around it is within the decoder's
      budget; and it encodes if and only if the encoder's depth is within its own. */
  lemma CodecFitsEveryPosition(v: FieldValue, depth: nat, maxDepth: nat, front: octets, back: octets, d: nat, dMax: nat)
    requires IsPython(v) && InRange(v) && SizeOf(v) <= CEILING
    ensures EncodeValue(v, depth, maxDepth).Ok? <==> FitsEverywhere(v, 0, depth, maxDepth)
    ensures EncodeValue(v, depth, maxDepth).Ok? ==>
              var s := EncodeValue(v, depth, maxDepth).value;
              && |s| == SizeOf(v)
              && (DecodeValue(front + s + back, |front|, d, dMax) == Ok((AsSent(v), |front| + |s|))
                  <==> forall path :: IsPosition(v, path) ==>
                         d + ChargedAt(v, path, 0) + EnclosingTables(v, path) <= dMax)
  {
    EncodesIff(v, depth, maxDepth);
    FitsIffNesting(v, 0, depth, maxDepth);
    if EncodeValue(v, depth, maxDepth).Ok? {
      var s := EncodeValue(v, depth, maxDepth).value;
      assert At(front + s + back, |front|, s);
      hide EncodeValue, DecodeValue, Nesting, IsPython, InRange, SizeOf, AsSent;
      ValueRoundTrip(v, depth, maxDepth, s, front + s + back, |front|, d, dMax);
      FitsIffNesting(v, 1, d, dMax);
      forall path | IsPosition(v, path)
        ensures ChargedAt(v, path, 1) == ChargedAt(v, path, 0) + EnclosingTables(v, path)
      {
        DepthLaw(v, path);
      }
    }
  }
}
