/** The hash slot of a key. */
module HashSlots {
  import opened Types
  import opened Crc16
  import Crc16Table

  const OPEN: Byte := 0x7B
  const CLOSE: Byte := 0x7D

  /** The key holds a hash tag between positions i and j: the first opening brace and the first closing
      one after it, with something between. */
  predicate IsTag(key: seq<Byte>, i: nat, j: nat) {
    && i + 1 < j < |key|
    && key[i] == OPEN && OPEN !in key[..i]
    && key[j] == CLOSE && CLOSE !in key[i + 1..j]
  }

  /** Where a list first holds a byte, from a position on; the end of the list if it does not. */
  function First(key: seq<Byte>, b: Byte, from: nat): (i: nat)
    requires from <= |key|
    ensures from <= i <= |key| && b !in key[from..i] && (i < |key| ==> key[i] == b)
    decreases |key| - from
  {
    if from == |key| || key[from] == b then from
    else
      var i := First(key, b, from + 1);
      assert key[from..i] == [key[from]] + key[from + 1..i];
      i
  }

  /** The part of a key that is hashed. */
  function Hashed(key: seq<Byte>): seq<Byte> {
    var start := First(key, OPEN, 0);
    if start == |key| then key
    else
      var end := First(key, CLOSE, start + 1);
      if end == |key| || end == start + 1 then key else key[start + 1..end]
  }

  function SlotOf(s: seq<Byte>): (slot: nat)
    ensures slot < SLOT_NUMBER
  {
    Crc(s) as nat % SLOT_NUMBER
  }

  /** The slot of a key, -1 without one. */
  function KeySlot(key: Option<seq<Byte>>): (slot: int)
    ensures -1 <= slot < SLOT_NUMBER
    ensures slot == -1 <==> key.None? || key.value == []
  {
    if key.None? || key.value == [] then -1 else SlotOf(Hashed(key.value))
  }

  method HashSlot(key: Option<seq<Byte>>) returns (slot: int)
    ensures slot == KeySlot(key)
    // Without a key there is no slot; a hash tag alone is hashed, and a key without one is hashed whole.
    ensures key.None? || key.value == [] ==> slot == -1
    ensures key.Some? ==> forall i: nat, j: nat :: IsTag(key.value, i, j) ==>
      slot == Crc(key.value[i + 1..j]) as nat % 16384
    ensures key.Some? && key.value != [] && (forall i: nat, j: nat :: !IsTag(key.value, i, j)) ==>
      slot == Crc(key.value) as nat % 16384
  {
    hide Crc, Hashed;
    if key.Some? {
      KeySlotIs(key.value);
    }
    if key.None? || |key.value| == 0 {
      return -1;
    }
    var k := key.value;
    var start := 0;
    while start < |k| && k[start] != OPEN
      invariant start <= |k| && OPEN !in k[..start]
    {
      start := start + 1;
    }
    if start == |k| {
      NoTag(k);
      slot := Checksum(k);
      return;
    }
    var end := start + 1;
    while end < |k| && k[end] != CLOSE
      invariant start + 1 <= end <= |k| && CLOSE !in k[start + 1..end]
    {
      end := end + 1;
    }
    if end == |k| || end == start + 1 {
      UnclosedTag(k, start, end);
      slot := Checksum(k);
      return;
    }
    TagIsHashed(k, start, end);
    slot := Checksum(k[start + 1..end]);
  }

  lemma KeySlotIs(key: seq<Byte>)
    ensures forall i: nat, j: nat :: IsTag(key, i, j) ==> KeySlot(Some(key)) == Crc(key[i + 1..j]) as nat % 16384
    ensures key != [] && (forall i: nat, j: nat :: !IsTag(key, i, j)) ==> KeySlot(Some(key)) == Crc(key) as nat % 16384
  {
    hide Crc, Hashed;
    forall i: nat, j: nat | IsTag(key, i, j) ensures Hashed(key) == key[i + 1..j] {
      TagIsHashed(key, i, j);
    }
    if forall i: nat, j: nat :: !IsTag(key, i, j) {
      UntaggedIsHashedWhole(key);
    }
  }

  method Checksum(s: seq<Byte>) returns (slot: nat)
    ensures slot == SlotOf(s)
  {
    var crc := Crc16Table.Checksum(s);
    slot := crc as nat % SLOT_NUMBER;
  }

  lemma FirstIs(key: seq<Byte>, b: Byte, from: nat, i: nat)
    requires from <= i <= |key| && b !in key[from..i] && (i < |key| ==> key[i] == b)
    ensures First(key, b, from) == i
  {
    var j := First(key, b, from);
    assert forall k :: from <= k < i ==> key[from..i][k - from] == key[k];
    assert forall k :: from <= k < j ==> key[from..j][k - from] == key[k];
  }

  /** A key with a hash tag is hashed by the tag alone. */
  lemma TagIsHashed(key: seq<Byte>, i: nat, j: nat)
    requires IsTag(key, i, j)
    ensures Hashed(key) == key[i + 1..j]
  {
    hide First;
    assert key[0..i] == key[..i];
    FirstIs(key, OPEN, 0, i);
    FirstIs(key, CLOSE, i + 1, j);
  }

  lemma NoTag(key: seq<Byte>)
    requires OPEN !in key[..|key|]
    ensures Hashed(key) == key
  {
    hide First;
    assert key[0..|key|] == key[..|key|];
    FirstIs(key, OPEN, 0, |key|);
  }

  lemma UnclosedTag(key: seq<Byte>, i: nat, j: nat)
    requires i < |key| && key[i] == OPEN && OPEN !in key[..i]
    requires i + 1 <= j <= |key| && CLOSE !in key[i + 1..j] && (j == |key| || (key[j] == CLOSE && j == i + 1))
    ensures Hashed(key) == key
  {
    hide First;
    assert key[0..i] == key[..i];
    FirstIs(key, OPEN, 0, i);
    FirstIs(key, CLOSE, i + 1, j);
  }

  /** A key without a hash tag is hashed whole. */
  lemma UntaggedIsHashedWhole(key: seq<Byte>)
    requires forall i: nat, j: nat :: !IsTag(key, i, j)
    ensures Hashed(key) == key
  {
    var i := First(key, OPEN, 0);
    if i < |key| {
      var j := First(key, CLOSE, i + 1);
      assert key[0..i] == key[..i];
      assert !IsTag(key, i, j);
    }
  }

  /** A key shares the slot of its hash tag, whatever stands around the tag. */
  lemma TagDecidesSlot(before: seq<Byte>, tag: seq<Byte>, after: seq<Byte>)
    requires OPEN !in before && tag != [] && CLOSE !in tag
    ensures KeySlot(Some(before + [OPEN] + tag + [CLOSE] + after)) == KeySlot(Some(tag))
  {
    hide Hashed, SlotOf;
    var key := before + [OPEN] + tag + [CLOSE] + after;
    var i, j := |before|, |before| + 1 + |tag|;
    assert key[..i] == before && key[i + 1..j] == tag;
    TagIsHashed(key, i, j);
    forall a: nat, b: nat ensures !IsTag(tag, a, b) {
    }
    UntaggedIsHashedWhole(tag);
  }
}
