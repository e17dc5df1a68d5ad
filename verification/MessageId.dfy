/**
  Deterministic message ids (core/message_id.go, core/context.go).  The digest is a
  parameter: what is proved is that the bytes fed to it determine their four parts, and
  which numbers the per-receiver counters of a handler context feed in.
*/
module MessageIds {
  import opened Types

  type byte = x: nat | x < 256
  type Bytes = seq<byte>

  const TWO_TO_THE_64 := 0x1_0000_0000_0000_0000

  // ---------- the encoding and its reader ----------

  /** Base-128 digits, least significant first, the high bit set on all but the last. */
  function Uvarint(v: nat): Bytes {
    if v < 128 then [v] else [128 + v % 128] + Uvarint(v / 128)
  }

  function Field(value: Bytes): Bytes {
    Uvarint(|value|) + value
  }

  function Preimage(parent: Bytes, sender: Bytes, receiver: Bytes, sequence: nat): Bytes {
    Field(parent) + Field(sender) + Field(receiver) + Uvarint(sequence)
  }

  datatype Parsed<+T> = Malformed | Parsed(value: T, rest: Bytes)

  function ReadUvarint(s: Bytes): (r: Parsed<nat>)
    ensures r.Parsed? ==> |r.rest| < |s|
  {
    if s == [] then Malformed
    else if s[0] < 128 then Parsed(s[0], s[1..])
    else
      var tail := ReadUvarint(s[1..]);
      if tail.Malformed? then Malformed else Parsed(s[0] - 128 + 128 * tail.value, tail.rest)
  }

  function ReadField(s: Bytes): Parsed<Bytes> {
    var length := ReadUvarint(s);
    if length.Malformed? || |length.rest| < length.value then Malformed
    else Parsed(length.rest[..length.value], length.rest[length.value..])
  }

  function ReadPreimage(s: Bytes): Parsed<(Bytes, Bytes, Bytes, nat)> {
    var parent := ReadField(s);
    if parent.Malformed? then Malformed else
    var sender := ReadField(parent.rest);
    if sender.Malformed? then Malformed else
    var receiver := ReadField(sender.rest);
    if receiver.Malformed? then Malformed else
    var sequence := ReadUvarint(receiver.rest);
    if sequence.Malformed? then Malformed
    else Parsed((parent.value, sender.value, receiver.value, sequence.value), sequence.rest)
  }

  lemma {:induction false} UvarintReadsBack(v: nat, rest: Bytes)
    ensures ReadUvarint(Uvarint(v) + rest) == Parsed(v, rest)
  {
    var s := Uvarint(v) + rest;
    if v < 128 {
      assert s[1..] == rest;
    } else {
      UvarintReadsBack(v / 128, rest);
      assert s[1..] == Uvarint(v / 128) + rest;
    }
  }

  function Shifted(v: nat, digits: nat): nat {
    if digits == 0 then v else Shifted(v / 128, digits - 1)
  }

  /** Byte `i` holds the digit of that place, its high bit says whether there are more, and no
      byte is spent on leading zeros. */
  lemma {:induction false} UvarintDigits(v: nat, i: nat)
    requires i < |Uvarint(v)|
    ensures Uvarint(v)[i] == Shifted(v, i) % 128 + if i < |Uvarint(v)| - 1 then 128 else 0
    ensures Shifted(v, |Uvarint(v)|) == 0 && (|Uvarint(v)| > 1 ==> Shifted(v, |Uvarint(v)| - 1) > 0)
  {
    if v >= 128 {
      UvarintDigits(v / 128, if i > 0 then i - 1 else 0);
    }
  }

  lemma FieldReadsBack(value: Bytes, rest: Bytes)
    ensures ReadField(Field(value) + rest) == Parsed(value, rest)
  {
    assert Field(value) + rest == Uvarint(|value|) + (value + rest);
    UvarintReadsBack(|value|, value + rest);
  }

  lemma Nested(a: Bytes, b: Bytes, c: Bytes, d: Bytes)
    ensures a + b + c + d == a + (b + (c + d))
  {
  }

  lemma ReadsInTurn(s: Bytes, parent: Bytes, second: Bytes, sender: Bytes, third: Bytes, receiver: Bytes, last: Bytes, sequence: nat)
    requires ReadField(s) == Parsed(parent, second) && ReadField(second) == Parsed(sender, third)
    requires ReadField(third) == Parsed(receiver, last) && ReadUvarint(last) == Parsed(sequence, [])
    ensures ReadPreimage(s) == Parsed((parent, sender, receiver, sequence), [])
  {
  }

  lemma LastReadsBack(sequence: nat)
    ensures ReadUvarint(Uvarint(sequence)) == Parsed(sequence, [])
  {
    UvarintReadsBack(sequence, []);
    assert Uvarint(sequence) + [] == Uvarint(sequence);
  }

  /** The four parts can be read back from the bytes, so no two id requests share them. */
  lemma PreimageReadsBack(parent: Bytes, sender: Bytes, receiver: Bytes, sequence: nat)
    ensures ReadPreimage(Preimage(parent, sender, receiver, sequence))
         == Parsed((parent, sender, receiver, sequence), [])
  {
    var last := Uvarint(sequence);
    var third := Field(receiver) + last;
    var second := Field(sender) + third;
    Nested(Field(parent), Field(sender), Field(receiver), last);
    FieldReadsBack(parent, second);
    FieldReadsBack(sender, third);
    FieldReadsBack(receiver, last);
    LastReadsBack(sequence);
    ReadsInTurn(Field(parent) + second, parent, second, sender, third, receiver, last, sequence);
  }

  lemma PreimageInjective(p: Bytes, s: Bytes, r: Bytes, q: nat, p': Bytes, s': Bytes, r': Bytes, q': nat)
    ensures Preimage(p, s, r, q) == Preimage(p', s', r', q') <==> p == p' && s == s' && r == r' && q == q'
  {
    PreimageReadsBack(p, s, r, q);
    PreimageReadsBack(p', s', r', q');
  }

  /** Without the length prefixes two different requests would share their bytes. */
  lemma PrefixesAreNeeded(a: byte, b: byte)
    ensures [a, b] + [] == [a] + [b]
    ensures Preimage([a, b], [], [], 0) != Preimage([a], [b], [], 0)
  {
    PreimageInjective([a, b], [], [], 0, [a], [b], [], 0);
  }

  function Pow128(n: nat): nat {
    if n == 0 then 1 else 128 * Pow128(n - 1)
  }

  lemma {:induction false} UvarintLength(v: nat, n: nat)
    requires 0 < n && v < Pow128(n)
    ensures |Uvarint(v)| <= n
  {
    if v >= 128 {
      UvarintLength(v / 128, n - 1);
    }
  }

  /** The ten-byte buffer of the writers holds every 64-bit value. */
  lemma TenBytesSuffice(v: nat)
    requires v < TWO_TO_THE_64
    ensures |Uvarint(v)| <= 10
  {
    assert Pow128(5) == 0x8_0000_0000;
    assert Pow128(10) == 0x8_0000_0000 * 0x8_0000_0000;
    UvarintLength(v, 10);
  }

  // ---------- the writers ----------

  /** The bytes written so far to a running hash. */
  class HashState {
    var written: Bytes

    constructor ()
      ensures written == []
    {
      written := [];
    }

    method Write(bytes: Bytes)
      modifies this
      ensures written == old(written) + bytes
    {
      written := written + bytes;
    }
  }

  method WriteMessageIDString(h: HashState, value: Bytes)
    modifies h
    ensures h.written == old(h.written) + Field(value)
  {
    h.Write(Uvarint(|value|));
    h.Write(value);
  }

  method WriteMessageIDInt(h: HashState, value: nat)
    modifies h
    ensures h.written == old(h.written) + Uvarint(value)
  {
    h.Write(Uvarint(value));
  }

  method GenerateMessageID(digest: Bytes -> MessageId, parent: Bytes, sender: Bytes, receiver: Bytes, sequence: nat)
      returns (id: MessageId)
    ensures id == digest(Preimage(parent, sender, receiver, sequence))
  {
    var h := new HashState();
    WriteMessageIDString(h, parent);
    WriteMessageIDString(h, sender);
    WriteMessageIDString(h, receiver);
    WriteMessageIDInt(h, sequence);
    assert [] + Field(parent) == Field(parent);
    id := digest(h.written);
  }

  // ---------- handler contexts ----------

  function Count<T(==)>(s: seq<T>, x: T): (n: nat)
    ensures n <= |s|
  {
    if s == [] then 0 else Count(s[..|s| - 1], x) + if s[|s| - 1] == x then 1 else 0
  }

  lemma CountAppend<T>(s: seq<T>, y: T, x: T)
    ensures Count(s + [y], x) == Count(s, x) + if y == x then 1 else 0
  {
  }

  lemma {:induction false} CountLater<T>(s: seq<T>, k: nat, l: nat, x: T)
    requires k <= l <= |s|
    ensures Count(s[..k], x) <= Count(s[..l], x)
    ensures k < l && s[k] == x ==> Count(s[..k], x) < Count(s[..l], x)
    decreases l
  {
    if k < l {
      assert s[..l][..l - 1] == s[..l - 1];
      CountLater(s, k, l - 1, x);
    }
  }

  /** The bytes hashed for the `k`-th message of a handler that sends to `receivers` in turn. */
  function SentPreimage(parent: Bytes, sender: Bytes, receivers: seq<Bytes>, k: nat): Bytes
    requires k < |receivers|
  {
    Preimage(parent, sender, receivers[k], Count(receivers[..k], receivers[k]) % TWO_TO_THE_64)
  }

  /** Two sends, of any actors handling any messages, share their bytes exactly when the message
      handled, the sender and the receiver are the same and the receiver had been sent to
      equally often before, up to the width of the counter. */
  lemma SentPreimagesClashIff(parent: Bytes, sender: Bytes, receivers: seq<Bytes>, k: nat,
                              parent': Bytes, sender': Bytes, receivers': seq<Bytes>, l: nat)
    requires k < |receivers| && l < |receivers'|
    ensures SentPreimage(parent, sender, receivers, k) == SentPreimage(parent', sender', receivers', l)
       <==> && parent == parent' && sender == sender' && receivers[k] == receivers'[l]
            && Count(receivers[..k], receivers[k]) % TWO_TO_THE_64 == Count(receivers'[..l], receivers'[l]) % TWO_TO_THE_64
  {
    PreimageInjective(
      parent, sender, receivers[k], Count(receivers[..k], receivers[k]) % TWO_TO_THE_64,
      parent', sender', receivers'[l], Count(receivers'[..l], receivers'[l]) % TWO_TO_THE_64);
  }

  /** So two messages of one handler do exactly when they go to one receiver and the 64-bit
      counter has come round to the same value. */
  lemma SentPreimagesClashOnlyOnWrap(parent: Bytes, sender: Bytes, receivers: seq<Bytes>, k: nat, l: nat)
    requires k < |receivers| && l < |receivers|
    ensures SentPreimage(parent, sender, receivers, k) == SentPreimage(parent, sender, receivers, l)
       <==> receivers[k] == receivers[l]
            && Count(receivers[..k], receivers[k]) % TWO_TO_THE_64 == Count(receivers[..l], receivers[l]) % TWO_TO_THE_64
  {
    SentPreimagesClashIff(parent, sender, receivers, k, parent, sender, receivers, l);
  }

  /** So without a wrap all ids made in one handler context differ before hashing. */
  lemma SentPreimagesDistinct(parent: Bytes, sender: Bytes, receivers: seq<Bytes>, k: nat, l: nat)
    requires k < l < |receivers| <= TWO_TO_THE_64
    ensures SentPreimage(parent, sender, receivers, k) != SentPreimage(parent, sender, receivers, l)
  {
    SentPreimagesClashOnlyOnWrap(parent, sender, receivers, k, l);
    if receivers[k] == receivers[l] {
      CountLater(receivers, k, l, receivers[k]);
    }
  }

  function Next64(n: nat): nat {
    (n + 1) % TWO_TO_THE_64
  }

  lemma Next64Counts(n: nat)
    ensures Next64(n % TWO_TO_THE_64) == (n + 1) % TWO_TO_THE_64
  {
  }

  function Counter(sequences: map<Bytes, nat>, receiver: Bytes): nat {
    if receiver in sequences then sequences[receiver] else 0
  }

  /** Every counter is the number of sends to its receiver, as 64 bits. */
  ghost predicate Counted(sequences: map<Bytes, nat>, receivers: seq<Bytes>) {
    forall r {:trigger Counter(sequences, r)} :: Counter(sequences, r) == Count(receivers, r) % TWO_TO_THE_64
  }

  lemma CountedNext(sequences: map<Bytes, nat>, receivers: seq<Bytes>, receiver: Bytes)
    requires Counted(sequences, receivers)
    ensures Counted(sequences[receiver := Next64(Counter(sequences, receiver))], receivers + [receiver])
  {
    var sequences' := sequences[receiver := Next64(Counter(sequences, receiver))];
    Next64Counts(Count(receivers, receiver));
    forall r ensures Counter(sequences', r) == Count(receivers + [receiver], r) % TWO_TO_THE_64 {
      CountAppend(receivers, receiver, r);
      assert Counter(sequences, r) == Count(receivers, r) % TWO_TO_THE_64;
    }
  }

  class Context {
    const digest: Bytes -> MessageId
    const parentId: Bytes
    const actorId: Bytes
    var sequences: map<Bytes, nat>
    ghost var receivers: seq<Bytes>

    ghost predicate Valid()
      reads this
    {
      Counted(sequences, receivers)
    }

    constructor (digest: Bytes -> MessageId, parentId: Bytes, actorId: Bytes)
      ensures Valid() && receivers == []
      ensures this.digest == digest && this.parentId == parentId && this.actorId == actorId
    {
      this.digest, this.parentId, this.actorId := digest, parentId, actorId;
      sequences := map[];
      receivers := [];
    }

    method NextSequence(receiver: Bytes) returns (sequence: nat)
      requires Valid()
      modifies this
      ensures Valid() && receivers == old(receivers) + [receiver]
      ensures sequence == Count(old(receivers), receiver) % TWO_TO_THE_64
    {
      CountedNext(sequences, receivers, receiver);
      sequence := Counter(sequences, receiver);
      sequences := sequences[receiver := Next64(sequence)];
      receivers := receivers + [receiver];
    }

    /** The id depends only on the parent message, the actor and the sends made before, so
        replaying a message through the same calls repeats its ids. */
    method GenerateMessageId(receiver: Bytes) returns (id: MessageId)
      requires Valid()
      modifies this
      ensures Valid() && receivers == old(receivers) + [receiver]
      ensures id == digest(SentPreimage(parentId, actorId, receivers, |receivers| - 1))
    {
      var sequence := NextSequence(receiver);
      id := GenerateMessageID(digest, parentId, actorId, receiver, sequence);
      assert receivers[..|receivers| - 1] == old(receivers);
    }
  }

  // ---------- timers ----------

  /** `uint64(when)` of a signed 64-bit deadline. */
  function Unsigned64(when: int): (u: nat) {
    when % TWO_TO_THE_64
  }

  /** The bytes hashed for a timer: its key takes the place of the parent. */
  function TimerPreimage(actor: Bytes, key: Bytes, when: int): Bytes {
    Preimage(key, actor, actor, Unsigned64(when))
  }

  /** Timer ids are told apart by actor, key and deadline, negative deadlines included. */
  lemma TimerPreimagesDistinct(actor: Bytes, key: Bytes, when: int, actor': Bytes, key': Bytes, when': int)
    requires -TWO_TO_THE_64 / 2 <= when < TWO_TO_THE_64 / 2 && -TWO_TO_THE_64 / 2 <= when' < TWO_TO_THE_64 / 2
    ensures TimerPreimage(actor, key, when) == TimerPreimage(actor', key', when') <==> actor == actor' && key == key' && when == when'
  {
    PreimageInjective(key, actor, actor, Unsigned64(when), key', actor', actor', Unsigned64(when'));
  }

  /** A timer's id is that of a message sent exactly when an actor sends to itself while it
      handles a message named like the key, as often before as the deadline says. */
  lemma TimerClashesWithSendIff(actor: Bytes, key: Bytes, when: int, parent: Bytes, sender: Bytes, receivers: seq<Bytes>, k: nat)
    requires -TWO_TO_THE_64 / 2 <= when < TWO_TO_THE_64 / 2 && k < |receivers|
    ensures TimerPreimage(actor, key, when) == SentPreimage(parent, sender, receivers, k)
       <==> && key == parent && actor == sender == receivers[k]
            && Unsigned64(when) == Count(receivers[..k], receivers[k]) % TWO_TO_THE_64
  {
    PreimageInjective(key, actor, actor, Unsigned64(when),
                      parent, sender, receivers[k], Count(receivers[..k], receivers[k]) % TWO_TO_THE_64);
  }
}
