// The collection tags of src/queue/options.rs: 64-bit keys with the variant in
// the top byte and a 56-bit payload below it.
module Tags {
  import opened Collections
  import opened Words

  datatype Suffix =
    | Active | Completed | Delayed | Stalled | Prioritized | PriorityCounter | Id | Meta | Events
    | Wait | Paused | Failed | Marker | Job(id: nat) | Prefix | Lock(id: nat) | StalledCheck
    | WorkerMetrics | ProcessMetrics

  function Discriminant(c: Suffix): nat {
    match c
    case Active => 1
    case Completed => 2
    case Delayed => 3
    case Stalled => 4
    case Prioritized => 5
    case PriorityCounter => 6
    case Id => 7
    case Meta => 8
    case Events => 9
    case Wait => 10
    case Paused => 11
    case Failed => 12
    case Marker => 13
    case Job(_) => 14
    case Prefix => 15
    case Lock(_) => 16
    case StalledCheck => 17
    case WorkerMetrics => 18
    case ProcessMetrics => 19
  }

  function Payload(c: Suffix): nat {
    if c.Job? || c.Lock? then c.id % TWO56 else 0
  }

  function Tag(c: Suffix): nat {
    Discriminant(c) * TWO56 + Payload(c)
  }

  /** The bits of the two halves do not overlap, so the source's `|` is the sum above. */
  lemma OrIsSum(top: bv64, id: bv64)
    ensures (top << 56) | (id & 0x00FF_FFFF_FFFF_FFFF) == (top << 56) + (id & 0x00FF_FFFF_FFFF_FFFF)
  {
  }

  function FromTag(tag: nat): Option<Suffix> {
    var payload := tag % TWO56;
    match tag / TWO56
    case 1 => Some(Active)
    case 2 => Some(Completed)
    case 3 => Some(Delayed)
    case 4 => Some(Stalled)
    case 5 => Some(Prioritized)
    case 6 => Some(PriorityCounter)
    case 7 => Some(Id)
    case 8 => Some(Meta)
    case 9 => Some(Events)
    case 10 => Some(Wait)
    case 11 => Some(Paused)
    case 12 => Some(Failed)
    case 13 => Some(Marker)
    case 14 => Some(Job(payload))
    case 15 => Some(Prefix)
    case 16 => Some(Lock(payload))
    case 17 => Some(StalledCheck)
    case _ => None
  }

  /** The variant with its payload cut to the 56 bits a tag can hold. */
  function Truncated(c: Suffix): Suffix {
    match c
    case Job(id) => Job(id % TWO56)
    case Lock(id) => Lock(id % TWO56)
    case _ => c
  }

  lemma TagParts(c: Suffix)
    ensures Tag(c) / TWO56 == Discriminant(c) && Tag(c) % TWO56 == Payload(c)
  {
  }

  /** Two collections share a tag exactly when they agree up to the truncated payload. */
  lemma TagCollidesIff(c: Suffix, d: Suffix)
    ensures Tag(c) == Tag(d) <==> Truncated(c) == Truncated(d)
  {
    TagParts(c);
    TagParts(d);
    if Tag(c) == Tag(d) {
      assert Discriminant(c) == Discriminant(d) && Payload(c) == Payload(d);
    }
  }

  /** Decoding inverts encoding exactly for 56-bit payloads and the variants the decoder knows. */
  lemma TagRoundTripIff(c: Suffix)
    ensures FromTag(Tag(c)) == Some(c) <==>
              !c.WorkerMetrics? && !c.ProcessMetrics? && (c.Job? || c.Lock? ==> c.id < TWO56)
  {
    TagParts(c);
    match c
    case Job(id) => assert FromTag(Tag(c)) == Some(Job(id % TWO56));
    case Lock(id) => assert FromTag(Tag(c)) == Some(Lock(id % TWO56));
    case _ =>
  }

  /** The keys as they are stored. */
  lemma StoredKeys(id: nat)
    requires id < TWO56
    ensures Tag(Active) == 0x0100_0000_0000_0000 && Tag(Completed) == 0x0200_0000_0000_0000
    ensures Tag(Delayed) == 0x0300_0000_0000_0000 && Tag(Stalled) == 0x0400_0000_0000_0000
    ensures Tag(Prioritized) == 0x0500_0000_0000_0000 && Tag(PriorityCounter) == 0x0600_0000_0000_0000
    ensures Tag(Id) == 0x0700_0000_0000_0000 && Tag(Meta) == 0x0800_0000_0000_0000
    ensures Tag(Events) == 0x0900_0000_0000_0000 && Tag(Wait) == 0x0A00_0000_0000_0000
    ensures Tag(Paused) == 0x0B00_0000_0000_0000 && Tag(Failed) == 0x0C00_0000_0000_0000
    ensures Tag(Marker) == 0x0D00_0000_0000_0000 && Tag(Job(id)) == 0x0E00_0000_0000_0000 + id
    ensures Tag(Prefix) == 0x0F00_0000_0000_0000 && Tag(Lock(id)) == 0x1000_0000_0000_0000 + id
    ensures Tag(StalledCheck) == 0x1100_0000_0000_0000 && Tag(WorkerMetrics) == 0x1200_0000_0000_0000
    ensures Tag(ProcessMetrics) == 0x1300_0000_0000_0000
  {
  }

  function Pow256(n: nat): nat {
    if n == 0 then 1 else 256 * Pow256(n - 1)
  }

  lemma {:induction false} Pow256Positive(n: nat)
    ensures Pow256(n) > 0
  {
    if n == 0 {
    } else {
      Pow256Positive(n - 1);
    }
  }

  /** The `n` lowest bytes of `x`, most significant first. */
  function BigEndian(x: int, n: nat): seq<int>
    decreases n
  {
    if n == 0 then [] else
      Pow256Positive(n - 1);
      [x / Pow256(n - 1)] + BigEndian(x % Pow256(n - 1), n - 1)
  }

  function ToBytes(c: Suffix): seq<int> {
    BigEndian(Tag(c), 8)
  }

  predicate LexLess(a: seq<int>, b: seq<int>) {
    if a == [] || b == [] then a == [] && b != []
    else a[0] < b[0] || (a[0] == b[0] && LexLess(a[1..], b[1..]))
  }

  lemma DigitOrder(a: nat, i: nat, b: nat, j: nat, p: nat)
    requires i < p && j < p
    ensures p * a + i < p * b + j <==> a < b || (a == b && i < j)
  {
    if a < b {
      assert p * (a + 1) <= p * b;
    } else if b < a {
      assert p * (b + 1) <= p * a;
    }
  }

  lemma LexCons(a: int, s: seq<int>, b: int, t: seq<int>)
    ensures LexLess([a] + s, [b] + t) <==> a < b || (a == b && LexLess(s, t))
  {
    assert ([a] + s)[1..] == s && ([b] + t)[1..] == t;
  }

  lemma LeadingDigit(x: nat, n: nat) returns (a: nat, i: nat)
    requires n > 0
    ensures i < Pow256(n - 1) && x == Pow256(n - 1) * a + i
    ensures BigEndian(x, n) == [a] + BigEndian(i, n - 1)
  {
    Pow256Positive(n - 1);
    a, i := Split(x, Pow256(n - 1));
  }

  lemma Split(x: nat, p: nat) returns (a: nat, i: nat)
    requires p > 0
    ensures a == x / p && i == x % p && i < p && x == p * a + i
  {
    a, i := x / p, x % p;
  }

  /** The leading digits and the rest, and what they say about the order. */
  lemma Digits(x: nat, y: nat, n: nat) returns (a: nat, i: nat, b: nat, j: nat)
    requires n > 0
    ensures BigEndian(x, n) == [a] + BigEndian(i, n - 1) && BigEndian(y, n) == [b] + BigEndian(j, n - 1)
    ensures i < Pow256(n - 1) && j < Pow256(n - 1)
    ensures x < y <==> a < b || (a == b && i < j)
  {
    hide BigEndian, Pow256;
    a, i := LeadingDigit(x, n);
    b, j := LeadingDigit(y, n);
    DigitOrder(a, i, b, j, Pow256(n - 1));
  }

  lemma NoDigits(x: nat, y: nat)
    requires x < Pow256(0) && y < Pow256(0)
    ensures x == y && BigEndian(x, 0) == [] && !LexLess([], [])
  {
  }

  lemma {:induction false} BigEndianOrder(x: nat, y: nat, n: nat)
    requires x < Pow256(n) && y < Pow256(n)
    ensures LexLess(BigEndian(x, n), BigEndian(y, n)) <==> x < y
    decreases n
  {
    hide BigEndian, Pow256, LexLess;
    if n == 0 {
      NoDigits(x, y);
    } else {
      var a, i, b, j := Digits(x, y, n);
      BigEndianOrder(i, j, n - 1);
      LexCons(a, BigEndian(i, n - 1), b, BigEndian(j, n - 1));
    }
  }

  lemma TagFits(c: Suffix)
    ensures Tag(c) < TWO64 == Pow256(8)
  {
    assert Pow256(4) == 0x1_0000_0000;
    assert Pow256(8) == 256 * (256 * (256 * (256 * Pow256(4))));
  }

  /** Sorting by key bytes and sorting by tag are the same order. */
  lemma ByteOrderIsTagOrder(c: Suffix, d: Suffix)
    ensures LexLess(ToBytes(c), ToBytes(d)) <==> Tag(c) < Tag(d)
  {
    TagFits(c);
    TagFits(d);
    BigEndianOrder(Tag(c), Tag(d), 8);
  }
}
