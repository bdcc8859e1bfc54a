/** Topic-to-port hashing: every topic name owns a probe sequence over a window of
    1000 ports; publishers bind the first free one, subscribers connect to all. */
module Ports {
  import opened Wrappers

  const BASE_PORT := 8500
  const PORT_RANGE := 1000
  const PROBE_WINDOW := 16
  const WORD := 0x1_0000_0000

  // ----- the hash and the probe step -----

  function Mix(hash: bv32, byte: bv8): bv32 { (hash ^ (byte as bv32)) * 16777619 }

  /** 32-bit FNV-1a over the bytes of a string. */
  function Fnv1a(bytes: seq<bv8>): bv32 {
    if bytes == [] then 2166136261 else Mix(Fnv1a(bytes[..|bytes| - 1]), bytes[|bytes| - 1])
  }

  method HashTopic(bytes: seq<bv8>) returns (result: bv32)
    ensures result == Fnv1a(bytes)
  {
    hide Mix;
    result := 2166136261;
    for i := 0 to |bytes|
      invariant result == Fnv1a(bytes[..i])
    {
      assert bytes[..i + 1][..i] == bytes[..i];
      result := Mix(result, bytes[i]);
    }
    assert bytes[..|bytes|] == bytes;
  }

  /** What the probe step is for: it shares no factor with 1000 = 2^3 * 5^3. */
  predicate CoprimeToRange(step: int) { 0 < step < PORT_RANGE && step % 2 == 1 && step % 5 != 0 }

  function OddStep(value: nat): nat {
    var step := if value % PORT_RANGE == 0 then 1 else value % PORT_RANGE;
    if step % 2 == 0 then step + 1 else step
  }

  function ProbeStep(value: nat): (step: nat)
    ensures CoprimeToRange(step) && value % PORT_RANGE <= step
    ensures forall other :: value % PORT_RANGE <= other < step ==> !CoprimeToRange(other)
  {
    if OddStep(value) % 5 == 0 then OddStep(value) + 2 else OddStep(value)
  }

  method ComputeProbeStep(value: nat) returns (step: nat)
    ensures step == ProbeStep(value)
  {
    step := value % PORT_RANGE;
    if step == 0 {
      step := 1;
    }
    if step % 2 == 0 {
      step := step + 1;
    }
    while step % 5 == 0
      invariant step == OddStep(value) || step == ProbeStep(value)
      decreases step % 5 == 0
    {
      step := step + 2;
    }
    step := step % PORT_RANGE;
    if step == 0 {
      step := 1;
    }
  }

  function Candidate(first: nat, step: nat, index: nat): int {
    BASE_PORT + (first + index * step) % PORT_RANGE
  }

  function Candidates(first: nat, step: nat, count: nat): (ports: seq<int>)
    ensures |ports| == count
  {
    seq(count, index requires 0 <= index < count => Candidate(first, step, index))
  }

  const PROBE_SUFFIX: seq<bv8> := [0x1f, 0x70, 0x72, 0x6f, 0x62, 0x65]

  /** `port_candidates(topic, count)`. */
  function TopicPorts(topic: seq<bv8>, count: nat): (ports: seq<int>)
    ensures |ports| == count
  {
    Candidates(Fnv1a(topic) as int, ProbeStep(Fnv1a(topic + PROBE_SUFFIX) as int), count)
  }

  // ----- the probe sequence does not repeat within the window -----

  lemma ProductMod(a: int, b: int, m: int)
    requires m > 0
    ensures (a * b) % m == ((a % m) * (b % m)) % m
  {
    var p, q := a / m, b / m;
    var u, v := a % m, b % m;
    assert a * b == m * (p * (m * q + v) + u * q) + u * v by {
      assert a == m * p + u && b == m * q + v;
      assert (m * p + u) * (m * q + v) == (m * p) * (m * q + v) + u * (m * q) + u * v;
      assert (m * p) * (m * q + v) == m * (p * (m * q + v));
      assert u * (m * q) == m * (u * q);
      assert m * (p * (m * q + v)) + m * (u * q) == m * (p * (m * q + v) + u * q);
    }
    MultipleMod(p * (m * q + v) + u * q, u * v, m);
  }

  lemma MultipleMod(k: int, r: int, m: int)
    requires m > 0
    ensures (m * k + r) % m == r % m
  {
    var d := r / m;
    assert m * k + r == m * (k + d) + r % m;
    UniqueMod(m * k + r, k + d, r % m, m);
  }

  lemma UniqueMod(x: int, k: int, r: int, m: int)
    requires m > 0 && x == m * k + r && 0 <= r < m
    ensures x % m == r
  {
    var q := x / m;
    assert x == m * q + x % m;
    assert m * (q - k) == r - x % m;
    assert q - k >= 1 ==> m * (q - k) >= m;
    assert q - k <= -1 ==> m * (q - k) <= -m;
  }

  /** A prime factor 2 or 5 of `d * step` is one of `d`. */
  lemma PrimeDivides(d: int, step: int, p: int)
    requires CoprimeToRange(step) && (p == 2 || p == 5) && (d * step) % p == 0
    ensures d % p == 0
  {
    ProductMod(d, step, p);
    var u, v := d % p, step % p;
    if p == 2 {
      assert v == 1;
    } else {
      assert v == 1 || v == 2 || v == 3 || v == 4;
      assert u == 0 || u == 1 || u == 2 || u == 3 || u == 4;
    }
  }

  lemma CancelPositive(p: int, a: int, b: int)
    requires p > 0 && p * a == p * b
    ensures a == b
  {
    assert p * (a - b) == 0;
  }

  /** Peeling the factor `p` off both sides of `d * step == n * k`. */
  lemma PeelFactor(d: int, step: int, p: int, n: int, k: int) returns (e: int)
    requires CoprimeToRange(step) && (p == 2 || p == 5) && d * step == p * (n * k)
    ensures d == p * e && e * step == n * k
  {
    hide CoprimeToRange;
    var right := n * k;
    UniqueMod(d * step, right, 0, p);
    PrimeDivides(d, step, p);
    e := d / p;
    assert (p * e) * step == p * (e * step);
    CancelPositive(p, e * step, right);
  }

  lemma PeelThousand(d: int, step: int, k: int)
    requires CoprimeToRange(step) && d * step == 1000 * k
    ensures d % PORT_RANGE == 0
  {
    hide CoprimeToRange;
    var e1 := PeelFactor(d, step, 2, 500, k);
    var e2 := PeelFactor(e1, step, 2, 250, k);
    var e3 := PeelFactor(e2, step, 2, 125, k);
    var e4 := PeelFactor(e3, step, 5, 25, k);
    var e5 := PeelFactor(e4, step, 5, 5, k);
    var e6 := PeelFactor(e5, step, 5, 1, k);
    assert d == 1000 * e6;
  }

  lemma CoprimeCancels(d: int, step: int)
    requires CoprimeToRange(step) && (d * step) % PORT_RANGE == 0
    ensures d % PORT_RANGE == 0
  {
    PeelThousand(d, step, d * step / PORT_RANGE);
  }

  lemma SameResidue(a: int, b: int, m: int)
    requires m > 0 && a % m == b % m
    ensures (b - a) % m == 0
  {
    UniqueMod(b - a, b / m - a / m, 0, m);
  }

  /** Two different probes of the same topic, less than 1000 apart, are different ports. */
  lemma CandidatesDiffer(first: nat, step: nat, i: nat, j: nat)
    requires CoprimeToRange(step) && i < j < i + PORT_RANGE
    ensures Candidate(first, step, i) != Candidate(first, step, j)
  {
    if Candidate(first, step, i) == Candidate(first, step, j) {
      SameResidue(first + i * step, first + j * step, PORT_RANGE);
      assert first + j * step - (first + i * step) == (j - i) * step;
      CoprimeCancels(j - i, step);
      assert false;
    }
  }

  ghost predicate Distinct(ports: seq<int>) {
    forall i, j :: 0 <= i < j < |ports| ==> ports[i] != ports[j]
  }

  function Values(ports: seq<int>): set<int> { set p | p in ports }

  lemma {:induction false} DistinctCount(ports: seq<int>)
    requires Distinct(ports)
    ensures |Values(ports)| == |ports|
  {
    if ports != [] {
      var n := |ports| - 1;
      DistinctCount(ports[..n]);
      assert Values(ports) == Values(ports[..n]) + {ports[n]};
    }
  }

  /** The first `n` ports of the window. */
  function Window(n: nat): (ports: set<int>)
    ensures forall p :: p in ports <==> BASE_PORT <= p < BASE_PORT + n
    ensures |ports| == n
  {
    if n == 0 then {} else Window(n - 1) + {BASE_PORT + n - 1}
  }

  lemma SubsetOfSameSize(a: set<int>, b: set<int>)
    requires a <= b && |a| == |b|
    ensures a == b
  {
    assert b == a + (b - a);
  }

  lemma CandidatesArePermutation(first: nat, step: nat, count: nat)
    requires CoprimeToRange(step) && count <= PORT_RANGE
    ensures Distinct(Candidates(first, step, count))
    ensures Values(Candidates(first, step, count)) <= Window(PORT_RANGE)
    ensures count == PORT_RANGE ==> Values(Candidates(first, step, count)) == Window(PORT_RANGE)
  {
    var ports := Candidates(first, step, count);
    forall i, j | 0 <= i < j < count ensures ports[i] != ports[j] {
      CandidatesDiffer(first, step, i, j);
    }
    forall p | p in ports ensures p in Window(PORT_RANGE) {
      var i :| 0 <= i < count && ports[i] == p;
    }
    DistinctCount(ports);
    if count == PORT_RANGE {
      SubsetOfSameSize(Values(ports), Window(PORT_RANGE));
    }
  }

  /** For every topic the first `count <= 1000` ports are pairwise different and in the
      window, and 1000 of them are the whole window. */
  lemma ProbeSequenceIsPermutation(topic: seq<bv8>, count: nat)
    requires count <= PORT_RANGE
    ensures Distinct(TopicPorts(topic, count))
    ensures Values(TopicPorts(topic, count)) <= Window(PORT_RANGE)
    ensures count == PORT_RANGE ==> Values(TopicPorts(topic, count)) == Window(PORT_RANGE)
  {
    hide Fnv1a, Candidates, Distinct, Window;
    CandidatesArePermutation(Fnv1a(topic) as int, ProbeStep(Fnv1a(topic + PROBE_SUFFIX) as int), count);
  }

  // ----- binding and connecting -----

  /** A publisher tries its candidates in order; `taken` are the ports that cannot be bound. */
  method Bind(candidates: seq<int>, taken: set<int>) returns (bound: Option<nat>)
    ensures bound.None? <==> forall i :: 0 <= i < |candidates| ==> candidates[i] in taken
    ensures bound.Some? ==> bound.value < |candidates| && candidates[bound.value] !in taken
    ensures bound.Some? ==> forall i :: 0 <= i < bound.value ==> candidates[i] in taken
  {
    for i := 0 to |candidates|
      invariant forall j :: 0 <= j < i ==> candidates[j] in taken
    {
      if candidates[i] !in taken {
        return Some(i);
      }
    }
    return None;
  }

  lemma FreePort(ports: seq<int>, taken: set<int>) returns (i: nat)
    requires Distinct(ports) && |taken| < |ports|
    ensures i < |ports| && ports[i] !in taken
  {
    DistinctCount(ports);
    if Values(ports) <= taken {
      SubsetIsSmaller(Values(ports), taken);
    }
    var p :| p in Values(ports) && p !in taken;
    i :| 0 <= i < |ports| && ports[i] == p;
  }

  /** With at most 15 ports taken a bind succeeds, on a port that every subscriber probes. */
  lemma PublisherFindsPort(topic: seq<bv8>, taken: set<int>) returns (i: nat)
    requires |taken| < PROBE_WINDOW
    ensures i < PROBE_WINDOW && TopicPorts(topic, PROBE_WINDOW)[i] !in taken
  {
    hide Distinct, Candidates, Fnv1a, ProbeStep;
    ProbeSequenceIsPermutation(topic, PROBE_WINDOW);
    i := FreePort(TopicPorts(topic, PROBE_WINDOW), taken);
  }

  lemma SubsetIsSmaller(a: set<int>, b: set<int>)
    requires a <= b
    ensures |a| <= |b|
  {
    assert b == a + (b - a);
  }

  // ----- the native node computes the same sequence in 32-bit words -----

  /** The native sum wraps around at 2^32; 2^32 is not a multiple of 1000. */
  function NativeCandidate(first: nat, step: nat, index: nat): int {
    BASE_PORT + (first + index * step) % WORD % PORT_RANGE
  }

  /** Client and native node agree on a probe exactly when the sum stays within a word. */
  lemma NativeAgreesUnlessItWraps(first: nat, step: nat, index: nat)
    requires first < WORD && step < PORT_RANGE && index < PROBE_WINDOW
    ensures NativeCandidate(first, step, index) == Candidate(first, step, index)
       <==> first + index * step < WORD
  {
    ProductBound(index, step);
    WordResidue(first + index * step);
  }

  lemma {:induction false} ProductBound(index: nat, step: nat)
    requires step < PORT_RANGE && index < PROBE_WINDOW
    ensures 0 <= index * step <= 1000 * index
  {
    if index > 0 {
      ProductBound(index - 1, step);
      assert index * step == (index - 1) * step + step;
    }
  }

  lemma WordResidue(sum: int)
    requires 0 <= sum < 2 * WORD
    ensures sum % WORD % PORT_RANGE == sum % PORT_RANGE <==> sum < WORD
  {
    if sum >= WORD {
      UniqueMod(sum, 1, sum - WORD, WORD);
      assert sum == (sum - WORD) + 1000 * 4294967 + 296;
    }
  }

  /** Only eight steps can make up for the 296 that a wrap loses: 296 is 8 * 37, and the step is
      odd. */
  lemma OnlyEight(d: nat, step: nat, k: int)
    requires CoprimeToRange(step) && d < PROBE_WINDOW && d * step == 1000 * k + 296
    ensures d == 8
  {
    hide CoprimeToRange;
    var e1 := PeelFactor(d, step, 2, 1, 500 * k + 148);
    var e2 := PeelFactor(e1, step, 2, 1, 250 * k + 74);
    var e3 := PeelFactor(e2, step, 2, 1, 125 * k + 37);
  }

  /** Probes `d` apart with the wrap between them. */
  lemma RepeatsAcrossWrap(a: nat, d: nat, step: nat)
    requires CoprimeToRange(step) && 0 < d < PROBE_WINDOW && a < WORD <= a + d * step < 2 * WORD
    ensures a % PORT_RANGE == (a + d * step) % WORD % PORT_RANGE <==> d == 8 && 8 * step % PORT_RANGE == 296
  {
    hide CoprimeToRange;
    var gained := d * step;
    UniqueMod(a + gained, 1, a + gained - WORD, WORD);
    WrapKeepsResidueIff(a, gained);
    if gained % PORT_RANGE == 296 {
      OnlyEight(d, step, gained / 1000);
    }
  }

  lemma WrapKeepsResidueIff(a: int, gained: int)
    ensures a % PORT_RANGE == (a + gained - WORD) % PORT_RANGE <==> gained % PORT_RANGE == 296
  {
    if a % PORT_RANGE == (a + gained - WORD) % PORT_RANGE {
      SameResidue(a, a + gained - WORD, PORT_RANGE);
      UniqueMod(gained, (gained - WORD) / PORT_RANGE + 4294967, 296, PORT_RANGE);
    } else if gained % PORT_RANGE == 296 {
      UniqueMod(a + gained - WORD, a / PORT_RANGE + gained / PORT_RANGE - 4294967, a % PORT_RANGE, PORT_RANGE);
      assert false;
    }
  }

  lemma RepeatsOnOneSide(a: nat, d: nat, step: nat)
    requires CoprimeToRange(step) && 0 < d < PROBE_WINDOW && 0 < d * step
    requires a + d * step < 2 * WORD && (a + d * step < WORD || a >= WORD)
    ensures a % WORD % PORT_RANGE != (a + d * step) % WORD % PORT_RANGE
  {
    hide CoprimeToRange;
    if a % WORD % PORT_RANGE == (a + d * step) % WORD % PORT_RANGE {
      SameResidue(a % WORD, (a + d * step) % WORD, PORT_RANGE);
      BothSides(a, d * step);
      CoprimeCancels(d, step);
    }
  }

  /** Two probes of the native window are the same port exactly if the sum wraps between them,
      they are eight apart, and eight steps make up for what the wrap loses. */
  lemma NativeRepeatsIff(first: nat, step: nat, i: nat, j: nat)
    requires CoprimeToRange(step) && first < WORD && i < j < PROBE_WINDOW
    ensures NativeCandidate(first, step, i) == NativeCandidate(first, step, j)
       <==> j == i + 8 && 8 * step % PORT_RANGE == 296 && first + i * step < WORD <= first + j * step
  {
    hide CoprimeToRange;
    StepBound(step);
    ProductBound(i, step);
    ProductBound(j, step);
    var d, a: nat := j - i, first + i * step;
    Apart(step, i, j);
    if a < WORD <= a + d * step {
      RepeatsAcrossWrap(a, d, step);
    } else {
      RepeatsOnOneSide(a, d, step);
    }
  }

  lemma Apart(step: nat, i: nat, j: nat)
    requires 0 < step && i < j
    ensures j * step == i * step + (j - i) * step && (j - i) * step > 0
  {
    var d := j - i;
    assert (i + d) * step == i * step + d * step;
    ProductPositive(d, step);
  }

  lemma {:induction false} ProductPositive(d: nat, step: nat)
    requires 0 < d && 0 < step
    ensures d * step > 0
  {
    if d > 1 {
      ProductPositive(d - 1, step);
      assert d * step == (d - 1) * step + step;
    }
  }

  lemma StepBound(step: nat)
    requires CoprimeToRange(step)
    ensures 0 < step < PORT_RANGE
  {
  }

  lemma BothSides(a: int, gained: int)
    requires 0 <= a <= a + gained < 2 * WORD && (a + gained < WORD || a >= WORD)
    ensures (a + gained) % WORD - a % WORD == gained
  {
    if a >= WORD {
      UniqueMod(a, 1, a - WORD, WORD);
      UniqueMod(a + gained, 1, a + gained - WORD, WORD);
    }
  }

  // ----- a topic for which this happens -----

  lemma NextByte(bytes: seq<bv8>, byte: bv8)
    ensures Fnv1a(bytes + [byte]) == Mix(Fnv1a(bytes), byte)
  {
    assert (bytes + [byte])[..|bytes|] == bytes;
  }

  lemma NextSix(bytes: seq<bv8>, a: bv8, b: bv8, c: bv8, d: bv8, e: bv8, f: bv8, hash: bv32)
    requires Fnv1a(bytes) == hash
    ensures Fnv1a(bytes + [a, b, c, d, e, f]) == Mix(Mix(Mix(Mix(Mix(Mix(hash, a), b), c), d), e), f)
  {
    hide Mix, Fnv1a;
    NextByte(bytes, a);
    NextByte(bytes + [a], b);
    NextByte(bytes + [a] + [b], c);
    NextByte(bytes + [a] + [b] + [c], d);
    NextByte(bytes + [a] + [b] + [c] + [d], e);
    NextByte(bytes + [a] + [b] + [c] + [d] + [e], f);
    assert bytes + [a, b, c, d, e, f] == bytes + [a] + [b] + [c] + [d] + [e] + [f];
  }

  /** The state topic of the arm `left` in the session `jsumoh`: "openpi.jsumoh.left.state". */
  const WRAPPING_TOPIC: seq<bv8> :=
    [0x6f, 0x70, 0x65, 0x6e, 0x70, 0x69]
    + [0x2e, 0x6a, 0x73, 0x75, 0x6d, 0x6f]
    + [0x68, 0x2e, 0x6c, 0x65, 0x66, 0x74]
    + [0x2e, 0x73, 0x74, 0x61, 0x74, 0x65]

  /** Its hashes, six bytes at a time. */
  lemma WrappingHashes()
    ensures Fnv1a(WRAPPING_TOPIC) == 4294961230 && Fnv1a(WRAPPING_TOPIC + PROBE_SUFFIX) == 202394535
  {
    NextSix([], 0x6f, 0x70, 0x65, 0x6e, 0x70, 0x69, 2166136261);
    assert [] + [0x6f, 0x70, 0x65, 0x6e, 0x70, 0x69] == WRAPPING_TOPIC[..6];
    NextSix(WRAPPING_TOPIC[..6], 0x2e, 0x6a, 0x73, 0x75, 0x6d, 0x6f, 4061199894);
    assert WRAPPING_TOPIC[..6] + [0x2e, 0x6a, 0x73, 0x75, 0x6d, 0x6f] == WRAPPING_TOPIC[..12];
    NextSix(WRAPPING_TOPIC[..12], 0x68, 0x2e, 0x6c, 0x65, 0x66, 0x74, 4121165826);
    assert WRAPPING_TOPIC[..12] + [0x68, 0x2e, 0x6c, 0x65, 0x66, 0x74] == WRAPPING_TOPIC[..18];
    NextSix(WRAPPING_TOPIC[..18], 0x2e, 0x73, 0x74, 0x61, 0x74, 0x65, 2632527889);
    assert WRAPPING_TOPIC[..18] + [0x2e, 0x73, 0x74, 0x61, 0x74, 0x65] == WRAPPING_TOPIC;
    NextSix(WRAPPING_TOPIC, 0x1f, 0x70, 0x72, 0x6f, 0x62, 0x65, 4294961230);
  }

  /** Native probes of a topic. */
  function NativePorts(topic: seq<bv8>, count: nat): (ports: seq<int>)
    ensures |ports| == count
  {
    var first, step := Fnv1a(topic) as int, ProbeStep(Fnv1a(topic + PROBE_SUFFIX) as int);
    seq(count, index requires 0 <= index < count => NativeCandidate(first, step, index))
  }

  /** For this topic the thirteenth native probe repeats the fifth, and is not the client's. */
  lemma NativeWindowMayRepeat()
    ensures NativePorts(WRAPPING_TOPIC, PROBE_WINDOW)[4] == NativePorts(WRAPPING_TOPIC, PROBE_WINDOW)[12]
    ensures NativePorts(WRAPPING_TOPIC, PROBE_WINDOW)[12] != TopicPorts(WRAPPING_TOPIC, PROBE_WINDOW)[12]
  {
    hide Fnv1a;
    WrappingHashes();
  }
}
