/**
 * The serialization of a concurrent hash map's declared fields: the entry count, then each
 * entry's key followed by its value; and the reading back of those entries into a map.
 */
module HashMapHandler {

  /** A token of the serialization stream: an int, or an object (given by its identity). */
  datatype Token = IntToken(n: int) | ObjectToken(o: nat)

  datatype Result<T> = Ok(value: T) | EndOfStream | StreamCorrupted

  /** The order in which a hash map's entries are visited: each key once, and every key. */
  predicate Enumerates(order: seq<nat>, m: map<nat, nat>)
  {
    (forall i :: 0 <= i < |order| ==> order[i] in m)
    && (forall k :: k in m ==> k in order)
    && (forall i, j :: 0 <= i < j < |order| ==> order[i] != order[j])
  }

  /** The key and value tokens of the entries visited in this order. */
  function EntryTokens(m: map<nat, nat>, order: seq<nat>): (ts: seq<Token>)
    requires forall i :: 0 <= i < |order| ==> order[i] in m
    ensures |ts| == 2 * |order|
  {
    if order == [] then []
    else
      var k := order[|order| - 1];
      EntryTokens(m, order[..|order| - 1]) + [ObjectToken(k), ObjectToken(m[k])]
  }

  /** What `writeDeclaredFields` writes: the entry count, then the entries. */
  function Encode(m: map<nat, nat>, order: seq<nat>): seq<Token>
    requires forall i :: 0 <= i < |order| ==> order[i] in m
  {
    [IntToken(|m|)] + EntryTokens(m, order)
  }

  /** The map after reading `count` entries from `start` into `acc`, or why the stream could not be read. */
  function ReadEntries(ts: seq<Token>, start: nat, count: nat, acc: map<nat, nat>): Result<map<nat, nat>>
  {
    if count == 0 then Ok(acc)
    else
      match ReadEntries(ts, start, count - 1, acc)
      case Ok(m) =>
        var p := start + 2 * (count - 1);
        if p >= |ts| then EndOfStream
        else if !ts[p].ObjectToken? then StreamCorrupted
        else if p + 1 >= |ts| then EndOfStream
        else if !ts[p + 1].ObjectToken? then StreamCorrupted
        else Ok(m[ts[p].o := ts[p + 1].o])
      case EndOfStream => EndOfStream
      case StreamCorrupted => StreamCorrupted
  }

  /**
   * What `readDeclaredFields` yields: the count is read, then that many key/value pairs
   * are put into the map, which a concurrent hash map starts afresh for.
   */
  function Decode(ts: seq<Token>, start: nat, target: map<nat, nat>, concurrent: bool): Result<map<nat, nat>>
  {
    var initial := if concurrent then map[] else target;
    if start >= |ts| then EndOfStream
    else if !ts[start].IntToken? then StreamCorrupted
    else if ts[start].n <= 0 then Ok(initial)
    else ReadEntries(ts, start + 1, ts[start].n, initial)
  }

  /** How many tokens a successful `Decode` from `start` reads: the count, then two per entry. */
  function DecodedLength(ts: seq<Token>, start: nat): nat
    requires start < |ts| && ts[start].IntToken?
  {
    if ts[start].n <= 0 then 1 else 1 + 2 * ts[start].n
  }

  /** Reading back what was written stops exactly after the written tokens, whatever follows them. */
  lemma ReadsWhatWasWritten(m: map<nat, nat>, order: seq<nat>, rest: seq<Token>)
    requires Enumerates(order, m)
    ensures var ts := Encode(m, order) + rest;
      0 < |ts| && ts[0].IntToken? && DecodedLength(ts, 0) == |Encode(m, order)|
  {
    EnumeratedSize(order, m);
  }

  /** The keys listed. */
  function KeySet(order: seq<nat>): (ks: set<nat>)
    ensures forall k :: k in ks <==> k in order
  {
    set k | k in order
  }

  /** The entries of the map under the keys listed. */
  function Restrict(m: map<nat, nat>, order: seq<nat>): (r: map<nat, nat>)
    requires forall i :: 0 <= i < |order| ==> order[i] in m
    ensures forall k :: k in r <==> k in order
    ensures forall k :: k in r ==> r[k] == m[k]
  {
    map k | k in order :: m[k]
  }

  /** Distinct keys: a list of distinct keys is as long as the set of them. */
  lemma {:induction false} DistinctCard(order: seq<nat>)
    requires forall i, j :: 0 <= i < j < |order| ==> order[i] != order[j]
    ensures |KeySet(order)| == |order|
  {
    if order != [] {
      var front := order[..|order| - 1];
      var last := order[|order| - 1];
      DistinctCard(front);
      assert KeySet(order) == KeySet(front) + {last};
      assert KeySet(front) * {last} == {};
      assert last !in KeySet(front) by {
        forall i | 0 <= i < |front|
          ensures front[i] != last
        {
          assert front[i] == order[i];
        }
      }
    }
  }

  /** An enumeration of a map lists as many keys as the map has. */
  lemma EnumeratedSize(order: seq<nat>, m: map<nat, nat>)
    requires Enumerates(order, m)
    ensures |order| == |m|
  {
    DistinctCard(order);
    assert KeySet(order) == m.Keys;
  }

  /** Reading as many entries as were written gives back the entries of the keys written. */
  lemma {:induction false} ReadWritten(m: map<nat, nat>, order: seq<nat>, rest: seq<Token>)
    requires forall i :: 0 <= i < |order| ==> order[i] in m
    ensures ReadEntries(EntryTokens(m, order) + rest, 0, |order|, map[]) == Ok(Restrict(m, order))
  {
    if order != [] {
      var front := order[..|order| - 1];
      var k := order[|order| - 1];
      ReadWritten(m, front, [ObjectToken(k), ObjectToken(m[k])] + rest);
      WrittenSplit(m, order, rest);
      ReadPair(EntryTokens(m, order) + rest, |order|, Restrict(m, front), k, m[k]);
      RestrictStep(m, order);
    }
  }

  /** The tokens written for the entries end with the pair of the last key. */
  lemma WrittenSplit(m: map<nat, nat>, order: seq<nat>, rest: seq<Token>)
    requires order != [] && forall i :: 0 <= i < |order| ==> order[i] in m
    ensures var k := order[|order| - 1];
      var ts := EntryTokens(m, order) + rest;
      var p := 2 * (|order| - 1);
      ts == EntryTokens(m, order[..|order| - 1]) + ([ObjectToken(k), ObjectToken(m[k])] + rest)
      && p + 1 < |ts| && ts[p] == ObjectToken(k) && ts[p + 1] == ObjectToken(m[k])
  {
  }

  /** Reading one more well-formed pair adds it to the entries read before. */
  lemma ReadPair(ts: seq<Token>, count: nat, before: map<nat, nat>, k: nat, v: nat)
    requires count > 0 && ReadEntries(ts, 0, count - 1, map[]) == Ok(before)
    requires 2 * (count - 1) + 1 < |ts| && ts[2 * (count - 1)] == ObjectToken(k) && ts[2 * (count - 1) + 1] == ObjectToken(v)
    ensures ReadEntries(ts, 0, count, map[]) == Ok(before[k := v])
  {
  }

  /** The entries of one more key are the entries before, updated with its value. */
  lemma RestrictStep(m: map<nat, nat>, order: seq<nat>)
    requires order != [] && forall i :: 0 <= i < |order| ==> order[i] in m
    ensures Restrict(m, order) == Restrict(m, order[..|order| - 1])[order[|order| - 1] := m[order[|order| - 1]]]
  {
    var front := order[..|order| - 1];
    assert forall j :: j in order <==> j in front || j == order[|order| - 1];
  }

  /** The tokens of the entries of one more key. */
  lemma EntryTokensStep(m: map<nat, nat>, order: seq<nat>, i: nat)
    requires i < |order| && forall j :: 0 <= j < |order| ==> order[j] in m
    ensures EntryTokens(m, order[..i + 1]) == EntryTokens(m, order[..i]) + [ObjectToken(order[i]), ObjectToken(m[order[i]])]
  {
    assert order[..i + 1][..i] == order[..i];
  }

  /** Round trip: reading what was written for a map, into a fresh concurrent map, gives back the map. */
  lemma RoundTrip(m: map<nat, nat>, order: seq<nat>, rest: seq<Token>, target: map<nat, nat>)
    requires Enumerates(order, m)
    ensures Decode(Encode(m, order) + rest, 0, target, true) == Ok(m)
  {
    var ts := Encode(m, order) + rest;
    EnumeratedSize(order, m);
    assert ts == [IntToken(|m|)] + (EntryTokens(m, order) + rest);
    if |m| > 0 {
      ReadWritten(m, order, rest);
      assert Restrict(m, order) == m;
      ReadShifted(EntryTokens(m, order) + rest, IntToken(|m|), |order|);
      assert Decode(ts, 0, target, true) == ReadEntries(ts, 1, |m|, map[]);
    } else {
      assert m == map[];
    }
  }

  /** Reading entries after one leading token is reading them from the stream without it. */
  lemma {:induction false} ReadShifted(ts: seq<Token>, head: Token, count: nat)
    ensures ReadEntries([head] + ts, 1, count, map[]) == ReadEntries(ts, 0, count, map[])
  {
    if count > 0 {
      ReadShifted(ts, head, count - 1);
    }
  }

  /** Once reading fails, reading more entries fails the same way. */
  lemma {:induction false} ReadFailureSticks(ts: seq<Token>, start: nat, count: nat, more: nat, acc: map<nat, nat>)
    requires count <= more && !ReadEntries(ts, start, count, acc).Ok?
    ensures ReadEntries(ts, start, more, acc) == ReadEntries(ts, start, count, acc)
  {
    if more > count {
      ReadFailureSticks(ts, start, count, more - 1, acc);
    }
  }

  /** The stream a serializer writes to, and the class descriptor it is working on. */
  class Serializer {
    var written: seq<Token>
    var currentClassDescriptor: nat

    constructor(descriptor: nat)
      ensures written == [] && currentClassDescriptor == descriptor
    {
      written := [];
      currentClassDescriptor := descriptor;
    }
  }

  /** The stream a deserializer reads from, its read position, and its current class descriptor. */
  class Deserializer {
    const stream: seq<Token>
    var position: nat
    var currentClassDescriptor: nat

    constructor(stream: seq<Token>, descriptor: nat)
      ensures this.stream == stream && position == 0 && currentClassDescriptor == descriptor
    {
      this.stream := stream;
      position := 0;
      currentClassDescriptor := descriptor;
    }
  }

  /**
   * `writeDeclaredFields`: the entry count, then each entry's key and value in the map's
   * iteration order; the serializer's class descriptor is restored afterwards.
   */
  method WriteDeclaredFields(serializer: Serializer, cd: nat, m: map<nat, nat>, order: seq<nat>)
    requires Enumerates(order, m)
    modifies serializer
    ensures serializer.written == old(serializer.written) + Encode(m, order)
    ensures serializer.currentClassDescriptor == old(serializer.currentClassDescriptor)
  {
    var tmpDesc := serializer.currentClassDescriptor;
    serializer.currentClassDescriptor := cd;
    serializer.written := serializer.written + [IntToken(|m|)];
    WriteEntries(serializer, m, order);
    serializer.currentClassDescriptor := tmpDesc;
  }

  /** The entry loop of `writeDeclaredFields`: each key, then its value. */
  method WriteEntries(serializer: Serializer, m: map<nat, nat>, order: seq<nat>)
    requires forall i :: 0 <= i < |order| ==> order[i] in m
    modifies serializer`written
    ensures serializer.written == old(serializer.written) + EntryTokens(m, order)
  {
    var i := 0;
    while i < |order|
      invariant 0 <= i <= |order|
      invariant serializer.written == old(serializer.written) + EntryTokens(m, order[..i])
    {
      EntryTokensStep(m, order, i);
      var key := order[i];
      serializer.written := serializer.written + [ObjectToken(key), ObjectToken(m[key])];
      i := i + 1;
    }
    assert order[..i] == order;
  }

  /**
   * `readDeclaredFields`: a concurrent hash map is first reset to empty; the count is
   * read, then as many keys and values, each pair put into the map. The deserializer's
   * class descriptor is restored afterwards, also when reading fails.
   */
  method ReadDeclaredFields(deserializer: Deserializer, cd: nat, target: map<nat, nat>, concurrent: bool)
    returns (r: Result<map<nat, nat>>)
    modifies deserializer
    ensures r == Decode(deserializer.stream, old(deserializer.position), target, concurrent)
    ensures r.Ok? ==> deserializer.position == old(deserializer.position) + DecodedLength(deserializer.stream, old(deserializer.position))
    ensures !r.Ok? ==> old(deserializer.position) <= deserializer.position
    ensures deserializer.currentClassDescriptor == old(deserializer.currentClassDescriptor)
  {
    var tmpDesc := deserializer.currentClassDescriptor;
    deserializer.currentClassDescriptor := cd;
    var m := if concurrent then map[] else target;
    var start := deserializer.position;
    var ts := deserializer.stream;
    if start >= |ts| {
      deserializer.currentClassDescriptor := tmpDesc;
      return EndOfStream;
    }
    if !ts[start].IntToken? {
      deserializer.currentClassDescriptor := tmpDesc;
      return StreamCorrupted;
    }
    var size := ts[start].n;
    deserializer.position := start + 1;
    r := ReadEntriesFrom(deserializer, size, m);
    deserializer.currentClassDescriptor := tmpDesc;
  }

  /** The entry loop of `readDeclaredFields`: `size` key/value pairs are read into the map, stopping at the first bad token. */
  method ReadEntriesFrom(deserializer: Deserializer, size: int, initial: map<nat, nat>) returns (r: Result<map<nat, nat>>)
    modifies deserializer`position
    ensures r == if size <= 0 then Ok(initial) else ReadEntries(deserializer.stream, old(deserializer.position), size, initial)
    ensures r.Ok? ==> deserializer.position == old(deserializer.position) + (if size <= 0 then 0 else 2 * size)
    ensures old(deserializer.position) <= deserializer.position
  {
    var ts := deserializer.stream;
    var start := deserializer.position;
    var m := initial;
    var i := 0;
    while i < size
      invariant 0 <= i && (size >= 0 ==> i <= size) && (size < 0 ==> i == 0)
      invariant deserializer.position == start + 2 * i
      invariant ReadEntries(ts, start, i, initial) == Ok(m)
    {
      var p := deserializer.position;
      var failure: Result<map<nat, nat>> := Ok(m);
      if p >= |ts| {
        failure := EndOfStream;
      } else if !ts[p].ObjectToken? {
        failure := StreamCorrupted;
      } else if p + 1 >= |ts| {
        failure := EndOfStream;
      } else if !ts[p + 1].ObjectToken? {
        failure := StreamCorrupted;
      }
      if !failure.Ok? {
        ReadFailureSticks(ts, start, i + 1, size, initial);
        return failure;
      }
      var key := ts[p].o;
      var value := ts[p + 1].o;
      deserializer.position := p + 2;
      m := m[key := value];
      i := i + 1;
    }
    r := Ok(m);
  }
}
