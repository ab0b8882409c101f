/**
 * Which value a leaf stands for when one is pinned, and when content matches
 * it: the specification of `Data.valueCMP`, `Data.use` and `Data.isDefined`.
 */
module ValueResolution {
  import opened Wrappers
  import opened FieldTypes

  /**
   * The value a leaf resolves to: the memorized value when the memory holds
   * one (memory takes priority), else the leaf's own current value, if any.
   */
  function Resolve<K>(memory: map<K, Bits>, current: Option<Bits>, v: K): Option<Bits>
  {
    if v in memory then Some(memory[v]) else current
  }

  /** A value is available, either in the leaf's definition or in memory. */
  predicate Defined<K>(memory: map<K, Bits>, current: Option<Bits>, v: K)
  {
    current.Some? || v in memory
  }

  /** The content starts with `expected`, compared bit by bit on its first `|expected|` bits. */
  predicate Matches(content: Bits, expected: Bits)
  {
    |content| >= |expected| && content[..|expected|] == expected
  }

  /** A value can be resolved exactly when one is defined. */
  lemma ResolveIffDefined<K>(memory: map<K, Bits>, current: Option<Bits>, v: K)
    ensures Resolve(memory, current, v).Some? <==> Defined(memory, current, v)
  {
  }

  /** Matching is the prefix relation on bit strings. */
  lemma MatchesIsPrefix(content: Bits, expected: Bits)
    ensures Matches(content, expected) <==> expected <= content
  {
  }

  /**
   * A pinned value accepts any content that begins with it and rejects any
   * content that begins with other bits of the same length.
   */
  lemma MatchesExactlyItsPrefix(expected: Bits, head: Bits, rest: Bits)
    requires |head| == |expected|
    ensures Matches(head + rest, expected) <==> head == expected
  {
  }

  /**
   * What a leaf memorizes is what it resolves to afterwards, whatever its own
   * current value: a value learnt while parsing, or generated and memorized
   * while specializing, is the value compared or used by the next call.
   */
  lemma MemorizedIsResolved<K>(memory: map<K, Bits>, current: Option<Bits>, v: K, value: Bits)
    ensures Resolve(memory[v := value], current, v) == Some(value)
  {
  }

  /**
   * A prefix learnt from some content is then matched by that same content:
   * parsing it again against the memorized value succeeds and records the
   * same bits.
   */
  lemma LearntPrefixMatches<K>(memory: map<K, Bits>, current: Option<Bits>, v: K, content: Bits, size: nat)
    requires size <= |content|
    ensures var e := Resolve(memory[v := content[..size]], current, v);
            e == Some(content[..size]) && Matches(content, e.value)
  {
  }
}
