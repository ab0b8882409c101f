/**
 * The collaborators a leaf works through: the memory that binds variables to
 * values during one parsing or specialization run, and the path (one branch
 * of the search) that carries the content to parse, the results found so
 * far and a reference to a memory. Only what the leaf relies on is modelled.
 */
module Paths {
  import opened FieldTypes

  /** The identity of a variable, the key of memories and results. */
  type VarId = nat

  class Memory {
    var values: map<VarId, Bits>

    constructor (initial: map<VarId, Bits>)
      ensures values == initial
    {
      values := initial;
    }

    /** Stores `value` as the value of `v`, replacing any earlier one. */
    method Memorize(v: VarId, value: Bits)
      modifies this
      ensures values == old(values)[v := value]
    {
      values := values[v := value];
    }

    /** An independent memory holding the same bindings. */
    method Duplicate() returns (m: Memory)
      ensures fresh(m) && m.values == values
    {
      m := new Memory(values);
    }
  }

  /**
   * `q` is a branch of `p` in which `v` has been given `value`: the same
   * content, the same results but for `v`, and a memory holding the same
   * bindings (the same absence of a memory when `p` has none), with `value`
   * also memorized for `v` when `memorized` is set.
   */
  ghost predicate BranchOf(q: Path, p: Path, v: VarId, value: Bits, memorized: bool)
    reads q, p, q.memory, p.memory
  {
    q.dataAssigned == p.dataAssigned &&
    q.results == p.results[v := value] &&
    (p.memory == null ==> q.memory == null) &&
    (p.memory != null ==> q.memory != null &&
                          q.memory.values == if memorized then p.memory.values[v := value] else p.memory.values)
  }

  /**
   * One parsing or specializing path. `dataAssigned` is the content each
   * variable is positioned over (used by parsing only), `results` the value
   * recorded for each variable, `memory` the memory of the run (possibly
   * absent).
   */
  class Path {
    var dataAssigned: map<VarId, Bits>
    var results: map<VarId, Bits>
    var memory: Memory?

    constructor (dataAssigned: map<VarId, Bits>, memory: Memory?)
      ensures this.dataAssigned == dataAssigned && results == map[] && this.memory == memory
    {
      this.dataAssigned := dataAssigned;
      results := map[];
      this.memory := memory;
    }

    /** Records `value` as the result of variable `v` on this path. */
    method AddResult(v: VarId, value: Bits)
      modifies this
      ensures results == old(results)[v := value]
      ensures dataAssigned == old(dataAssigned) && memory == old(memory)
    {
      results := results[v := value];
    }

    /**
     * An independent branch: same content and results, and its own copy of
     * the memory, so that what one branch memorizes is not seen by another.
     */
    method Duplicate() returns (p: Path)
      ensures fresh(p)
      ensures p.dataAssigned == dataAssigned && p.results == results
      ensures memory == null ==> p.memory == null
      ensures memory != null ==> p.memory != null && fresh(p.memory) && p.memory.values == memory.values
    {
      var m: Memory? := null;
      if memory != null {
        m := memory.Duplicate();
      }
      p := new Path(dataAssigned, m);
      p.results := results;
    }
  }
}
