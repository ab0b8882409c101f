/**
 * The `Data` leaf variable: a portion of message content defined by a data
 * type and, possibly, a current value. It provides the parsing primitives
 * (`DomainCmp`, `Learn`, `ValueCmp`) and the specialization primitives
 * (`Use`, `Regenerate`, `RegenerateAndMemorize`) that the value-sharing mode
 * of the leaf chooses between.
 */
module DataLeaf {
  import opened Wrappers
  import opened FieldTypes
  import opened Paths
  import opened LengthSearch
  import opened ValueResolution

  /** The source's raised exceptions, kept apart from an ordinary empty result. */
  datatype Error =
    | NullPath      // the path argument is None
    | NoMemory      // the path carries no memory
    | NoValue       // no value is defined for a leaf that must compare against one
    | NoContent     // no content is assigned to the leaf on this path

  datatype Result<T> = Ok(value: T) | Err(error: Error)

  /** The value-sharing mode (SVAS) of a leaf. */
  datatype Svas = Constant | Persistent | Ephemeral | Volatile

  /** What two leaves must share to be interchangeable inside an alternative. */
  datatype DataKey = DataKey(className: string, currentValue: Option<Bits>, dataType: FieldType, svas: Svas)

  class Data {
    const id: VarId
    const name: string
    const dataType: FieldType
    const svas: Svas
    var currentValue: Option<Bits>

    constructor (id: VarId, name: string, dataType: FieldType, originalValue: Option<Bits>, svas: Svas)
      ensures this.id == id && this.name == name && this.dataType == dataType && this.svas == svas
      ensures currentValue == originalValue
    {
      this.id := id;
      this.name := name;
      this.dataType := dataType;
      this.svas := svas;
      currentValue := originalValue;
    }

    /** Replaces the current value; bit strings are values, so no later change to `value` reaches the leaf. */
    method SetCurrentValue(value: Option<Bits>)
      modifies this
      ensures currentValue == value
    {
      currentValue := value;
    }

    /** The identity used to deduplicate leaves: neither `id` nor `name` takes part. */
    function Key(): DataKey
      reads this
    {
      DataKey("Data", currentValue, dataType, svas)
    }

    ghost predicate Equals(other: Data)
      reads this, other
    {
      Key() == other.Key()
    }

    /**
     * Whether a value is available for this leaf on `path`. The leaf's own
     * value answers first, so a missing memory is an error only when there
     * is none. Given a memory, the answer is whether a value is defined in
     * either place, which is when `Use` finds one (`ResolveIffDefined`).
     */
    function IsDefined(path: Path?): (r: Result<bool>)
      reads this, path, if path != null then {path.memory} else {}
      ensures path == null ==> r == Err(NullPath)
      ensures path != null && currentValue.Some? ==> r == Ok(true)
      ensures path != null && path.memory == null && currentValue.None? ==> r == Err(NoMemory)
      ensures path != null && path.memory != null ==>
                r.Ok? && (r.value <==> Defined(path.memory.values, currentValue, id))
    {
      if path == null then Err(NullPath)
      else if currentValue.Some? then Ok(true)
      else if path.memory == null then Err(NoMemory)
      else Ok(id in path.memory.values)
    }

    /**
     * Parses the content assigned to this leaf against its data type: one
     * new, independent path per accepted length, longest first, each
     * recording the prefix of that length. Nothing that existed before
     * changes.
     */
    method DomainCmp(path: Path?, carnivorous: bool) returns (r: Result<seq<Path>>)
      ensures path == null ==> r == Err(NullPath)
      ensures path != null && id !in path.dataAssigned ==> r == Err(NoContent)
      ensures path != null && id in path.dataAssigned ==>
                var content := path.dataAssigned[id];
                var sizes := AcceptedSizes(dataType, content, carnivorous);
                r.Ok? && |r.value| == |sizes| &&
                (forall i, j :: 0 <= i < j < |sizes| ==> r.value[i] != r.value[j]) &&
                (forall i, j :: 0 <= i < j < |sizes| && r.value[i].memory != null ==> r.value[i].memory != r.value[j].memory) &&
                forall i :: 0 <= i < |sizes| ==>
                  fresh(r.value[i]) && (r.value[i].memory != null ==> fresh(r.value[i].memory)) &&
                  BranchOf(r.value[i], path, id, content[..sizes[i]], false)
    {
      if path == null {
        return Err(NullPath);
      }
      if id !in path.dataAssigned {
        return Err(NoContent);
      }
      var content := path.dataAssigned[id];
      if |content| < dataType.minSize {
        return Ok([]);
      }
      r := DomainCmpBetween(path, content, Lower(dataType, content, carnivorous), Upper(dataType, content, carnivorous));
    }

    /** The loop of `DomainCmp`, over the lengths `hi` down to `lo`. */
    method DomainCmpBetween(path: Path, content: Bits, lo: nat, hi: nat) returns (r: Result<seq<Path>>)
      requires hi <= |content|
      ensures var sizes := AcceptedBetween(dataType, content, lo, hi);
              r.Ok? && |r.value| == |sizes| &&
              (forall i, j :: 0 <= i < j < |sizes| ==> r.value[i] != r.value[j]) &&
              (forall i, j :: 0 <= i < j < |sizes| && r.value[i].memory != null ==> r.value[i].memory != r.value[j].memory) &&
              forall i :: 0 <= i < |sizes| ==>
                fresh(r.value[i]) && (r.value[i].memory != null ==> fresh(r.value[i].memory)) &&
                BranchOf(r.value[i], path, id, content[..sizes[i]], false)
    {
      var paths: seq<Path> := [];
      ghost var sizes: seq<nat> := [];
      var size: int := hi;
      while size >= lo
        invariant size <= hi && (lo - 1 <= size || size == hi)
        invariant sizes == AcceptedBetween(dataType, content, size + 1, hi)
        invariant |paths| == |sizes|
        invariant forall i, j :: 0 <= i < j < |paths| ==> paths[i] != paths[j]
        invariant forall i, j :: 0 <= i < j < |paths| && paths[i].memory != null ==> paths[i].memory != paths[j].memory
        invariant forall i :: 0 <= i < |paths| ==>
                    fresh(paths[i]) && (paths[i].memory != null ==> fresh(paths[i].memory)) &&
                    BranchOf(paths[i], path, id, content[..sizes[i]], false)
      {
        AcceptedBetweenSplitLow(dataType, content, size, hi);
        if size == 0 || dataType.canParse(content[..size]) {
          var q := ParsedBranch(path, content[..size]);
          assert forall i :: 0 <= i < |paths| && paths[i].memory != null ==> paths[i].memory != q.memory;
          paths, sizes := paths + [q], sizes + [size];
        }
        size := size - 1;
      }
      r := Ok(paths);
    }

    /** One accepted branch of `DomainCmp`: a duplicate of `path` recording `value`. */
    method ParsedBranch(path: Path, value: Bits) returns (q: Path)
      ensures fresh(q) && (q.memory != null ==> fresh(q.memory))
      ensures BranchOf(q, path, id, value, false)
    {
      q := path.Duplicate();
      q.AddResult(id, value);
    }

    /**
     * The same search as `DomainCmp`, with the same paths in the same order;
     * each new path also memorizes, in its own memory, the prefix it
     * records. Without a memory the first accepted length raises.
     */
    method Learn(path: Path?, carnivorous: bool) returns (r: Result<seq<Path>>)
      ensures path == null ==> r == Err(NullPath)
      ensures path != null && id !in path.dataAssigned ==> r == Err(NoContent)
      ensures path != null && id in path.dataAssigned ==>
                var content := path.dataAssigned[id];
                var sizes := AcceptedSizes(dataType, content, carnivorous);
                if path.memory == null && |sizes| > 0 then r == Err(NoMemory)
                else
                  r.Ok? && |r.value| == |sizes| &&
                  (forall i, j :: 0 <= i < j < |sizes| ==> r.value[i] != r.value[j]) &&
                  forall i :: 0 <= i < |sizes| ==>
                    fresh(r.value[i]) && (r.value[i].memory != null ==> fresh(r.value[i].memory)) &&
                    BranchOf(r.value[i], path, id, content[..sizes[i]], true)
    {
      if path == null {
        return Err(NullPath);
      }
      if id !in path.dataAssigned {
        return Err(NoContent);
      }
      var content := path.dataAssigned[id];
      if |content| < dataType.minSize {
        return Ok([]);
      }
      var lo, hi := Lower(dataType, content, carnivorous), Upper(dataType, content, carnivorous);
      if path.memory == null {
        // Memorizing on the first accepted length fails for want of a memory.
        return if |AcceptedBetween(dataType, content, lo, hi)| == 0 then Ok([]) else Err(NoMemory);
      }
      r := LearnBetween(path, content, lo, hi);
    }

    /** The loop of `Learn`, over the lengths `hi` down to `lo`, on a path that has a memory. */
    method LearnBetween(path: Path, content: Bits, lo: nat, hi: nat) returns (r: Result<seq<Path>>)
      requires hi <= |content|
      requires path.memory != null
      ensures var sizes := AcceptedBetween(dataType, content, lo, hi);
                r.Ok? && |r.value| == |sizes| &&
                (forall i, j :: 0 <= i < j < |sizes| ==> r.value[i] != r.value[j]) &&
                forall i :: 0 <= i < |sizes| ==>
                  fresh(r.value[i]) && (r.value[i].memory != null ==> fresh(r.value[i].memory)) &&
                  BranchOf(r.value[i], path, id, content[..sizes[i]], true)
    {
      var paths: seq<Path> := [];
      ghost var sizes: seq<nat> := [];
      var size: int := hi;
      while size >= lo
        invariant size <= hi && (lo - 1 <= size || size == hi)
        invariant sizes == AcceptedBetween(dataType, content, size + 1, hi)
        invariant |paths| == |sizes|
        invariant forall i, j :: 0 <= i < j < |paths| ==> paths[i] != paths[j]
        invariant forall i :: 0 <= i < |paths| ==>
                    fresh(paths[i]) && (paths[i].memory != null ==> fresh(paths[i].memory)) &&
                    BranchOf(paths[i], path, id, content[..sizes[i]], true)
      {
        AcceptedBetweenSplitLow(dataType, content, size, hi);
        if size == 0 || dataType.canParse(content[..size]) {
          var q := LearntBranch(path, content[..size]);
          paths, sizes := paths + [q], sizes + [size];
        }
        size := size - 1;
      }
      r := Ok(paths);
    }

    /** One accepted branch of `Learn`: a duplicate of `path` recording and memorizing `value`. */
    method LearntBranch(path: Path, value: Bits) returns (q: Path)
      requires path.memory != null
      ensures fresh(q) && q.memory != null && fresh(q.memory)
      ensures BranchOf(q, path, id, value, true)
    {
      q := path.Duplicate();
      q.AddResult(id, value);
      q.memory.Memorize(id, value);
    }

    /**
     * Parses against the pinned value: the memorized one, else the current
     * one. Content that starts with it yields this same path, recording it;
     * any other content yields no path and changes nothing.
     */
    method ValueCmp(path: Path?) returns (r: Result<seq<Path>>)
      modifies path
      ensures path == null ==> r == Err(NullPath)
      ensures path != null ==> path.dataAssigned == old(path.dataAssigned) && path.memory == old(path.memory)
      ensures path != null && path.memory != null ==> path.memory.values == old(path.memory.values)
      ensures path != null && path.memory == null ==> r == Err(NoMemory) && path.results == old(path.results)
      ensures path != null && path.memory != null ==>
                var expected := Resolve(path.memory.values, currentValue, id);
                if expected.None? then r == Err(NoValue) && path.results == old(path.results)
                else if id !in path.dataAssigned then r == Err(NoContent) && path.results == old(path.results)
                else if Matches(path.dataAssigned[id], expected.value) then
                  r == Ok([path]) && path.results == old(path.results)[id := expected.value]
                else
                  r == Ok([]) && path.results == old(path.results)
    {
      if path == null {
        return Err(NullPath);
      }
      var expected := currentValue;
      var memory := path.memory;
      if memory == null {
        return Err(NoMemory);
      }
      if id in memory.values {
        expected := Some(memory.values[id]);
      }
      if expected.None? {
        return Err(NoValue);
      }
      if id !in path.dataAssigned {
        return Err(NoContent);
      }
      var content := path.dataAssigned[id];
      var e := expected.value;
      if |content| >= |e| && content[..|e|] == e {
        path.AddResult(id, e);
        r := Ok([path]);
      } else {
        r := Ok([]);
      }
    }

    /**
     * Specializes to the memorized value, else the current value; with
     * neither it yields no path. It never writes the memory.
     */
    method Use(path: Path?) returns (r: Result<seq<Path>>)
      modifies path
      ensures path == null ==> r == Err(NullPath)
      ensures path != null ==> path.dataAssigned == old(path.dataAssigned) && path.memory == old(path.memory)
      ensures path != null && path.memory != null ==> path.memory.values == old(path.memory.values)
      ensures path != null && path.memory == null ==> r == Err(NoMemory) && path.results == old(path.results)
      ensures path != null && path.memory != null ==>
                var value := Resolve(path.memory.values, currentValue, id);
                if value.Some? then r == Ok([path]) && path.results == old(path.results)[id := value.value]
                else r == Ok([]) && path.results == old(path.results)
    {
      if path == null {
        return Err(NullPath);
      }
      var memory := path.memory;
      if memory == null {
        return Err(NoMemory);
      }
      if id in memory.values {
        path.AddResult(id, memory.values[id]);
        r := Ok([path]);
      } else if currentValue.Some? {
        path.AddResult(id, currentValue.value);
        r := Ok([path]);
      } else {
        r := Ok([]);
      }
    }

    /**
     * Specializes to `generated`, the value the data type's generator drew,
     * without reading or writing the memory.
     */
    method Regenerate(path: Path?, generated: Bits) returns (r: Result<seq<Path>>)
      modifies path
      ensures path == null ==> r == Err(NullPath)
      ensures path != null ==>
                r == Ok([path]) && path.results == old(path.results)[id := generated] &&
                path.dataAssigned == old(path.dataAssigned) && path.memory == old(path.memory)
      ensures path != null && path.memory != null ==> path.memory.values == old(path.memory.values)
    {
      if path == null {
        return Err(NullPath);
      }
      path.AddResult(id, generated);
      r := Ok([path]);
    }

    /**
     * Specializes to `generated`, the value the data type's generator drew,
     * and memorizes it; without a memory it raises before recording anything.
     */
    method RegenerateAndMemorize(path: Path?, generated: Bits) returns (r: Result<seq<Path>>)
      modifies path, if path != null then {path.memory} else {}
      ensures path == null ==> r == Err(NullPath)
      ensures path != null ==> path.dataAssigned == old(path.dataAssigned) && path.memory == old(path.memory)
      ensures path != null && path.memory == null ==> r == Err(NoMemory) && path.results == old(path.results)
      ensures path != null && path.memory != null ==>
                r == Ok([path]) && path.results == old(path.results)[id := generated] &&
                path.memory.values == old(path.memory.values)[id := generated]
    {
      if path == null {
        return Err(NullPath);
      }
      var memory := path.memory;
      if memory == null {
        return Err(NoMemory);
      }
      memory.Memorize(id, generated);
      path.AddResult(id, generated);
      r := Ok([path]);
    }
  }

  /**
   * Two leaves are interchangeable exactly when their current values, data
   * types and value-sharing modes agree, whatever their identities and names.
   */
  lemma EqualsIgnoresIdentity(a: Data, b: Data)
    ensures a.Equals(b) <==> a.currentValue == b.currentValue && a.dataType == b.dataType && a.svas == b.svas
  {
  }
}
