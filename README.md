# Netzob `Data` leaf: parsing and specialization primitives

This project models the `Data` leaf variable of Netzob's field grammar
(`src/netzob/Common/Models/Vocabulary/Domain/Variables/Leafs/Data.py`). A
`Data` stands for one portion of a message. It is defined by a data type
(size bounds in bits, a parseability test, a generator) and possibly a
current value. The leaf offers these primitives:

- **Parsing.**
  - `domainCMP` is a backtracking search over the prefix lengths of the content.
  - `learn` is the same search, and it also memorizes each accepted prefix.
  - `valueCMP` compares the content against a pinned value.
- **Specialization.**
  - `use` replays a known value.
  - `regenerate` records a freshly generated value.
  - `regenerateAndMemorize` records a freshly generated value and stores it.
- **Queries.**
  - `isDefined` says whether a value is available.
  - `__eq__` identifies interchangeable leaves.

Files:

- `wrappers.dfy` (`Wrappers`) holds `Option`, the model of Python's `None`.
- `field_type.dfy` (`FieldTypes`) models the data type as a record: `minSize`, `maxSize` (absent when unbounded) and an arbitrary `canParse` predicate. Bits are `seq<bool>`.
- `paths.dfy` (`Paths`) holds the collaborators.
  - `Memory` is a class whose `values` map is updated in place by `Memorize`.
  - `Path` stands for both the parsing path and the specializing path. It holds the content assigned to each variable, the results recorded so far and a possibly absent memory.
  - `BranchOf` says what a duplicated branch holds.
- `length_search.dfy` (`LengthSearch`) specifies the length search. `AcceptedSizes` gives the lengths that yield a path, in the order the paths are returned. The lemmas here prove its ordering, soundness, completeness and carnivorous behaviour.
- `value_resolution.dfy` (`ValueResolution`) holds the value-resolution rules. `Resolve` puts the memory before the current value. `Matches` is the bit-by-bit prefix comparison.
- `data.dfy` (`DataLeaf`) holds the `Data` class. Its methods are proved against the functions above.

Python exceptions become `Err` values of `Result`:

| error | raised when |
|---|---|
| `NullPath` | the path is `None` |
| `NoMemory` | the path has no memory |
| `NoValue` | `valueCMP` finds no value to compare against |
| `NoContent` | no content is assigned to the leaf |

An ordinary failure to match is `Ok([])`.

Bit strings are values, so the defensive `.copy()` calls are implicit. These are the copies on every `currentValue` get and set, and on every prefix recorded or memorized. No branch can alter a value another branch recorded.

Each duplicated path gets its own copy of the memory. `Path.Duplicate` returns a fresh `Memory`, and what `learn` memorizes on one branch is seen only by that branch. The parsing path is not part of this model, so this is an assumption. It is the reading that best fits the ephemeral parsing example in the class documentation (`Data.py:136-158`). There the memory holds the whole 48-bit "netzob" afterwards. With bounds of 40 to 80 bits, the search presumably also accepts the 40-bit prefix "netzo". If so, a memory shared by all branches would be left holding that shorter prefix, the last one memorized.

Two behaviours of the code worth noting:

- A carnivorous search records the whole content even beyond the type's maximum size (`Data.py:372-376`, `CarnivorousTakesAll`).
- `use` returns no path when nothing is defined (`Data.py:464-473`), although its docstring (`Data.py:455-457`) describes a result holding the memorized or predefined value.

## Model

| member | source | states |
|---|---|---|
| `LengthSearch.Accepts` | src/netzob/Common/Models/Vocabulary/Domain/Variables/Leafs/Data.py:377-378 | defines when a prefix length is consumable: length 0 always, any other length when the data type can parse the prefix of that length |
| `LengthSearch.Lower` | src/netzob/Common/Models/Vocabulary/Domain/Variables/Leafs/Data.py:362-373 | defines the smallest length tried: the type's minimum, or the whole content length when carnivorous |
| `LengthSearch.Upper` | src/netzob/Common/Models/Vocabulary/Domain/Variables/Leafs/Data.py:362-376 | the largest length tried never exceeds the content length (an absent maximum reads as the content length) |
| `LengthSearch.AcceptedSizes` | src/netzob/Common/Models/Vocabulary/Domain/Variables/Leafs/Data.py:362-378 | defines the lengths that yield a path, in order: none when the content is shorter than the minimum, otherwise the accepted lengths from `Upper` down to `Lower` |
| `LengthSearch.AcceptedBetween` | src/netzob/Common/Models/Vocabulary/Domain/Variables/Leafs/Data.py:376-378 | every length the loop keeps lies in the searched range and its prefix is accepted (length 0 always is) |
| `LengthSearch.AcceptedBetweenSplitLow` | src/netzob/Common/Models/Vocabulary/Domain/Variables/Leafs/Data.py:376-383 | trying one more, lower length appends it at the end of the results exactly when it is accepted |
| `LengthSearch.AcceptedBetweenDescending` | src/netzob/Common/Models/Vocabulary/Domain/Variables/Leafs/Data.py:376 | the lengths kept are strictly decreasing |
| `LengthSearch.AcceptedBetweenComplete` | src/netzob/Common/Models/Vocabulary/Domain/Variables/Leafs/Data.py:376-378 | every accepted length of the range is kept |
| `LengthSearch.TooShortYieldsNothing` | src/netzob/Common/Models/Vocabulary/Domain/Variables/Leafs/Data.py:368-374 | content shorter than the type's minimum yields no path, also when carnivorous (the check precedes the override) |
| `LengthSearch.AcceptedSizesOrdered` | src/netzob/Common/Models/Vocabulary/Domain/Variables/Leafs/Data.py:362-376 | the lengths come strictly decreasing, between the type's minimum and the content length, and not above the type's maximum unless carnivorous |
| `LengthSearch.AcceptedSizesSoundComplete` | src/netzob/Common/Models/Vocabulary/Domain/Variables/Leafs/Data.py:362-383 | a length yields a path if and only if the content reaches the minimum, the length lies between the lower and upper bound and it is 0 or its prefix can be parsed |
| `LengthSearch.CarnivorousTakesAll` | src/netzob/Common/Models/Vocabulary/Domain/Variables/Leafs/Data.py:372-376 | a carnivorous search yields at most one length, the whole content, even beyond the type's maximum |
| `LengthSearch.LongestFirst` | src/netzob/Common/Models/Vocabulary/Domain/Variables/Leafs/Data.py:376-383 | when the largest candidate length is accepted it is the first path returned |
| `ValueResolution.Resolve` | src/netzob/Common/Models/Vocabulary/Domain/Variables/Leafs/Data.py:392-400 | defines the value a leaf stands for: the memorized value when the memory holds one, else the current value (the same priority `use` applies at lines 466-471) |
| `ValueResolution.Defined` | src/netzob/Common/Models/Vocabulary/Domain/Variables/Leafs/Data.py:337-346 | defines definedness: a current value is set or the memory holds a value for the leaf |
| `ValueResolution.Matches` | src/netzob/Common/Models/Vocabulary/Domain/Variables/Leafs/Data.py:410 | defines the exact comparison: the content is at least as long as the expected value and its prefix of that length equals it |
| `ValueResolution.ResolveIffDefined` | src/netzob/Common/Models/Vocabulary/Domain/Variables/Leafs/Data.py:462-473 | `use` finds a value exactly when a current value is set or the memory holds one |
| `ValueResolution.MatchesIsPrefix` | src/netzob/Common/Models/Vocabulary/Domain/Variables/Leafs/Data.py:410 | the length-and-slice comparison of `valueCMP` is exactly the prefix relation |
| `ValueResolution.MatchesExactlyItsPrefix` | src/netzob/Common/Models/Vocabulary/Domain/Variables/Leafs/Data.py:409-415 | content beginning with the pinned value matches; content beginning with other bits of the same length does not |
| `ValueResolution.MemorizedIsResolved` | src/netzob/Common/Models/Vocabulary/Domain/Variables/Leafs/Data.py:502-506 | after a value is memorized, it is the value `use` and `valueCMP` resolve to, whatever the current value |
| `ValueResolution.LearntPrefixMatches` | src/netzob/Common/Models/Vocabulary/Domain/Variables/Leafs/Data.py:442-448 | a prefix learnt from some content becomes the expected value, and that content then matches it |
| `DataLeaf.Data.constructor` | src/netzob/Common/Models/Vocabulary/Domain/Variables/Leafs/Data.py:291-311 | the leaf keeps its data type, its mode and its original value as current value |
| `DataLeaf.Data.SetCurrentValue` | src/netzob/Common/Models/Vocabulary/Domain/Variables/Leafs/Data.py:551-558 | the setter replaces the current value and nothing else |
| `DataLeaf.Data.IsDefined` | src/netzob/Common/Models/Vocabulary/Domain/Variables/Leafs/Data.py:323-346 | error on a missing path; true when a current value is set (even without a memory); error when neither a current value nor a memory; otherwise true exactly when a current value is set or the memory holds one |
| `DataLeaf.Data.DomainCmp` | src/netzob/Common/Models/Vocabulary/Domain/Variables/Leafs/Data.py:348-385 | error on a missing path or content; otherwise one fresh, distinct branch per length of `AcceptedSizes`, in that order, recording the prefix of that length, each with its own fresh copy of the memory, and the input path and its memory untouched |
| `DataLeaf.Data.DomainCmpBetween` | src/netzob/Common/Models/Vocabulary/Domain/Variables/Leafs/Data.py:376-385 | the descending loop returns one branch per accepted length of the range, in order |
| `DataLeaf.Data.ParsedBranch` | src/netzob/Common/Models/Vocabulary/Domain/Variables/Leafs/Data.py:380-382 | a fresh duplicate, with a fresh memory when the input has one, recording the prefix |
| `DataLeaf.Data.Learn` | src/netzob/Common/Models/Vocabulary/Domain/Variables/Leafs/Data.py:417-451 | the same lengths, values and order as `DomainCmp`; each branch's own memory also binds the leaf to its prefix; a missing memory is an error exactly when some length is accepted |
| `DataLeaf.Data.LearnBetween` | src/netzob/Common/Models/Vocabulary/Domain/Variables/Leafs/Data.py:442-451 | the descending loop returns one learnt branch per accepted length of the range, in order |
| `DataLeaf.Data.LearntBranch` | src/netzob/Common/Models/Vocabulary/Domain/Variables/Leafs/Data.py:446-449 | a fresh duplicate with a fresh memory, recording and memorizing the prefix |
| `DataLeaf.Data.ValueCmp` | src/netzob/Common/Models/Vocabulary/Domain/Variables/Leafs/Data.py:387-415 | errors for a missing path, memory, expected value or content, in that order; the expected value is the memorized one, else the current one; on a prefix match the same path is returned recording it, otherwise no path and nothing changes; memory is never written |
| `DataLeaf.Data.Use` | src/netzob/Common/Models/Vocabulary/Domain/Variables/Leafs/Data.py:453-473 | records the memorized value, else the current value, returning the same path; with neither, no path; memory is never written |
| `DataLeaf.Data.Regenerate` | src/netzob/Common/Models/Vocabulary/Domain/Variables/Leafs/Data.py:475-489 | returns exactly the same path, recording the generated value, with memory unchanged |
| `DataLeaf.Data.RegenerateAndMemorize` | src/netzob/Common/Models/Vocabulary/Domain/Variables/Leafs/Data.py:491-506 | returns exactly the same path, recording the generated value, which the memory now binds to the leaf; without a memory, an error and nothing recorded |
| `DataLeaf.Data.Key` | src/netzob/Common/Models/Vocabulary/Domain/Variables/Leafs/Data.py:320-321 | defines the deduplication key: class name, current value, data type and mode |
| `DataLeaf.Data.Equals` | src/netzob/Common/Models/Vocabulary/Domain/Variables/Leafs/Data.py:317-318 | defines equality of two leaves as equality of their keys |
| `DataLeaf.EqualsIgnoresIdentity` | src/netzob/Common/Models/Vocabulary/Domain/Variables/Leafs/Data.py:316-321 | two leaves are equal exactly when current value, data type and mode agree; identity and name play no part |

## Left out

- The data type's internals (ASCII, Decimal, Raw sizes, parsing, generation) are not part of this model. `canParse` is arbitrary. The value `generate()` draws is a parameter of `Regenerate` and `RegenerateAndMemorize`, so randomness is not modelled. The examples stating that two generated values differ cannot be stated.
- The value-sharing mode dispatch (which primitive runs for CONSTANT, PERSISTENT, EPHEMERAL or VOLATILE) lives in `AbstractVariableLeaf`, which is not part of this model. So do the end-to-end examples through `MessageParser` and `MessageSpecializer`. `Svas` is kept only as part of the equality key.
- The parsing path, specializing path and memory are modelled minimally, as maps. How the parsing path slices the content for a variable is not part of this model. Whether `duplicate()` copies or shares the memory is not part of it either, and the copying reading is assumed (see above).
- `DataLeaf.Data.Learn`: a missing memory is checked before the loop rather than on the first accepted length. Nothing observable happens before that point in the source, so the outcome is the same. This rests on the assumption about `duplicate()` above: that it succeeds on a path without a memory, which `Paths.Path.Duplicate` also assumes.
- `DataLeaf.Data.constructor` takes the identity, name and mode as arguments. The superclass `AbstractVariableLeaf` resolves the default `name=None` and `svas=None` (`Data.py:291`) and assigns the identity (`Data.py:308`); it is not part of this model.
- `DataLeaf.Data.Key` and `DataLeaf.Data.Equals` model `__key`/`__eq__` with the model's structural equality of data types. The source's own equality of data type objects is not part of this model.
- Logging, the `@typeCheck` and `@NetzobLogger` decorators, `__str__`, the unused `acceptCallBack` parameters, and the `carnivorous` parameter of `valueCMP` (`Data.py:388`), which it never reads, are not modelled.
- The commented-out `buildRegex` and the disabled older implementation at the end of the file are not modelled, since they are not live code.
