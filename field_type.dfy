/**
 * The data type a leaf is defined over (ASCII, Decimal, Raw, ...), seen only
 * through what the leaf uses of it: its size bounds in bits, its
 * parseability test, and (as a parameter of the generating operations) the
 * value its generator draws. Its internals are not part of this model.
 */
module FieldTypes {
  import opened Wrappers

  /** A bit string (a `bitarray` in the source). */
  type Bits = seq<bool>

  /**
   * `minSize` and `maxSize` are the pair `dataType.size`, in bits; a
   * `maxSize` of `None` means "unbounded". `canParse` is left arbitrary.
   */
  datatype FieldType = FieldType(minSize: nat, maxSize: Option<nat>, canParse: Bits -> bool)
}
