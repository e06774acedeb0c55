/** System.Guid as far as the model needs it: a 128-bit value compared by value,
    with one distinguished all-zero value, Guid.Empty. */
module Guids {

  datatype Guid = Guid(hi: bv64, lo: bv64)

  /** Guid.Empty: the identifier a plugin has when it was never given a working id. */
  const Empty: Guid := Guid(0, 0)
}
