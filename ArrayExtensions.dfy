/** The Deconstruct extensions that unpack an array of known length into its elements. */
module ArrayExtensions {
  import opened Wrappers

  /** The ArgumentException thrown for an array of the wrong length. */
  datatype LengthError = LengthError(length: nat)

  /** Deconstruct into two items; the array is only read. */
  function Deconstruct2<T>(a: seq<T>): (r: Result<(T, T), LengthError>)
    ensures r.Success? <==> |a| == 2
    ensures r.Success? ==> a == [r.value.0, r.value.1]
    ensures r.Failure? ==> r.error.length == |a|
  {
    if |a| != 2 then Failure(LengthError(|a|)) else Success((a[0], a[1]))
  }

  /** Deconstruct into four items; the array is only read. */
  function Deconstruct4<T>(a: seq<T>): (r: Result<(T, T, T, T), LengthError>)
    ensures r.Success? <==> |a| == 4
    ensures r.Success? ==> a == [r.value.0, r.value.1, r.value.2, r.value.3]
    ensures r.Failure? ==> r.error.length == |a|
  {
    if |a| != 4 then Failure(LengthError(|a|)) else Success((a[0], a[1], a[2], a[3]))
  }

  /** Deconstructing the pair or quadruple an array was built from gives back its elements. */
  lemma DeconstructOfDisplay<T>(x: T, y: T, z: T, w: T)
    ensures Deconstruct2([x, y]) == Success((x, y))
    ensures Deconstruct4([x, y, z, w]) == Success((x, y, z, w))
  {
  }
}
