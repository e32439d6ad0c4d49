/** Values that travel between processes: the serialized coroutine state and the
    elements of a promise's awaiter vector. */
module Wire {

  datatype Option<+T> = None | Some(value: T)

  /** First choice, or the second when there is none. */
  function OrElse<T>(a: Option<T>, b: Option<T>): Option<T> {
    if a.Some? then a else b
  }

  /** A serialized state.  A tuple of one element is written as a bare scalar, a longer
      tuple as a structured value whose first item is the stage number. */
  datatype Blob = NoState | Scalar(n: nat) | Structured(stageItem: nat, items: seq<int>)

  /** Conversion to the 16-bit unsigned type of a stage number. */
  function U16(n: nat): nat {
    n % 0x1_0000
  }

  /** What a save of stage `n` with the values `vs` leaves in the state. */
  function Encode(n: nat, vs: seq<int>): Blob {
    if vs == [] then Scalar(U16(n)) else Structured(U16(n), vs)
  }

  /** The stage number read from a state: 0 when nothing was saved, the bare scalar, or the
      first item of the structured value. */
  function StageOf(b: Blob): nat {
    match b
    case NoState => 0
    case Scalar(n) => U16(n)
    case Structured(n, _) => U16(n)
  }

  /** The values after the stage number. */
  function ValuesOf(b: Blob): seq<int> {
    match b
    case Structured(_, vs) => vs
    case _ => []
  }

  /** Round trip at every arity, including no variables at all. */
  lemma StateRoundTrip(n: nat, vs: seq<int>)
    ensures ValuesOf(Encode(n, vs)) == vs
    ensures StageOf(Encode(n, vs)) == n <==> n <= 0xFFFF
    ensures n > 0 && n % 0x1_0000 == 0 ==> StageOf(Encode(n, vs)) == StageOf(NoState)
  {
    assert U16(U16(n)) == U16(n);
  }
}
