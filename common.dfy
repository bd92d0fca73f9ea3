/** Values shared by every layer of the model: the Python exceptions the core can raise,
    result wrappers standing for "returned a value" versus "raised", and the index the
    name-resolution functions return (a 1-based position, or Python's `False`). */
module Common {

  /** The exceptions the modelled code raises. */
  datatype Error =
    | IndexError      // `[...][0]` on an empty filter, `seq[i]` past the end
    | TypeError       // `modifyN` given something that is not a list, dict or float
    | AttributeError  // `func` applied to a dict in `getSingleDatum`

  datatype Option<T> = None | Some(value: T)

  /** A value the Python code returns, or the exception it raises instead. */
  datatype Result<T> = Ok(value: T) | Err(error: Error)

  /** The outcome of a Python statement sequence that returns nothing. */
  datatype Outcome = Done | Raised(error: Error)

  /** What `getRiverID`, `getReachID` and `getXSID` return: `ix + 1` for a match,
      or `False` when nothing matches. */
  datatype Index = Found(ix: nat) | NotFound

  /** The integer the service receives when an `Index` is passed on to it.
      Python's `False` is the integer 0, which is not a valid 1-based index. */
  function ComArg(i: Index): (n: int)
    ensures i.Found? ==> n == i.ix
    ensures i.NotFound? ==> n == 0
  {
    match i
    case Found(k) => k
    case NotFound => 0
  }

  /** Python's `s[i]` on a list or tuple, negative indices counting from the end;
      `None` is the IndexError. */
  function PyAt<X>(s: seq<X>, i: int): (r: Option<X>)
    ensures r.Some? <==> -|s| <= i < |s|
    ensures 0 <= i < |s| ==> r == Some(s[i])
    ensures -|s| <= i < 0 ==> r == Some(s[|s| + i])
  {
    if 0 <= i < |s| then Some(s[i])
    else if -|s| <= i < 0 then Some(s[|s| + i])
    else None
  }
}
