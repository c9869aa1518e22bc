/** Shared vocabulary: optional values, results, the Python exceptions the modelled code can
    raise, Python's substring test `needle in hay` and the first-match scan that every lookup
    loop of the program performs. */
module Common {

  datatype Option<+T> = None | Some(value: T)

  datatype Result<+T, +E> = Success(value: T) | Failure(error: E) {
    predicate IsFailure() { Failure? }

    function PropagateFailure<U>(): Result<U, E>
      requires Failure?
    {
      Failure(error)
    }

    function Extract(): T
      requires Success?
    {
      value
    }
  }

  /** The exceptions the modelled Python code raises, by kind. */
  datatype Exception =
    | KeyError(key: string)             // a dictionary key that is absent
    | NameError(name: string)           // a name that is not defined
    | AttributeError(attribute: string) // a method the object (or None) does not have
    | TypeError                         // a call with the wrong arguments, or iterating None
    | IndexError                        // sys.argv shorter than the index read
    | Raised(message: string)           // `raise Exception(message)`

  /** `needle` occurs in `hay` starting at position `i`. */
  ghost predicate OccursAt(needle: string, hay: string, i: int)
  {
    0 <= i && i + |needle| <= |hay| && hay[i..i + |needle|] == needle
  }

  /** The mathematical meaning of Python's `needle in hay` on two strings. */
  ghost predicate IsSubstring(needle: string, hay: string)
  {
    exists i :: OccursAt(needle, hay, i)
  }

  /** An occurrence in the tail of `hay` is an occurrence in `hay` one position later,
      and an occurrence in `hay` past position 0 is one in its tail. */
  lemma OccursInTail(needle: string, hay: string)
    requires |hay| > 0
    ensures IsSubstring(needle, hay[1..]) ==> IsSubstring(needle, hay)
    ensures IsSubstring(needle, hay) && !OccursAt(needle, hay, 0) ==> IsSubstring(needle, hay[1..])
  {
    if IsSubstring(needle, hay[1..]) {
      var i :| OccursAt(needle, hay[1..], i);
      assert hay[1..][i..i + |needle|] == hay[i + 1..i + 1 + |needle|];
      assert OccursAt(needle, hay, i + 1);
    }
    if IsSubstring(needle, hay) && !OccursAt(needle, hay, 0) {
      var i :| OccursAt(needle, hay, i);
      assert i != 0;
      assert hay[1..][i - 1..i - 1 + |needle|] == hay[i..i + |needle|];
      assert OccursAt(needle, hay[1..], i - 1);
    }
  }

  /** Python's `needle in hay` on strings, computed by trying each start position in turn. */
  function Contains(hay: string, needle: string): (r: bool)
    ensures r <==> IsSubstring(needle, hay)
    decreases |hay|
  {
    if |needle| > |hay| then
      assert forall i :: !OccursAt(needle, hay, i);
      false
    else if hay[..|needle|] == needle then
      assert OccursAt(needle, hay, 0);
      true
    else
      assert |hay| > 0;
      OccursInTail(needle, hay);
      Contains(hay[1..], needle)
  }

  /** The index of the first element of `s` satisfying `p`, or None when no element does:
      the shape of every `for ...: if ...: return` scan in the program. */
  function FirstIndex<T>(s: seq<T>, p: T -> bool): (r: Option<nat>)
    ensures r.Some? ==> r.value < |s| && p(s[r.value])
    ensures r.Some? ==> forall j :: 0 <= j < r.value ==> !p(s[j])
    ensures r.None? <==> forall j :: 0 <= j < |s| ==> !p(s[j])
  {
    if |s| == 0 then None
    else if p(s[0]) then Some(0)
    else match FirstIndex(s[1..], p)
      case None => None
      case Some(k) => Some(k + 1)
  }

  /** The first match is decided by the elements up to and including any matching one:
      two sequences that agree up to a matching position have the same first match. */
  lemma FirstIndexOfSharedPrefix<T>(s: seq<T>, t: seq<T>, p: T -> bool, i: nat)
    requires i < |s| && i < |t| && s[..i + 1] == t[..i + 1] && p(s[i])
    ensures FirstIndex(s, p) == FirstIndex(t, p)
    ensures FirstIndex(s, p).Some? && FirstIndex(s, p).value <= i
  {
    forall j | 0 <= j <= i
      ensures s[j] == t[j]
    {
      assert s[j] == s[..i + 1][j] && t[j] == t[..i + 1][j];
    }
  }
}
