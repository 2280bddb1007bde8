/**
 * The builders' feature-ID counters and the empty-input guards of the string
 * conversions in StringHelper. GenerateUUID and IDGenerator::Generate each
 * keep a function-local static counter; an IdCounter object stands for one
 * such counter, so a builder receives the counter it draws from.
 */
module Ids {
  import opened Wrappers
  import opened Text

  /** The ID a counter hands out when its value after the increment is n. */
  function GeneratedId(n: nat): (id: string)
    ensures |id| > 3 && id[..3] == "FB-" && id[3..] == NatToString(n)
  {
    "FB-" + NatToString(n)
  }

  /** Two generated IDs are equal exactly when they came from the same counter value. */
  lemma GeneratedIdInjective(a: nat, b: nat)
    ensures GeneratedId(a) == GeneratedId(b) <==> a == b
  {
    if GeneratedId(a) == GeneratedId(b) {
      assert GeneratedId(a)[3..] == GeneratedId(b)[3..];
      NatToStringInjective(a, b);
    }
  }

  /** A static counter, zero before the first call. */
  class IdCounter {
    var count: nat

    constructor ()
      ensures count == 0
    {
      count := 0;
    }

    /** fetch_add(1) + 1: the counter rises by one and the new value names the ID. */
    method Generate() returns (id: string)
      modifies this
      ensures count == old(count) + 1
      ensures id == GeneratedId(count)
    {
      count := count + 1;
      id := GeneratedId(count);
    }
  }

  /**
   * The counter only rises, so an ID handed out at value n differs from every
   * ID the counter hands out later.
   */
  lemma LaterIdsDiffer(earlier: nat, later: nat)
    requires earlier < later
    ensures GeneratedId(earlier) != GeneratedId(later)
  {
    GeneratedIdInjective(earlier, later);
  }

  /**
   * ToUtf8 of a wide string: the empty string converts to the empty string;
   * anything else goes to the platform converter, which is a parameter here.
   */
  function ToUtf8(w: string, convert: string -> string): (s: string)
    ensures w == [] ==> s == []
    ensures w != [] ==> s == convert(w)
  {
    if w == [] then [] else convert(w)
  }

  /** The pointer overloads of ToUtf8: a null pointer converts to the empty string. */
  function ToUtf8Pointer(w: Option<string>, convert: string -> string): (s: string)
    ensures w.None? ==> s == []
    ensures w.Some? ==> s == ToUtf8(w.value, convert)
  {
    if w.None? then [] else ToUtf8(w.value, convert)
  }

  /** ToWide: the empty string converts to the empty wide string. */
  function ToWide(s: string, convert: string -> string): (w: string)
    ensures s == [] ==> w == []
    ensures s != [] ==> w == convert(s)
  {
    if s == [] then [] else convert(s)
  }
}
