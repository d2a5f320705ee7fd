/** Names under which downloaded bars are stored: the parquet file or table
 *  name `<stripped symbol>_<timeframe>`, both lower-cased. */
module Naming {
  import opened Common
  import opened Utils

  /** `f"{strip_string_list_comp(symbol).lower()}_{timeframe.lower()}"`: its
   *  first underscore separates the symbol part from the timeframe part. */
  function StorageName(symbol: string, timeframe: string): (name: string)
    ensures |name| == |Strip(symbol)| + 1 + |timeframe|
    ensures SplitAtUnderscore(name) == (Lower(Strip(symbol)), Lower(timeframe))
  {
    LowerStrippedHasNoUnderscore(symbol);
    SplitJoined(Lower(Strip(symbol)), Lower(timeframe));
    Lower(Strip(symbol)) + "_" + Lower(timeframe)
  }

  /** `str.partition("_")` without the separator: the text before the first
   *  underscore and the text after it. */
  function SplitAtUnderscore(s: string): (parts: (string, string))
    ensures '_' !in parts.0
  {
    if s == [] then ([], [])
    else if s[0] == '_' then ([], s[1..])
    else var rest := SplitAtUnderscore(s[1..]); ([s[0]] + rest.0, rest.1)
  }

  lemma {:induction false} SplitJoined(a: string, b: string)
    requires '_' !in a
    ensures SplitAtUnderscore(a + "_" + b) == (a, b)
  {
    if a == [] {
      assert a + "_" + b == ['_'] + b;
    } else {
      assert (a + "_" + b)[0] == a[0] && a[0] != '_';
      assert (a + "_" + b)[1..] == a[1..] + "_" + b;
      SplitJoined(a[1..], b);
      assert [a[0]] + a[1..] == a;
    }
  }

  /** The stripped, lower-cased symbol is alphanumeric, so it holds no underscore. */
  lemma LowerStrippedHasNoUnderscore(symbol: string)
    ensures AllAlnum(Lower(Strip(symbol)))
    ensures '_' !in Lower(Strip(symbol))
  {
    var t := Lower(Strip(symbol));
    forall i | 0 <= i < |t| ensures IsAlnum(t[i]) {
      assert IsAlnum(Strip(symbol)[i]);
    }
  }

  /** Distinct (stripped symbol, timeframe) pairs, compared after lower-casing,
   *  never share a storage name. */
  lemma StorageNameInjective(s1: string, t1: string, s2: string, t2: string)
    requires StorageName(s1, t1) == StorageName(s2, t2)
    ensures Lower(Strip(s1)) == Lower(Strip(s2))
    ensures Lower(t1) == Lower(t2)
  {
    assert SplitAtUnderscore(StorageName(s1, t1)) == SplitAtUnderscore(StorageName(s2, t2));
  }
}
