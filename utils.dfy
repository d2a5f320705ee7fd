/** `strip_string_list_comp` (utils.py): keep only the alphanumeric
 *  characters of a string, in their original order. */
module Utils {

  /** `str.isalnum` on one character, restricted to ASCII letters and digits. */
  predicate IsAlnum(c: char)
  {
    ('a' <= c <= 'z') || ('A' <= c <= 'Z') || ('0' <= c <= '9')
  }

  predicate AllAlnum(s: string)
  {
    forall i :: 0 <= i < |s| ==> IsAlnum(s[i])
  }

  /** `"".join(char for char in s if char.isalnum())` */
  function Strip(s: string): (r: string)
    ensures |r| <= |s|
    ensures AllAlnum(r)
  {
    if s == [] then [] else (if IsAlnum(s[0]) then [s[0]] else []) + Strip(s[1..])
  }

  /** `sub` can be obtained from `s` by deleting characters. */
  predicate IsSubsequence(sub: string, s: string)
    decreases |s|
  {
    if sub == [] then true
    else if s == [] then false
    else if sub[0] == s[0] then IsSubsequence(sub[1..], s[1..])
    else IsSubsequence(sub, s[1..])
  }

  /** Stripping works character by character: it distributes over concatenation. */
  lemma {:induction false} StripConcat(a: string, b: string)
    ensures Strip(a + b) == Strip(a) + Strip(b)
  {
    if a == [] {
      assert a + b == b;
    } else {
      var head: string := if IsAlnum(a[0]) then [a[0]] else [];
      calc {
        Strip(a + b);
        == { assert (a + b)[0] == a[0]; assert (a + b)[1..] == a[1..] + b; }
        head + Strip(a[1..] + b);
        == { StripConcat(a[1..], b); }
        head + (Strip(a[1..]) + Strip(b));
        ==
        (head + Strip(a[1..])) + Strip(b);
      }
    }
  }

  /** The result keeps the input's characters in their original order. */
  lemma {:induction false} StripIsSubsequence(s: string)
    ensures IsSubsequence(Strip(s), s)
  {
    if s != [] {
      StripIsSubsequence(s[1..]);
      if IsAlnum(s[0]) {
        assert Strip(s) == [s[0]] + Strip(s[1..]);
        assert Strip(s)[1..] == Strip(s[1..]);
      } else {
        assert Strip(s) == Strip(s[1..]);
      }
    }
  }

  /** Every alphanumeric character is kept as often as it occurs, every other
   *  character is dropped: with IsSubsequence this pins the result down to the
   *  input's alphanumeric characters in order. */
  lemma {:induction false} StripCounts(s: string, c: char)
    ensures multiset(Strip(s))[c] == if IsAlnum(c) then multiset(s)[c] else 0
  {
    if s != [] {
      StripCounts(s[1..], c);
      assert s == [s[0]] + s[1..];
      assert multiset(s) == multiset([s[0]]) + multiset(s[1..]);
      var head := if IsAlnum(s[0]) then [s[0]] else [];
      assert multiset(Strip(s)) == multiset(head) + multiset(Strip(s[1..]));
    }
  }

  /** A wholly alphanumeric string is left unchanged. */
  lemma {:induction false} StripKeepsAlnum(s: string)
    requires AllAlnum(s)
    ensures Strip(s) == s
  {
    if s != [] {
      assert AllAlnum(s[1..]) by {
        forall i | 0 <= i < |s[1..]| ensures IsAlnum(s[1..][i]) { assert s[1..][i] == s[i + 1]; }
      }
      StripKeepsAlnum(s[1..]);
      assert s == [s[0]] + s[1..];
    }
  }

  /** Idempotence: stripping an already stripped string changes nothing. */
  lemma {:induction false} StripIdempotent(s: string)
    ensures Strip(Strip(s)) == Strip(s)
  {
    StripKeepsAlnum(Strip(s));
  }

  /** The result is as long as the input exactly when nothing had to be dropped. */
  lemma {:induction false} StripLengthIff(s: string)
    ensures |Strip(s)| == |s| <==> AllAlnum(s)
  {
    if AllAlnum(s) {
      StripKeepsAlnum(s);
    } else {
      StripShrinks(s);
    }
  }

  lemma {:induction false} StripShrinks(s: string)
    requires !AllAlnum(s)
    ensures |Strip(s)| < |s|
  {
    if IsAlnum(s[0]) {
      assert !AllAlnum(s[1..]) by {
        var i :| 0 <= i < |s| && !IsAlnum(s[i]);
        assert s[1..][i - 1] == s[i];
      }
      StripShrinks(s[1..]);
    }
  }

  /** Input without any alphanumeric character, such as "" or "#", strips to "". */
  lemma {:induction false} StripNoAlnum(s: string)
    requires forall i :: 0 <= i < |s| ==> !IsAlnum(s[i])
    ensures Strip(s) == ""
  {
    if s != [] {
      assert forall i :: 0 <= i < |s[1..]| ==> !IsAlnum(s[1..][i]) by {
        forall i | 0 <= i < |s[1..]| ensures !IsAlnum(s[1..][i]) { assert s[1..][i] == s[i + 1]; }
      }
      StripNoAlnum(s[1..]);
    }
  }
}
