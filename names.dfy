/** The person registry's name cleaning, `cl`: every character outside one
    character class is removed, and the others keep their order. */
module Names {

  /** A character the class keeps: ASCII letters and digits, the code points
      U+00DF ('ß') to U+00FC ('ü'), '-' and '_'. (The '-' written right
      after the range from 'ß' to 'ü' is a literal, not a further range.) */
  predicate Kept(c: char)
  {
    || 'a' <= c <= 'z'
    || 'A' <= c <= 'Z'
    || '0' <= c <= '9'
    || '\U{DF}' <= c <= '\U{FC}'
    || c == '-'
    || c == '_'
  }

  /** `cl(s)`: the kept characters of `s`, in their original order. */
  function Cl(s: string): (r: string)
    ensures |r| <= |s|
    ensures forall i :: 0 <= i < |r| ==> Kept(r[i])
  {
    if s == [] then ""
    else (if Kept(s[0]) then [s[0]] else "") + Cl(s[1..])
  }

  /** Cleaning a concatenation cleans each part: the output keeps the order of
      the input. */
  lemma {:induction false} ClConcat(a: string, b: string)
    ensures Cl(a + b) == Cl(a) + Cl(b)
    decreases |a|
  {
    if a != [] {
      assert (a + b)[1..] == a[1..] + b;
      ClConcat(a[1..], b);
    } else {
      assert a + b == b;
    }
  }

  /** A character occurs in the cleaned name exactly when it occurs in the
      original and the class keeps it. */
  lemma {:induction false} ClMembership(s: string, c: char)
    ensures c in Cl(s) <==> c in s && Kept(c)
    decreases |s|
  {
    if s != [] {
      ClMembership(s[1..], c);
      assert s == [s[0]] + s[1..];
    }
  }

  /** A name made only of kept characters is left as it is. */
  lemma {:induction false} ClKeepsClean(s: string)
    requires forall i :: 0 <= i < |s| ==> Kept(s[i])
    ensures Cl(s) == s
    decreases |s|
  {
    if s != [] {
      ClKeepsClean(s[1..]);
      assert s == [s[0]] + s[1..];
    }
  }

  /** Cleaning twice is cleaning once. */
  lemma ClIdempotent(s: string)
    ensures Cl(Cl(s)) == Cl(s)
  {
    ClKeepsClean(Cl(s));
  }

  /** Cleaning drops exactly the characters the class does not match, so the
      output is as long as the number of kept characters of the input. */
  function KeptCount(s: string): nat
  {
    if s == [] then 0 else (if Kept(s[0]) then 1 else 0) + KeptCount(s[1..])
  }

  lemma {:induction false} ClLength(s: string)
    ensures |Cl(s)| == KeptCount(s)
    decreases |s|
  {
    if s != [] {
      ClLength(s[1..]);
    }
  }

  /** A cleaned name never contains '#', so the `'######'` separator the
      script uses cannot occur inside one. */
  lemma ClNoHash(s: string)
    ensures '#' !in Cl(s)
  {
    ClMembership(s, '#');
  }

  /** The upper-case umlauts lie below U+00DF and are removed. */
  lemma ClDropsUpperUmlauts(s: string)
    ensures '\U{C4}' !in Cl(s) && '\U{D6}' !in Cl(s) && '\U{DC}' !in Cl(s)
  {
    ClMembership(s, '\U{C4}');
    ClMembership(s, '\U{D6}');
    ClMembership(s, '\U{DC}');
  }

  /** ',' and ' ' (the default delimiter's characters), '.', '"' and '<' are
      all removed. */
  lemma ClDropsPunctuation(s: string)
    ensures ',' !in Cl(s) && ' ' !in Cl(s) && '.' !in Cl(s) && '"' !in Cl(s) && '<' !in Cl(s)
  {
    ClMembership(s, ',');
    ClMembership(s, ' ');
    ClMembership(s, '.');
    ClMembership(s, '"');
    ClMembership(s, '<');
  }
}
