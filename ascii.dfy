/** The lossy name normalisation of the compute record's name setter, an
    ASCII encoding that ignores what it cannot encode: every character
    outside 7-bit ASCII is dropped, the others are kept in order. */
module Ascii {

  predicate IsAscii(c: char) {
    c as int < 128
  }

  predicate AllAscii(s: string) {
    forall i :: 0 <= i < |s| ==> IsAscii(s[i])
  }

  function StripNonAscii(s: string): (r: string)
    ensures AllAscii(r)
    ensures |r| <= |s|
  {
    if s == [] then []
    else if IsAscii(s[0]) then [s[0]] + StripNonAscii(s[1..])
    else StripNonAscii(s[1..])
  }

  /** Stripping works character by character: it distributes over concatenation. */
  lemma {:induction false} StripAppend(a: string, b: string)
    ensures StripNonAscii(a + b) == StripNonAscii(a) + StripNonAscii(b)
  {
    if a == [] {
      assert a + b == b;
    } else {
      assert (a + b)[0] == a[0];
      assert (a + b)[1..] == a[1..] + b;
      StripAppend(a[1..], b);
    }
  }

  /** A string is left unchanged exactly when it is all ASCII already. */
  lemma {:induction false} StripFixesExactlyAscii(s: string)
    ensures StripNonAscii(s) == s <==> AllAscii(s)
  {
    if s != [] {
      StripFixesExactlyAscii(s[1..]);
      if AllAscii(s) {
        assert AllAscii(s[1..]) by {
          forall i | 0 <= i < |s[1..]| ensures IsAscii(s[1..][i]) {
            assert s[1..][i] == s[i + 1];
          }
        }
      } else if IsAscii(s[0]) {
        assert !AllAscii(s[1..]) by {
          var j :| 0 <= j < |s| && !IsAscii(s[j]);
          assert j > 0 && s[1..][j - 1] == s[j];
        }
      } else {
        assert |StripNonAscii(s[1..])| <= |s[1..]| < |s|;
      }
    }
  }

  /** Setting a name twice stores the same value as setting it once. */
  lemma {:induction false} StripIdempotent(s: string)
    ensures StripNonAscii(StripNonAscii(s)) == StripNonAscii(s)
  {
    StripFixesExactlyAscii(StripNonAscii(s));
  }

  /** Every ASCII character occurs as often after stripping as before, and
      no other character occurs at all. */
  lemma {:induction false} StripKeepsAsciiCounts(s: string, c: char)
    ensures multiset(StripNonAscii(s))[c] == if IsAscii(c) then multiset(s)[c] else 0
  {
    if s == [] {
    } else {
      StripKeepsAsciiCounts(s[1..], c);
      assert s == [s[0]] + s[1..];
      assert multiset(s) == multiset([s[0]]) + multiset(s[1..]);
      if !IsAscii(c) {
        assert c !in StripNonAscii(s);
      }
    }
  }

  /** Dropping one non-ASCII character between two ASCII strings. */
  lemma DropOne(head: string, c: char, tail: string)
    requires AllAscii(head) && AllAscii(tail) && !IsAscii(c)
    ensures StripNonAscii(head + [c] + tail) == head + tail
  {
    StripAppend(head + [c], tail);
    StripAppend(head, [c]);
    StripFixesExactlyAscii(head);
    StripFixesExactlyAscii(tail);
    assert [c][1..] == [];
    assert StripNonAscii([c]) == [];
    assert head + [] == head;
  }

  /** The example name of the record tests: the Polish l with stroke goes. */
  lemma StripExample()
    ensures StripNonAscii("BujamyWObłokach") == "BujamyWObokach"
  {
    var head, tail := "BujamyWOb", "okach";
    assert AllAscii(head) && AllAscii(tail);
    DropOne(head, 'ł', tail);
    assert head + ['ł'] + tail == "BujamyWObłokach";
    assert head + tail == "BujamyWObokach";
  }
}
