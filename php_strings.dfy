/**
  The PHP string built-ins the notification planner relies on, written out
  as functions on `string` (`seq<char>`):
  - `Explode(sep, s)` is PHP's `explode` with a one-character separator and
    no limit: the pieces between the separators, empty pieces included;
  - `Implode(sep, parts)` is PHP's `implode`: the pieces with `sep` between
    consecutive ones;
  - `Count(c, s)` is the number of occurrences of `c` in `s`.
  The lemmas relate the three: explode and implode are inverse to each other,
  and counting distributes over concatenation and implosion.
 */
module PhpStrings {

  /** The pieces of `s` between occurrences of `sep`; there is always one more
      piece than there are separators, so the result is never empty. */
  function Explode(sep: char, s: string): (parts: seq<string>)
    ensures |parts| >= 1
    ensures forall i :: 0 <= i < |parts| ==> sep !in parts[i]
    decreases |s|
  {
    if |s| == 0 then [""]
    else
      var rest := Explode(sep, s[1..]);
      if s[0] == sep then [""] + rest
      else [[s[0]] + rest[0]] + rest[1..]
  }

  /** The pieces of `parts`, in order, with `sep` between consecutive ones. */
  function Implode(sep: string, parts: seq<string>): (s: string)
  {
    if |parts| == 0 then ""
    else if |parts| == 1 then parts[0]
    else parts[0] + sep + Implode(sep, parts[1..])
  }

  /** The number of occurrences of `c` in `s`. */
  function Count(c: char, s: string): (n: nat)
  {
    if |s| == 0 then 0
    else (if s[0] == c then 1 else 0) + Count(c, s[1..])
  }

  /** Imploding the exploded pieces with the same separator gives the string back. */
  lemma {:induction false} ImplodeExplode(sep: char, s: string)
    ensures Implode([sep], Explode(sep, s)) == s
    decreases |s|
  {
    if |s| > 0 {
      var rest := Explode(sep, s[1..]);
      ImplodeExplode(sep, s[1..]);
      if s[0] == sep {
        assert ([""] + rest)[1..] == rest;
        assert s == [sep] + s[1..];
      } else {
        var parts := [[s[0]] + rest[0]] + rest[1..];
        assert parts[1..] == rest[1..];
        if |rest| == 1 {
          assert s == [s[0]] + s[1..];
        } else {
          assert Implode([sep], rest) == rest[0] + [sep] + Implode([sep], rest[1..]);
          assert s == [s[0]] + s[1..];
        }
      }
    }
  }

  /** Exploding `p + t`, where `p` holds no separator, glues `p` to the first
      piece of `t`. */
  lemma {:induction false} ExplodeGlue(sep: char, p: string, t: string)
    requires sep !in p
    ensures Explode(sep, p + t) == [p + Explode(sep, t)[0]] + Explode(sep, t)[1..]
    decreases |p|
  {
    if |p| > 0 {
      assert (p + t)[0] == p[0];
      assert (p + t)[1..] == p[1..] + t;
      ExplodeGlue(sep, p[1..], t);
      assert [p[0]] + (p[1..] + Explode(sep, t)[0]) == p + Explode(sep, t)[0];
    } else {
      var parts := Explode(sep, t);
      assert p + t == t;
      assert p + parts[0] == parts[0];
      assert parts == [parts[0]] + parts[1..];
    }
  }

  /** Exploding imploded pieces that hold no separator gives the pieces back. */
  lemma {:induction false} ExplodeImplode(sep: char, parts: seq<string>)
    requires |parts| >= 1
    requires forall i :: 0 <= i < |parts| ==> sep !in parts[i]
    ensures Explode(sep, Implode([sep], parts)) == parts
  {
    if |parts| == 1 {
      ExplodeGlue(sep, parts[0], "");
      assert parts[0] + "" == parts[0];
    } else {
      var tail := Implode([sep], parts[1..]);
      ExplodeImplode(sep, parts[1..]);
      assert parts[0] + [sep] + tail == parts[0] + ([sep] + tail);
      ExplodeGlue(sep, parts[0], [sep] + tail);
      assert ([sep] + tail)[1..] == tail;
      assert Explode(sep, [sep] + tail) == [""] + parts[1..];
      assert parts[0] + "" == parts[0];
      assert parts == [parts[0]] + parts[1..];
    }
  }

  /** The imploded string starts with the first piece. */
  lemma ImplodeStartsWithFirst(sep: string, parts: seq<string>)
    requires |parts| >= 1
    ensures parts[0] <= Implode(sep, parts)
  {
    if |parts| > 1 {
      assert Implode(sep, parts) == parts[0] + (sep + Implode(sep, parts[1..]));
    }
  }

  /** Appending one more piece appends the separator and that piece. */
  lemma {:induction false} ImplodeSnoc(sep: string, parts: seq<string>, x: string)
    requires |parts| >= 1
    ensures Implode(sep, parts + [x]) == Implode(sep, parts) + sep + x
  {
    if |parts| == 1 {
      assert (parts + [x])[1..] == [x];
    } else {
      assert (parts + [x])[1..] == parts[1..] + [x];
      ImplodeSnoc(sep, parts[1..], x);
      assert Implode(sep, parts + [x]) == parts[0] + sep + (Implode(sep, parts[1..]) + sep + x);
    }
  }

  /** The imploded string ends with the last piece. */
  lemma {:induction false} ImplodeEndsWithLast(sep: string, parts: seq<string>)
    requires |parts| >= 1
    ensures var s := Implode(sep, parts);
      var last := parts[|parts| - 1];
      |last| <= |s| && s[|s| - |last|..] == last
  {
    if |parts| > 1 {
      var init := parts[..|parts| - 1];
      assert parts == init + [parts[|parts| - 1]];
      ImplodeSnoc(sep, init, parts[|parts| - 1]);
    }
  }

  lemma {:induction false} CountConcat(c: char, a: string, b: string)
    ensures Count(c, a + b) == Count(c, a) + Count(c, b)
    decreases |a|
  {
    if |a| > 0 {
      assert (a + b)[0] == a[0];
      assert (a + b)[1..] == a[1..] + b;
      CountConcat(c, a[1..], b);
    } else {
      assert a + b == b;
    }
  }

  lemma {:induction false} CountAbsent(c: char, s: string)
    requires c !in s
    ensures Count(c, s) == 0
    decreases |s|
  {
    if |s| > 0 {
      assert forall i :: 0 <= i < |s[1..]| ==> s[1..][i] == s[i + 1];
      CountAbsent(c, s[1..]);
    }
  }
}
