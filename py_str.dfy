/**
  The Python `str` operations the serial reader applies to a received line:
  `replace("\r\n", "")`, `split(" ")`, `startswith` and `endswith`.
  A Python `str` is modelled as `seq<char>`.
 */
module PyStr {

  /** True when the two-character terminator "\r\n" starts at position `i` of `s`. */
  predicate CrlfAt(s: string, i: int)
  {
    0 <= i < |s| - 1 && s[i] == '\r' && s[i + 1] == '\n'
  }

  /** True when `s` contains "\r\n" somewhere. */
  predicate HasCrlf(s: string)
  {
    exists i :: 0 <= i < |s| && CrlfAt(s, i)
  }

  /**
    `s.replace("\r\n", "")`: one left-to-right pass that deletes every
    non-overlapping occurrence of "\r\n".
   */
  function RemoveCrlf(s: string): (r: string)
    ensures |r| <= |s|
    decreases |s|
  {
    if |s| >= 2 && s[0] == '\r' && s[1] == '\n' then RemoveCrlf(s[2..])
    else if s == [] then []
    else [s[0]] + RemoveCrlf(s[1..])
  }

  /** A string without "\r\n" comes out of the replacement unchanged. */
  lemma {:induction false} RemoveCrlfUnchanged(s: string)
    requires !HasCrlf(s)
    ensures RemoveCrlf(s) == s
    decreases |s|
  {
    if s != [] {
      assert !CrlfAt(s, 0);
      var t := s[1..];
      assert !HasCrlf(t) by {
        forall i | 0 <= i < |t| - 1 ensures !CrlfAt(t, i) {
          assert !CrlfAt(s, i + 1);
        }
      }
      RemoveCrlfUnchanged(t);
    }
  }

  /** A string without a carriage return holds no "\r\n". */
  lemma NoCarriageReturn(s: string)
    requires '\r' !in s
    ensures !HasCrlf(s)
  {
    forall i | 0 <= i < |s| ensures !CrlfAt(s, i) {
      assert s[i] in s;
    }
  }

  /** The terminator that `readline` leaves at the end of a line is removed and nothing else changes. */
  lemma {:induction false} RemoveCrlfTerminator(s: string)
    ensures RemoveCrlf(s + "\r\n") == RemoveCrlf(s)
    decreases |s|
  {
    var t := s + "\r\n";
    if s == [] {
      assert t == "\r\n";
      assert t[2..] == [];
    } else if |s| >= 2 && s[0] == '\r' && s[1] == '\n' {
      assert t[2..] == s[2..] + "\r\n";
      RemoveCrlfTerminator(s[2..]);
    } else {
      assert !(t[0] == '\r' && t[1] == '\n');
      assert t[1..] == s[1..] + "\r\n";
      RemoveCrlfTerminator(s[1..]);
    }
  }

  /** `s.startswith(p)`: `s` is `p` followed by something. */
  predicate StartsWith(s: string, p: string)
    ensures StartsWith(s, p) <==> exists t :: s == p + t
  {
    if |p| <= |s| && s[..|p|] == p then
      assert s == p + s[|p|..];
      true
    else
      false
  }

  /** `s.endswith(p)`: `s` is something followed by `p`. */
  predicate EndsWith(s: string, p: string)
    ensures EndsWith(s, p) <==> exists t :: s == t + p
  {
    if |p| <= |s| && s[|s| - |p|..] == p then
      assert s == s[..|s| - |p|] + p;
      true
    else
      false
  }

  /**
    `s.split(sep)` with an explicit one-character separator: every
    separator ends a field, so adjacent separators give empty fields and
    the result always has at least one field.
   */
  function Split(s: string, sep: char): (r: seq<string>)
    ensures |r| >= 1
    ensures forall i :: 0 <= i < |r| ==> sep !in r[i]
  {
    if s == [] then [[]]
    else
      var rest := Split(s[1..], sep);
      if s[0] == sep then [[]] + rest
      else [[s[0]] + rest[0]] + rest[1..]
  }

  /** `sep.join(parts)`: the partner of `Split`. */
  function Join(parts: seq<string>, sep: char): string
    requires |parts| >= 1
  {
    if |parts| == 1 then parts[0] else parts[0] + [sep] + Join(parts[1..], sep)
  }

  /** Joining the fields of a split gives back the original string. */
  lemma {:induction false} JoinSplit(s: string, sep: char)
    ensures Join(Split(s, sep), sep) == s
  {
    if s != [] {
      JoinSplit(s[1..], sep);
      var rest := Split(s[1..], sep);
      if s[0] != sep && |rest| > 1 {
        assert rest == [rest[0]] + rest[1..];
      }
    }
  }

  /** A string free of the separator is a single field. */
  lemma {:induction false} SplitNoSep(a: string, sep: char)
    requires sep !in a
    ensures Split(a, sep) == [a]
  {
    if a != [] {
      SplitNoSep(a[1..], sep);
      assert [a[0]] + a[1..] == a;
    }
  }

  /** A separator-free first field followed by the separator is split off whole. */
  lemma {:induction false} SplitCons(a: string, sep: char, b: string)
    requires sep !in a
    ensures Split(a + [sep] + b, sep) == [a] + Split(b, sep)
  {
    var s := a + [sep] + b;
    if a == [] {
      assert s[1..] == b;
    } else {
      assert s[1..] == a[1..] + [sep] + b;
      SplitCons(a[1..], sep, b);
      assert [a[0]] + a[1..] == a;
    }
  }

  /** Splitting a join of separator-free fields gives back the fields. */
  lemma {:induction false} SplitJoin(parts: seq<string>, sep: char)
    requires |parts| >= 1
    requires forall i :: 0 <= i < |parts| ==> sep !in parts[i]
    ensures Split(Join(parts, sep), sep) == parts
  {
    if |parts| == 1 {
      SplitNoSep(parts[0], sep);
    } else {
      SplitJoin(parts[1..], sep);
      SplitCons(parts[0], sep, Join(parts[1..], sep));
    }
  }

  /** A join holds no character other than the separator that its fields do not hold. */
  lemma {:induction false} JoinChars(parts: seq<string>, sep: char, c: char)
    requires |parts| >= 1 && c != sep
    requires forall i :: 0 <= i < |parts| ==> c !in parts[i]
    ensures c !in Join(parts, sep)
  {
    if |parts| > 1 {
      JoinChars(parts[1..], sep, c);
    }
  }

  /** The last field of a join ends the joined string. */
  lemma {:induction false} JoinEndsWith(parts: seq<string>, sep: char)
    requires |parts| >= 1
    ensures EndsWith(Join(parts, sep), parts[|parts| - 1])
  {
    if |parts| > 1 {
      JoinEndsWith(parts[1..], sep);
      var tail := Join(parts[1..], sep);
      var j := parts[0] + [sep] + tail;
      var last := parts[|parts| - 1];
      assert j[|j| - |last|..] == tail[|tail| - |last|..];
    }
  }
}
