/**
 * The pieces of the Java library the bot's string handling rests on:
 * `String.split` with a separator that has no regular-expression meaning,
 * decimal rendering of a non-negative number, and Guava's `Lists.partition`.
 */
module JavaStrings {

  /**
   * Every piece between occurrences of `sep`, scanning left to right without
   * overlap; a string without `sep` is one piece.
   */
  function Pieces(s: string, sep: string): (ps: seq<string>)
    requires |sep| > 0
    ensures |ps| >= 1
    decreases |s|
  {
    if |s| < |sep| then [s]
    else if s[..|sep|] == sep then [""] + Pieces(s[|sep|..], sep)
    else
      var rest := Pieces(s[1..], sep);
      [[s[0]] + rest[0]] + rest[1..]
  }

  /** The pieces joined back with `sep` between them. */
  function Join(ps: seq<string>, sep: string): string
    decreases |ps|
  {
    if ps == [] then "" else if |ps| == 1 then ps[0] else ps[0] + sep + Join(ps[1..], sep)
  }

  /** `ps` without its trailing empty strings. */
  function DropTrailingEmpty(ps: seq<string>): (r: seq<string>)
    ensures |r| <= |ps| && r == ps[..|r|]
    ensures r != [] ==> r[|r| - 1] != ""
    ensures forall i :: |r| <= i < |ps| ==> ps[i] == ""
    decreases |ps|
  {
    if ps == [] then []
    else if ps[|ps| - 1] == "" then DropTrailingEmpty(ps[..|ps| - 1])
    else ps
  }

  /**
   * `s.split(sep)`: without a match the whole input (even an empty one);
   * otherwise the pieces with trailing empty strings removed.
   */
  function Split(s: string, sep: string): (r: seq<string>)
    requires |sep| > 0
  {
    var ps := Pieces(s, sep);
    if |ps| == 1 then ps else DropTrailingEmpty(ps)
  }

  /** Splitting and joining again gives back the input. */
  lemma {:induction false} PiecesJoin(s: string, sep: string)
    requires |sep| > 0
    ensures Join(Pieces(s, sep), sep) == s
    decreases |s|
  {
    if |s| < |sep| {
    } else if s[..|sep|] == sep {
      PiecesJoin(s[|sep|..], sep);
      var rest := Pieces(s[|sep|..], sep);
      assert Pieces(s, sep) == [""] + rest;
      assert ([""] + rest)[1..] == rest;
      assert s == s[..|sep|] + s[|sep|..];
    } else {
      PiecesJoin(s[1..], sep);
      var rest := Pieces(s[1..], sep);
      var ps := [[s[0]] + rest[0]] + rest[1..];
      assert Pieces(s, sep) == ps;
      if |rest| == 1 {
        assert s == [s[0]] + s[1..];
      } else {
        assert ps[1..] == rest[1..];
        assert Join(rest, sep) == rest[0] + sep + Join(rest[1..], sep);
        assert s == [s[0]] + s[1..];
      }
    }
  }

  /** A string in which the separator's first character never occurs is a single piece. */
  lemma {:induction false} PiecesWithoutSep(a: string, sep: string)
    requires |sep| > 0 && sep[0] !in a
    ensures Pieces(a, sep) == [a]
    decreases |a|
  {
    if |a| >= |sep| {
      assert a[0] in a;
      assert a[..|sep|][0] == a[0];
      PiecesWithoutSep(a[1..], sep);
      assert [a[0]] + a[1..] == a;
    }
  }

  /** A separator after such a string ends the first piece there. */
  lemma {:induction false} PiecesAfterPrefix(a: string, sep: string, b: string)
    requires |sep| > 0 && sep[0] !in a
    ensures Pieces(a + sep + b, sep) == [a] + Pieces(b, sep)
    decreases |a|
  {
    var s := a + sep + b;
    if a == [] {
      assert s == sep + b;
      assert s[..|sep|] == sep;
      assert s[|sep|..] == b;
    } else {
      assert a[0] in a;
      assert s[..|sep|][0] == a[0];
      assert s[1..] == a[1..] + sep + b;
      PiecesAfterPrefix(a[1..], sep, b);
      assert [a[0]] + a[1..] == a;
    }
  }

  /** Joining pieces that hold no separator character and splitting again gives the pieces back. */
  lemma {:induction false} JoinPieces(ps: seq<string>, sep: string)
    requires |sep| > 0 && |ps| >= 1
    requires forall i :: 0 <= i < |ps| ==> sep[0] !in ps[i]
    ensures Pieces(Join(ps, sep), sep) == ps
    decreases |ps|
  {
    if |ps| == 1 {
      PiecesWithoutSep(ps[0], sep);
    } else {
      JoinPieces(ps[1..], sep);
      PiecesAfterPrefix(ps[0], sep, Join(ps[1..], sep));
      assert ps == [ps[0]] + ps[1..];
    }
  }

  /** Appending one more piece appends the separator and the piece: a `StringBuilder` step. */
  lemma {:induction false} JoinSnoc(ps: seq<string>, x: string, sep: string)
    requires |ps| >= 1
    ensures Join(ps + [x], sep) == Join(ps, sep) + sep + x
    decreases |ps|
  {
    if |ps| > 1 {
      JoinSnoc(ps[1..], x, sep);
      assert (ps + [x])[1..] == ps[1..] + [x];
    } else {
      assert (ps + [x])[1..] == [x];
    }
  }

  /** The decimal digits of `n`, most significant first: `Long.toString` on a non-negative value. */
  function NatToString(n: nat): (s: string)
    ensures |s| >= 1
    ensures forall c :: c in s ==> '0' <= c <= '9'
    decreases n
  {
    if n < 10 then [DigitChar(n)] else NatToString(n / 10) + [DigitChar(n % 10)]
  }

  function DigitChar(d: nat): (c: char)
    requires d < 10
    ensures '0' <= c <= '9'
  {
    ['0', '1', '2', '3', '4', '5', '6', '7', '8', '9'][d]
  }

  /** The value the decimal digits of `s` stand for. */
  function DigitsValue(s: string): int
    decreases |s|
  {
    if s == [] then 0 else 10 * DigitsValue(s[..|s| - 1]) + DigitValue(s[|s| - 1])
  }

  function DigitValue(c: char): int
  {
    if '0' <= c <= '9' then c as int - '0' as int else 0
  }

  /** Reading the digits back gives the number. */
  lemma {:induction false} NatToStringValue(n: nat)
    ensures DigitsValue(NatToString(n)) == n
    decreases n
  {
    if n >= 10 {
      NatToStringValue(n / 10);
      var s := NatToString(n);
      assert s[..|s| - 1] == NatToString(n / 10);
      DigitCharValue(n % 10);
    } else {
      DigitCharValue(n);
    }
  }

  lemma DigitCharValue(d: nat)
    requires d < 10
    ensures DigitValue(DigitChar(d)) == d
  {
  }

  /** Lists.partition: consecutive chunks of `size`, the last one possibly shorter. */
  function Partition<T>(xs: seq<T>, size: nat): (rows: seq<seq<T>>)
    requires size > 0
    ensures forall i :: 0 <= i < |rows| ==> 1 <= |rows[i]| <= size
    ensures forall i :: 0 <= i < |rows| - 1 ==> |rows[i]| == size
    decreases |xs|
  {
    if xs == [] then []
    else if |xs| <= size then [xs]
    else [xs[..size]] + Partition(xs[size..], size)
  }

  function Flatten<T>(rows: seq<seq<T>>): seq<T>
    decreases |rows|
  {
    if rows == [] then [] else rows[0] + Flatten(rows[1..])
  }

  /** The chunks, read in order, are the input. */
  lemma {:induction false} PartitionFlatten<T>(xs: seq<T>, size: nat)
    requires size > 0
    ensures Flatten(Partition(xs, size)) == xs
    decreases |xs|
  {
    if xs != [] && |xs| > size {
      PartitionFlatten(xs[size..], size);
      var rows := Partition(xs, size);
      assert rows[1..] == Partition(xs[size..], size);
      assert xs[..size] + xs[size..] == xs;
    } else if xs != [] {
      assert Partition(xs, size)[1..] == [];
    }
  }

  /** `Stream.anyMatch`: some element satisfies `p`. */
  function AnyMatch<T>(xs: seq<T>, p: T -> bool): (b: bool)
    ensures b <==> exists i :: 0 <= i < |xs| && p(xs[i])
    decreases |xs|
  {
    if xs == [] then false
    else if p(xs[0]) then true
    else
      var rest := AnyMatch(xs[1..], p);
      assert forall i :: 1 <= i < |xs| ==> xs[i] == xs[1..][i - 1];
      rest
  }
}
